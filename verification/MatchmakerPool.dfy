/** The matchmaker object: its queue is sorted, scanned with a flag per player, and compacted
    in place. */
module MatchmakerPool {
  import opened SnakeDraft
  import opened GreedyScan
  import opened Matchmaker
  import opened MatchmakerLaws

  ghost predicate SameEntries(p: seq<Entry>, q: seq<Entry>) {
    forall x :: Times(p, x) == Times(q, x)
  }

  /** Where a new entry goes in a sorted queue. */
  method Insert(q: seq<Entry>, e: Entry) returns (r: seq<Entry>)
    requires Sorted(q)
    ensures Sorted(r) && SameEntries(r, q + [e])
  {
    var k := |q|;
    while k > 0 && q[k - 1].mmr > e.mmr
      invariant 0 <= k <= |q|
      invariant forall i :: k <= i < |q| ==> q[i].mmr > e.mmr
    {
      k := k - 1;
    }
    r := q[..k] + [e] + q[k..];
    InsertedCounts(q, e, k);
  }

  lemma InsertedCounts(q: seq<Entry>, e: Entry, k: nat)
    requires k <= |q|
    ensures SameEntries(q[..k] + [e] + q[k..], q + [e])
  {
    forall x ensures Times(q[..k] + [e] + q[k..], x) == Times(q + [e], x) {
      TimesConcat(q[..k] + [e], q[k..], x);
      TimesConcat(q[..k], [e], x);
      TimesConcat(q[..k], q[k..], x);
      assert q[..k] + q[k..] == q;
      TimesConcat(q, [e], x);
    }
  }

  /** Any sorted arrangement of the queue will do; ties may come out in any order. */
  method SortByMMR(q: seq<Entry>) returns (r: seq<Entry>)
    ensures Sorted(r) && SameEntries(r, q)
  {
    r := [];
    for i := 0 to |q|
      invariant Sorted(r) && SameEntries(r, q[..i])
    {
      ghost var before := r;
      r := Insert(r, q[i]);
      OneMore(before, r, q, i);
    }
    assert q[..|q|] == q;
  }

  lemma OneMore(before: seq<Entry>, after: seq<Entry>, q: seq<Entry>, i: nat)
    requires i < |q| && SameEntries(before, q[..i]) && SameEntries(after, before + [q[i]])
    ensures SameEntries(after, q[..i + 1])
  {
    forall x ensures Times(after, x) == Times(q[..i + 1], x) {
      TimesConcat(before, [q[i]], x);
      TimesConcat(q[..i], [q[i]], x);
      assert q[..i + 1] == q[..i] + [q[i]];
    }
  }

  /** Moves the unmarked entries to the front of the array, in order. */
  method Compact(a: array<Entry>, used: seq<bool>) returns (n: nat)
    requires a.Length == |used|
    modifies a
    ensures n <= a.Length && a[..n] == Unused(old(a[..]), used)
  {
    ghost var q := a[..];
    n := 0;
    for i := 0 to a.Length
      invariant n <= i && a[i..] == q[i..] && a[..n] == Unused(q[..i], used[..i])
    {
      assert q[..i + 1][..i] == q[..i] && used[..i + 1][..i] == used[..i];
      assert a[i] == a[i..][0] == q[i];
      assert a[i + 1..] == a[i..][1..];
      if !used[i] {
        a[n] := a[i];
        n := n + 1;
        assert a[..n] == a[..n - 1] + [q[i]];
      }
    }
    assert q[..|q|] == q && used[..|used|] == used;
  }

  class Pool {
    var queue: seq<Entry>
    const config: Setup

    constructor (c: Setup)
      ensures queue == [] && config == c
    {
      queue := [];
      config := c;
    }

    method Enqueue(e: Entry)
      modifies this
      ensures queue == old(queue) + [e]
    {
      queue := queue + [e];
    }

    /** Forms the matches of a sorted arrangement of the queue and keeps the others. */
    method FindMatches(now: real) returns (matches: seq<Match>, ghost sorted: seq<Entry>)
      modifies this
      ensures |old(queue)| < Span(config) ==> matches == [] && queue == old(queue)
      ensures |old(queue)| >= Span(config) ==>
                && Sorted(sorted) && SameEntries(sorted, old(queue))
                && matches == Matches(config, now, sorted)
                && queue == Leftover(config, now, sorted)
      ensures forall x :: multiset(old(queue))[x] == multiset(queue)[x] + PlaysIn(matches, x)
    {
      var span := Span(config);
      if |queue| < span {
        return [], queue;
      }
      var q := SortByMMR(queue);
      var used;
      matches, used := Scan(config, now, q);
      var a := new Entry[|q|](i requires 0 <= i < |q| => q[i]);
      assert a[..] == q;
      var n := Compact(a, used);
      queue := a[..n];
      sorted := q;
      forall x ensures multiset(old(queue))[x] == multiset(queue)[x] + PlaysIn(matches, x) {
        NobodyIsLost(config, now, q, x);
        TimesIsMultiset(q, x);
        TimesIsMultiset(old(queue), x);
      }
    }
  }

  /** The window at `s` has no used player. */
  method WindowIsFree(used: array<bool>, s: nat, w: nat) returns (free: bool)
    requires s + w <= used.Length
    ensures free <==> forall k :: s <= k < s + w ==> !used[k]
  {
    for k := s to s + w
      invariant forall j :: s <= j < k ==> !used[j]
    {
      if used[k] {
        return false;
      }
    }
    return true;
  }

  method MarkWindow(used: array<bool>, s: nat, w: nat)
    requires s + w <= used.Length
    modifies used
    ensures used[..] == old(used[..s]) + Fill(w, true) + old(used[s + w..])
  {
    for k := s to s + w
      invariant used[..] == old(used[..s]) + Fill(k - s, true) + old(used[k..])
    {
      used[k] := true;
    }
  }

  /** One window: its spread, its draft and its quality. */
  method Propose(c: Setup, now: real, w: seq<Entry>) returns (m: Match)
    requires |w| == Span(c)
    ensures m == Proposal(c, now, w)
  {
    var spread := FindMaxSpread(c, now, w);
    var teams := SnakeTeams(w, c.teamsPerMatch, c.playersPerTeam);
    var quality := MatchQuality(teams, spread);
    m := Match(teams, quality);
  }

  lemma MoreMatches(c: Setup, now: real, q: seq<Entry>, starts: seq<nat>, s: nat)
    ensures MatchesAt(c, now, q, starts + [s]) == MatchesAt(c, now, q, starts) + [MatchAt(c, now, q, s)]
  {
  }

  /** What the flags, windows and matches found so far amount to. */
  ghost predicate Progress(c: Setup, now: real, q: seq<Entry>, used: seq<bool>, matches: seq<Match>,
                           starts: seq<nat>, s: nat, next: nat) {
    Scanned(Verdicts(c, now, q), Span(c), used, starts, s, next) && matches == MatchesAt(c, now, q, starts)
  }

  lemma FreeIsNext(good: seq<bool>, w: nat, used: seq<bool>, starts: seq<nat>, s: nat, next: nat)
    requires 0 < w && Scanned(good, w, used, starts, s, next) && s + w <= |used|
    ensures s == next <==> forall k :: s <= k < s + w ==> !used[k]
    ensures s < next ==> Scanned(good, w, used, starts, s + 1, next)
  {
    if s < next {
      assert used[s];
    }
  }

  /** One window of free players: refused, or taken and marked. */
  method TryWindow(c: Setup, now: real, q: seq<Entry>, used: array<bool>, matches: seq<Match>, ghost starts: seq<nat>, s: nat)
    returns (more: seq<Match>, ghost taken: seq<nat>, ghost next: nat)
    requires s + Span(c) <= |q| && Progress(c, now, q, used[..], matches, starts, s, s)
    modifies used
    ensures s < next && Progress(c, now, q, used[..], more, taken, s + 1, next)
  {
    var w := Span(c);
    ghost var good := Verdicts(c, now, q);
    var m := Propose(c, now, WindowAt(c, q, s));
    if m.quality < c.minQuality {
      ScanRefuses(good, w, used[..], starts, s);
      more, taken, next := matches, starts, s + 1;
    } else {
      ghost var before := used[..];
      MarkWindow(used, s, w);
      ScanTakes(good, w, before, used[..], starts, s);
      MoreMatches(c, now, q, starts, s);
      more, taken, next := matches + [m], starts + [s], s + w;
    }
  }

  /** The sliding window over the sorted queue, with one flag per player. */
  method Scan(c: Setup, now: real, q: seq<Entry>) returns (matches: seq<Match>, marks: seq<bool>)
    ensures matches == Matches(c, now, q) && marks == Used(c, now, q)
  {
    var w, used := Span(c), new bool[|q|](i => false);
    ghost var starts: seq<nat>, next: nat := [], 0;
    matches := [];
    var s: nat := 0;
    while s + w <= |q|
      invariant s <= next && Progress(c, now, q, used[..], matches, starts, s, next)
    {
      var free := WindowIsFree(used, s, w);
      FreeIsNext(Verdicts(c, now, q), w, used[..], starts, s, next);
      if free {
        matches, starts, next := TryWindow(c, now, q, used, matches, starts, s);
      }
      s := s + 1;
    }
    ScanEnds(Verdicts(c, now, q), w, used[..], starts, s, next);
    marks := used[..];
  }
}
