/** The left-to-right scan over windows of `w` neighbours, given which windows are good:
    what it takes, what it leaves, and why no other choice of windows is better. */
module GreedyScan {
  import opened SnakeDraft

  /** Where the scan from `s` takes a window. */
  function Starts(good: seq<bool>, w: nat, s: nat): (starts: seq<nat>)
    requires 0 < w
    decreases |good| - s
  {
    if s + w > |good| then []
    else if good[s] then [s] + Starts(good, w, s + w)
    else Starts(good, w, s + 1)
  }

  function Fill(n: nat, b: bool): (f: seq<bool>)
    ensures |f| == n && forall i :: 0 <= i < n ==> f[i] == b
  {
    seq(n, i => b)
  }

  /** Which places from `s` on the scan uses. */
  function Marks(good: seq<bool>, w: nat, s: nat): (marks: seq<bool>)
    requires 0 < w && s <= |good|
    ensures |marks| == |good| - s
    decreases |good| - s
  {
    if s + w > |good| then Fill(|good| - s, false)
    else if good[s] then Fill(w, true) + Marks(good, w, s + w)
    else [false] + Marks(good, w, s + 1)
  }

  /** The entries that are not marked, in order. */
  function Unused(q: seq<Entry>, marks: seq<bool>): (r: seq<Entry>)
    requires |q| == |marks|
  {
    if q == [] then []
    else
      var r := Unused(q[..|q| - 1], marks[..|q| - 1]);
      if marks[|q| - 1] then r else r + [q[|q| - 1]]
  }

  // ---------------------------------------------------------------------------
  // The windows taken
  // ---------------------------------------------------------------------------

  /** Windows in order, from `s` on, none overlapping the next. */
  ghost predicate Spaced(starts: seq<nat>, w: nat, s: nat) {
    && (starts != [] ==> s <= starts[0])
    && forall i :: 0 <= i < |starts| - 1 ==> starts[i] + w <= starts[i + 1]
  }

  ghost predicate AllGood(good: seq<bool>, w: nat, starts: seq<nat>) {
    forall i :: 0 <= i < |starts| ==> starts[i] + w <= |good| && starts[i] < |good| && good[starts[i]]
  }

  lemma {:induction false} ScanIsSound(good: seq<bool>, w: nat, s: nat)
    requires 0 < w
    ensures Spaced(Starts(good, w, s), w, s) && AllGood(good, w, Starts(good, w, s))
    decreases |good| - s
  {
    if s + w <= |good| {
      ScanIsSound(good, w, if good[s] then s + w else s + 1);
    }
  }

  ghost predicate Covered(starts: seq<nat>, w: nat, k: nat) {
    exists i :: 0 <= i < |starts| && starts[i] <= k < starts[i] + w
  }

  lemma CoveredCons(first: nat, rest: seq<nat>, w: nat, k: nat)
    ensures Covered([first] + rest, w, k) <==> first <= k < first + w || Covered(rest, w, k)
  {
    var all := [first] + rest;
    if Covered(rest, w, k) {
      var i :| 0 <= i < |rest| && rest[i] <= k < rest[i] + w;
      assert all[i + 1] == rest[i];
    }
    if first <= k < first + w {
      assert all[0] == first;
    }
  }

  lemma {:induction false} NotCoveredBefore(good: seq<bool>, w: nat, s: nat, k: nat)
    requires 0 < w && k < s
    ensures !Covered(Starts(good, w, s), w, k)
    decreases |good| - s
  {
    if s + w <= |good| {
      if good[s] {
        CoveredCons(s, Starts(good, w, s + w), w, k);
        NotCoveredBefore(good, w, s + w, k);
      } else {
        NotCoveredBefore(good, w, s + 1, k);
      }
    }
  }

  /** The scan from `s` uses place `k`. */
  ghost predicate Marked(good: seq<bool>, w: nat, s: nat, k: nat)
    requires 0 < w
    decreases |good| - s
  {
    s + w <= |good| && if good[s] then s <= k < s + w || Marked(good, w, s + w, k) else Marked(good, w, s + 1, k)
  }

  lemma {:induction false} NotMarkedBefore(good: seq<bool>, w: nat, s: nat, k: nat)
    requires 0 < w && k < s
    ensures !Marked(good, w, s, k)
    decreases |good| - s
  {
    if s + w <= |good| { NotMarkedBefore(good, w, if good[s] then s + w else s + 1, k); }
  }

  lemma MarkTaken(good: seq<bool>, w: nat, s: nat, k: nat)
    requires 0 < w && s + w <= |good| && s <= k < |good| && good[s]
    ensures Marks(good, w, s)[k - s] == (k < s + w || Marks(good, w, s + w)[k - (s + w)])
  {
  }

  lemma MarkSkipped(good: seq<bool>, w: nat, s: nat, k: nat)
    requires 0 < w && s + w <= |good| && s <= k < |good| && !good[s]
    ensures Marks(good, w, s)[k - s] == (k > s && Marks(good, w, s + 1)[k - (s + 1)])
  {
  }

  lemma MarkEnd(good: seq<bool>, w: nat, s: nat, k: nat)
    requires 0 < w && s <= k < |good| < s + w
    ensures !Marks(good, w, s)[k - s]
  {
  }

  lemma {:induction false} MarksAreMarked(good: seq<bool>, w: nat, s: nat, k: nat, m: bool)
    requires 0 < w && s <= k < |good| && m == Marks(good, w, s)[k - s]
    ensures m <==> Marked(good, w, s, k)
    decreases |good| - s
  {
    if s + w > |good| {
      MarkEnd(good, w, s, k);
    } else if good[s] {
      MarkTaken(good, w, s, k);
      if k >= s + w { MarksAreMarked(good, w, s + w, k, Marks(good, w, s + w)[k - (s + w)]); }
    } else {
      MarkSkipped(good, w, s, k);
      if k > s {
        MarksAreMarked(good, w, s + 1, k, Marks(good, w, s + 1)[k - (s + 1)]);
      } else {
        NotMarkedBefore(good, w, s + 1, k);
      }
    }
  }

  lemma {:induction false} MarkedIffCovered(good: seq<bool>, w: nat, s: nat, k: nat)
    requires 0 < w
    ensures Marked(good, w, s, k) <==> Covered(Starts(good, w, s), w, k)
    decreases |good| - s
  {
    if s + w <= |good| {
      if good[s] {
        CoveredCons(s, Starts(good, w, s + w), w, k);
        MarkedIffCovered(good, w, s + w, k);
      } else {
        MarkedIffCovered(good, w, s + 1, k);
      }
    }
  }

  /** A place is used exactly if one of the windows taken covers it. */
  lemma MarksAreCovered(good: seq<bool>, w: nat, k: nat)
    requires 0 < w && k < |good|
    ensures Marks(good, w, 0)[k] <==> Covered(Starts(good, w, 0), w, k)
  {
    MarksAreMarked(good, w, 0, k, Marks(good, w, 0)[k]);
    MarkedIffCovered(good, w, 0, k);
  }

  // ---------------------------------------------------------------------------
  // Nothing good is left behind
  // ---------------------------------------------------------------------------

  /** The scan uses at least one place of every good window. */
  lemma {:induction false} GoodIsTouched(good: seq<bool>, w: nat, s: nat, k: nat) returns (i: nat)
    requires 0 < w && s <= k && k + w <= |good| && good[k]
    ensures k <= i < k + w && Covered(Starts(good, w, s), w, i)
    decreases |good| - s
  {
    if !good[s] {
      i := GoodIsTouched(good, w, s + 1, k);
    } else if k < s + w {
      i := k;
      CoveredCons(s, Starts(good, w, s + w), w, i);
    } else {
      i := GoodIsTouched(good, w, s + w, k);
      CoveredCons(s, Starts(good, w, s + w), w, i);
    }
  }

  lemma UntouchedIsBad(good: seq<bool>, w: nat, k: nat)
    requires 0 < w && k + w <= |good| && forall i :: k <= i < k + w ==> !Marks(good, w, 0)[i]
    ensures !good[k]
  {
    if good[k] {
      var i := GoodIsTouched(good, w, 0, k);
      MarksAreCovered(good, w, i);
    }
  }

  /** The scan takes as many windows as possible: no other choice of disjoint good windows
      has more of them. */
  lemma {:induction false} ScanIsOptimal(good: seq<bool>, w: nat, s: nat, other: seq<nat>)
    requires 0 < w && Spaced(other, w, s) && AllGood(good, w, other)
    ensures |other| <= |Starts(good, w, s)|
    decreases |good| - s
  {
    if other != [] {
      assert good[other[0]];
      if good[s] {
        assert Spaced(other[1..], w, s + w) by {
          if |other| > 1 { assert other[0] + w <= other[0 + 1]; }
        }
        ScanIsOptimal(good, w, s + w, other[1..]);
      } else {
        ScanIsOptimal(good, w, s + 1, other);
      }
    }
  }

  // ---------------------------------------------------------------------------
  // Nobody is lost
  // ---------------------------------------------------------------------------

  lemma {:induction false} UnusedConcat(p: seq<Entry>, pm: seq<bool>, q: seq<Entry>, qm: seq<bool>)
    requires |p| == |pm| && |q| == |qm|
    ensures Unused(p + q, pm + qm) == Unused(p, pm) + Unused(q, qm)
  {
    if q == [] {
      assert p + q == p && pm + qm == pm;
    } else {
      var n := |q| - 1;
      UnusedConcat(p, pm, q[..n], qm[..n]);
      assert (p + q)[..|p| + n] == p + q[..n];
      assert (pm + qm)[..|p| + n] == pm + qm[..n];
    }
  }

  lemma {:induction false} UnusedFill(q: seq<Entry>, b: bool)
    ensures Unused(q, Fill(|q|, b)) == if b then [] else q
  {
    if q != [] {
      var n := |q| - 1;
      UnusedFill(q[..n], b);
      assert Fill(|q|, b)[..n] == Fill(n, b);
      assert q == q[..n] + [q[n]];
    }
  }

  /** What stays of `q` from `s` on. */
  function Stay(q: seq<Entry>, good: seq<bool>, w: nat, s: nat): seq<Entry>
    requires 0 < w && s <= |q| == |good|
  {
    Unused(q[s..], Marks(good, w, s))
  }

  lemma StayTaken(q: seq<Entry>, good: seq<bool>, w: nat, s: nat)
    requires 0 < w && s + w <= |q| == |good| && good[s]
    ensures Stay(q, good, w, s) == Stay(q, good, w, s + w)
  {
    assert q[s..] == q[s..s + w] + q[s + w..];
    UnusedFill(q[s..s + w], true);
    UnusedConcat(q[s..s + w], Fill(w, true), q[s + w..], Marks(good, w, s + w));
  }

  lemma StaySkipped(q: seq<Entry>, good: seq<bool>, w: nat, s: nat)
    requires 0 < w && s + w <= |q| == |good| && !good[s]
    ensures Stay(q, good, w, s) == [q[s]] + Stay(q, good, w, s + 1)
  {
    assert q[s..] == [q[s]] + q[s + 1..];
    UnusedFill([q[s]], false);
    assert Fill(1, false) == [false];
    UnusedConcat([q[s]], [false], q[s + 1..], Marks(good, w, s + 1));
  }

  lemma StayEnd(q: seq<Entry>, good: seq<bool>, w: nat, s: nat)
    requires 0 < w && s <= |q| == |good| < s + w
    ensures Stay(q, good, w, s) == q[s..]
  {
    UnusedFill(q[s..], false);
  }

  /** How often `x` occurs in the windows at the given starts. */
  ghost function TimesIn(q: seq<Entry>, w: nat, starts: seq<nat>, x: Entry): nat {
    if starts == [] || starts[0] + w > |q| then 0
    else Times(q[starts[0]..starts[0] + w], x) + TimesIn(q, w, starts[1..], x)
  }

  lemma SplitFrom(q: seq<Entry>, s: nat, t: nat, x: Entry)
    requires s <= t <= |q|
    ensures Times(q[s..], x) == Times(q[s..t], x) + Times(q[t..], x)
  {
    SplitTimes(q[s..], t - s, x);
    assert q[s..][..t - s] == q[s..t] && q[s..][t - s..] == q[t..];
  }

  /** The account of one entry from `s` on: how often it stays and how often it is taken. */
  ghost function Account(q: seq<Entry>, good: seq<bool>, w: nat, s: nat, x: Entry): nat
    requires 0 < w && s <= |q| == |good|
  {
    Times(Stay(q, good, w, s), x) + TimesIn(q, w, Starts(good, w, s), x)
  }

  lemma AccountEnd(q: seq<Entry>, good: seq<bool>, w: nat, s: nat, x: Entry)
    requires 0 < w && s <= |q| == |good| < s + w
    ensures Account(q, good, w, s, x) == Times(q[s..], x)
  {
    StayEnd(q, good, w, s);
  }

  lemma AccountTaken(q: seq<Entry>, good: seq<bool>, w: nat, s: nat, x: Entry)
    requires 0 < w && s + w <= |q| == |good| && good[s]
    ensures Account(q, good, w, s, x) == Times(q[s..s + w], x) + Account(q, good, w, s + w, x)
  {
    StayTaken(q, good, w, s);
    assert Starts(good, w, s)[1..] == Starts(good, w, s + w);
  }

  lemma AccountSkipped(q: seq<Entry>, good: seq<bool>, w: nat, s: nat, x: Entry)
    requires 0 < w && s + w <= |q| == |good| && !good[s]
    ensures Account(q, good, w, s, x) == Times(q[s..s + 1], x) + Account(q, good, w, s + 1, x)
  {
    StaySkipped(q, good, w, s);
    TimesConcat([q[s]], Stay(q, good, w, s + 1), x);
    assert q[s..s + 1] == [q[s]];
  }

  /** The scan's next place. */
  ghost function Next(good: seq<bool>, w: nat, s: nat): nat
    requires s < |good|
  {
    if good[s] then s + w else s + 1
  }

  lemma AccountStep(q: seq<Entry>, good: seq<bool>, w: nat, s: nat, x: Entry, t: nat)
    requires 0 < w && s + w <= |q| == |good| && t == Next(good, w, s)
    ensures Account(q, good, w, s, x) == Times(q[s..t], x) + Account(q, good, w, t, x)
  {
    if good[s] {
      AccountTaken(q, good, w, s, x);
    } else {
      AccountSkipped(q, good, w, s, x);
    }
  }

  /** Every entry either stays or is in exactly one of the windows taken. */
  lemma {:induction false} ScanConserves(q: seq<Entry>, good: seq<bool>, w: nat, s: nat, x: Entry)
    requires 0 < w && s <= |q| == |good|
    ensures Times(q[s..], x) == Account(q, good, w, s, x)
    decreases |q| - s
  {
    if s + w > |q| {
      AccountEnd(q, good, w, s, x);
    } else {
      var t := Next(good, w, s);
      AccountStep(q, good, w, s, x, t);
      ScanConserves(q, good, w, t, x);
      SplitFrom(q, s, t, x);
    }
  }

  // ---------------------------------------------------------------------------
  // How many stay
  // ---------------------------------------------------------------------------

  /** If every window is good, exactly the remainder stays. */
  lemma {:induction false} RemainderStays(q: seq<Entry>, good: seq<bool>, w: nat, s: nat)
    requires 0 < w && s <= |q| == |good| && forall i :: 0 <= i < |good| ==> good[i]
    ensures |Stay(q, good, w, s)| == (|q| - s) % w
    decreases |q| - s
  {
    if s + w > |q| {
      StayEnd(q, good, w, s);
      Remainder(|q| - s, w);
    } else {
      StayTaken(q, good, w, s);
      RemainderStays(q, good, w, s + w);
      Remainder(|q| - s, w);
    }
  }

  /** The scan looks only at windows that fit. */
  lemma {:induction false} SameVerdictsSameMarks(good: seq<bool>, other: seq<bool>, w: nat, s: nat)
    requires 0 < w && s <= |good| == |other| && forall i :: 0 <= i && i + w <= |good| ==> good[i] == other[i]
    ensures Marks(good, w, s) == Marks(other, w, s)
    decreases |good| - s
  {
    if s + w <= |good| {
      SameVerdictsSameMarks(good, other, w, if good[s] then s + w else s + 1);
    }
  }

  lemma Remainder(n: nat, w: nat)
    requires 0 < w
    ensures n % w == if n < w then n else (n - w) % w
  {
    if n >= w {
      var k, r := (n - w) / w, (n - w) % w;
      QuotientIsUnique(n, w, k + 1, r);
    }
  }

  lemma QuotientIsUnique(n: nat, w: nat, k: nat, r: nat)
    requires n == k * w + r && r < w
    ensures n % w == r
  {
    var k', r' := n / w, n % w;
    assert n == k' * w + r';
    if k > k' {
      MoreSpans(k' + 1, k, w);
    } else if k < k' {
      MoreSpans(k + 1, k', w);
    }
  }

  lemma MoreSpans(j: nat, k: nat, w: nat)
    requires j <= k
    ensures j * w <= k * w
  {
  }

  // ---------------------------------------------------------------------------
  // The scan with a flag per place
  // ---------------------------------------------------------------------------

  /** The flags and starts found before place `next`, completed by the scan from there, are
      those of the whole scan; places from `s` up to `next` are used, later ones are not. */
  ghost predicate Scanned(good: seq<bool>, w: nat, used: seq<bool>, starts: seq<nat>, s: nat, next: nat)
    requires 0 < w
  {
    && |used| == |good| && s <= next <= |good|
    && used[..next] + Marks(good, w, next) == Marks(good, w, 0)
    && starts + Starts(good, w, next) == Starts(good, w, 0)
    && (forall k :: s <= k < next ==> used[k])
    && forall k :: next <= k < |good| ==> !used[k]
  }

  lemma ScanRefuses(good: seq<bool>, w: nat, used: seq<bool>, starts: seq<nat>, s: nat)
    requires 0 < w && Scanned(good, w, used, starts, s, s) && s + w <= |good| && !good[s]
    ensures Scanned(good, w, used, starts, s + 1, s + 1)
  {
    assert used[..s + 1] == used[..s] + [false];
    assert used[..s] + ([false] + Marks(good, w, s + 1)) == used[..s] + [false] + Marks(good, w, s + 1);
  }

  lemma ScanTakes(good: seq<bool>, w: nat, used: seq<bool>, after: seq<bool>, starts: seq<nat>, s: nat)
    requires 0 < w && Scanned(good, w, used, starts, s, s) && s + w <= |good| && good[s]
    requires after == used[..s] + Fill(w, true) + used[s + w..]
    ensures Scanned(good, w, after, starts + [s], s + 1, s + w)
  {
    TakenFlags(good, w, used, after, s);
    assert starts + ([s] + Starts(good, w, s + w)) == starts + [s] + Starts(good, w, s + w);
  }

  lemma TakenFlags(good: seq<bool>, w: nat, used: seq<bool>, after: seq<bool>, s: nat)
    requires 0 < w && s + w <= |good| == |used| && good[s]
    requires after == used[..s] + Fill(w, true) + used[s + w..]
    ensures after[..s + w] + Marks(good, w, s + w) == used[..s] + Marks(good, w, s)
  {
    assert after[..s + w] == used[..s] + Fill(w, true);
    assert used[..s] + (Fill(w, true) + Marks(good, w, s + w)) == used[..s] + Fill(w, true) + Marks(good, w, s + w);
  }

  lemma ScanEnds(good: seq<bool>, w: nat, used: seq<bool>, starts: seq<nat>, s: nat, next: nat)
    requires 0 < w && Scanned(good, w, used, starts, s, next) && next + w > |good|
    ensures used == Marks(good, w, 0) && starts == Starts(good, w, 0)
  {
    assert used[next..] == Fill(|good| - next, false);
    assert used == used[..next] + used[next..];
  }
}
