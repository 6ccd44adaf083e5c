/** The snake draft that splits a skill-sorted window into teams, and how balanced it is. */
module SnakeDraft {

  datatype Entry = Entry(id: nat, mmr: real, joinedAt: real)

  ghost predicate Sorted(q: seq<Entry>) {
    forall i, j :: 0 <= i <= j < |q| ==> q[i].mmr <= q[j].mmr
  }

  function SumMMR(q: seq<Entry>): real {
    if q == [] then 0.0 else SumMMR(q[..|q| - 1]) + q[|q| - 1].mmr
  }

  function Average(q: seq<Entry>): real {
    if q == [] then 0.0 else SumMMR(q) / |q| as real
  }

  /** `avgMMR`: the accumulator loop computes the mean. */
  method AvgMMR(q: seq<Entry>) returns (avg: real)
    ensures avg == Average(q)
  {
    if |q| == 0 { return 0.0; }
    var sum := 0.0;
    for i := 0 to |q|
      invariant sum == SumMMR(q[..i])
    {
      assert q[..i + 1][..i] == q[..i];
      sum := sum + q[i].mmr;
    }
    assert q[..|q|] == q;
    return sum / |q| as real;
  }

  // ---------------------------------------------------------------------------
  // The draft
  // ---------------------------------------------------------------------------

  /** The place at which team `t` of `n` picks in a forward or a backward pass. It is its
      own inverse. */
  function Place(forward: bool, t: nat, n: nat): (p: nat)
    requires t < n
    ensures p < n
  {
    if forward then t else n - 1 - t
  }

  /** What team `t` of `n` gets when the passes over `w` start in the given direction. */
  function Team(w: seq<Entry>, n: nat, t: nat, forward: bool): seq<Entry>
    requires t < n
  {
    if |w| < n then [] else [w[Place(forward, t, n)]] + Team(w[n..], n, t, !forward)
  }

  /** The whole draft. */
  function Draft(w: seq<Entry>, n: nat): (teams: seq<seq<Entry>>)
    requires 0 < n
    ensures |teams| == n && forall t :: 0 <= t < n ==> teams[t] == Team(w, n, t, true)
  {
    seq(n, t requires 0 <= t < n => Team(w, n, t, true))
  }

  lemma OnePassLess(passes: nat, n: nat)
    requires 0 < passes
    ensures (passes - 1) * n == passes * n - n && passes * n >= n
  {
  }

  lemma {:induction false} TeamSize(w: seq<Entry>, n: nat, t: nat, forward: bool, passes: nat)
    requires t < n && |w| == passes * n
    ensures |Team(w, n, t, forward)| == passes
  {
    if passes > 0 {
      OnePassLess(passes, n);
      TeamSize(w[n..], n, t, !forward, passes - 1);
    }
  }

  /** What team `t` still has to get when `c` places of the pass that begins `w` are done. */
  ghost function ToCome(w: seq<Entry>, n: nat, t: nat, forward: bool, c: nat): seq<Entry>
    requires t < n
  {
    if Place(forward, t, n) < c && n <= |w| then Team(w[n..], n, t, !forward) else Team(w, n, t, forward)
  }

  /** `w` is made of whole passes. */
  ghost predicate Whole(w: seq<Entry>, n: nat)
    requires 0 < n
    decreases |w|
  {
    w == [] || (n <= |w| && Whole(w[n..], n))
  }

  lemma {:induction false} MultipleIsWhole(w: seq<Entry>, n: nat, passes: nat)
    requires 0 < n && |w| == passes * n
    ensures Whole(w, n)
  {
    if passes > 0 {
      OnePassLess(passes, n);
      MultipleIsWhole(w[n..], n, passes - 1);
    }
  }

  /** The teams so far, completed by what is to come, are the draft of `w`. */
  ghost predicate Halfway(teams: seq<seq<Entry>>, w: seq<Entry>, rest: seq<Entry>, n: nat, forward: bool, c: nat) {
    |teams| == n && forall t :: 0 <= t < n ==> teams[t] + ToCome(rest, n, t, forward, c) == Team(w, n, t, true)
  }

  lemma Associate(a: seq<Entry>, x: Entry, b: seq<Entry>)
    ensures a + ([x] + b) == (a + [x]) + b
  {
  }

  /** A pick moves one player from what is to come to what is done, for the picking team alone. */
  lemma OnePick(rest: seq<Entry>, n: nat, forward: bool, c: nat, t: nat)
    requires c < n <= |rest| && t < n
    ensures t == Place(forward, c, n) ==>
              ToCome(rest, n, t, forward, c) == [rest[c]] + ToCome(rest, n, t, forward, c + 1)
    ensures t != Place(forward, c, n) ==> ToCome(rest, n, t, forward, c) == ToCome(rest, n, t, forward, c + 1)
  {
  }

  lemma PickKeeps(teams: seq<seq<Entry>>, after: seq<seq<Entry>>, w: seq<Entry>, rest: seq<Entry>, n: nat,
                  forward: bool, c: nat, idx: nat)
    requires Halfway(teams, w, rest, n, forward, c)
    requires c < n <= |rest| && idx == Place(forward, c, n)
    requires after == teams[idx := teams[idx] + [rest[c]]]
    ensures Halfway(after, w, rest, n, forward, c + 1)
  {
    forall t | 0 <= t < n ensures after[t] + ToCome(rest, n, t, forward, c + 1) == Team(w, n, t, true) {
      OnePick(rest, n, forward, c, t);
      if t == idx {
        Associate(teams[t], rest[c], ToCome(rest, n, t, forward, c + 1));
      }
    }
  }

  lemma PassEnds(teams: seq<seq<Entry>>, w: seq<Entry>, rest: seq<Entry>, n: nat, forward: bool)
    requires Halfway(teams, w, rest, n, forward, n) && n <= |rest|
    ensures Halfway(teams, w, rest[n..], n, !forward, 0)
  {
    forall t | 0 <= t < n ensures teams[t] + ToCome(rest[n..], n, t, !forward, 0) == Team(w, n, t, true) {
      assert ToCome(rest[n..], n, t, !forward, 0) == ToCome(rest, n, t, forward, n);
    }
  }

  /** After a pick the next place is due, or the next pass. */
  lemma PlaceDone(teams: seq<seq<Entry>>, after: seq<seq<Entry>>, w: seq<Entry>, rest: seq<Entry>, n: nat, forward: bool,
                  c: nat, idx: nat)
    requires c < n && Halfway(teams, w, rest, n, forward, c) && Whole(rest, n) && rest != []
    requires idx == Place(forward, c, n) && after == teams[idx := teams[idx] + [rest[c]]]
    ensures if c + 1 == n then Halfway(after, w, rest[n..], n, !forward, 0) && Whole(rest[n..], n)
            else Halfway(after, w, rest, n, forward, c + 1)
  {
    PickKeeps(teams, after, w, rest, n, forward, c, idx);
    if c + 1 == n { PassEnds(after, w, rest, n, forward); }
  }

  lemma DraftStarts(teams: seq<seq<Entry>>, w: seq<Entry>, n: nat)
    requires |teams| == n && forall t :: 0 <= t < n ==> teams[t] == []
    ensures Halfway(teams, w, w, n, true, 0)
  {
    forall t | 0 <= t < n ensures teams[t] + ToCome(w, n, t, true, 0) == Team(w, n, t, true) {
    }
  }

  lemma DraftEnds(teams: seq<seq<Entry>>, w: seq<Entry>, n: nat, forward: bool)
    requires 0 < n && Halfway(teams, w, [], n, forward, 0)
    ensures teams == Draft(w, n)
  {
    forall t | 0 <= t < n ensures teams[t] == Draft(w, n)[t] {
      assert teams[t] + ToCome([], n, t, forward, 0) == Team(w, n, t, true);
    }
  }

  /** The zigzag loop assigns every team exactly the players of its draft. */
  method SnakeTeams(w: seq<Entry>, n: nat, passes: nat) returns (teams: seq<seq<Entry>>)
    requires 0 < n && |w| == passes * n
    ensures teams == Draft(w, n)
  {
    teams := seq(n, t => []);
    var idx: nat, forward := 0, true;
    ghost var rest, c: nat := w, 0;
    MultipleIsWhole(w, n, passes);
    DraftStarts(teams, w, n);
    for i := 0 to |w|
      invariant 0 <= c < n && c <= i && rest == w[i - c..] && Whole(rest, n) && (rest == [] ==> c == 0)
      invariant idx == Place(forward, c, n)
      invariant Halfway(teams, w, rest, n, forward, c)
    {
      ghost var before := teams;
      assert rest != [] && w[i] == rest[c];
      teams := teams[idx := teams[idx] + [w[i]]];
      PlaceDone(before, teams, w, rest, n, forward, c, idx);
      rest, c := if c + 1 == n then rest[n..] else rest, if c + 1 == n then 0 else c + 1;
      idx, forward := Zigzag(idx, forward, n);
    }
    DraftEnds(teams, w, n, forward);
  }

  /** The team after `idx`: at either end the direction turns and the same team picks again. */
  method Zigzag(idx: nat, forward: bool, n: nat) returns (idx': nat, forward': bool)
    requires idx < n
    ensures Place(forward, idx, n) + 1 < n ==> forward' == forward && idx' == Place(forward, Place(forward, idx, n) + 1, n)
    ensures Place(forward, idx, n) + 1 == n ==> forward' == !forward && idx' == idx
  {
    var i: int := idx;
    forward' := forward;
    if forward {
      i := i + 1;
      if i >= n {
        i := n - 1;
        forward' := false;
      }
    } else {
      i := i - 1;
      if i < 0 {
        i := 0;
        forward' := true;
      }
    }
    idx' := i;
  }

  // ---------------------------------------------------------------------------
  // Balance
  // ---------------------------------------------------------------------------

  lemma {:induction false} SumCons(x: Entry, q: seq<Entry>)
    ensures SumMMR([x] + q) == x.mmr + SumMMR(q)
  {
    if q == [] {
      assert [x] + q == [x] && [x][..0] == [];
    } else {
      var front, last := q[..|q| - 1], q[|q| - 1];
      SumCons(x, front);
      assert ([x] + q)[..|q|] == [x] + front;
    }
  }

  /** Two teams' totals differ by at most the skill range of the window. */
  lemma {:induction false} TotalsStayClose(w: seq<Entry>, n: nat, a: nat, b: nat, forward: bool)
    requires Sorted(w) && a < n && b < n && n <= |w|
    ensures SumMMR(Team(w, n, a, forward)) - SumMMR(Team(w, n, b, forward)) <= w[|w| - 1].mmr - w[0].mmr
    decreases |w|
  {
    var x, y, rest := w[Place(forward, a, n)], w[Place(forward, b, n)], w[n..];
    SumCons(x, Team(rest, n, a, !forward));
    SumCons(y, Team(rest, n, b, !forward));
    assert x.mmr - y.mmr <= w[n - 1].mmr - w[0].mmr;
    if n <= |rest| {
      assert Sorted(rest);
      TotalsStayClose(rest, n, a, b, !forward);
      assert rest[0] == w[n] && rest[|rest| - 1] == w[|w| - 1];
    }
  }

  /** Any two teams' average skill differs by at most the skill range of the window divided
      by the team size. */
  lemma DraftIsBalanced(w: seq<Entry>, n: nat, passes: nat, a: nat, b: nat)
    requires Sorted(w) && 0 < passes && |w| == passes * n && a < n && b < n
    ensures |w| > 0
    ensures Average(Draft(w, n)[a]) - Average(Draft(w, n)[b]) <= (w[|w| - 1].mmr - w[0].mmr) / passes as real
  {
    OnePassLess(passes, n);
    TotalsStayClose(w, n, a, b, true);
    TeamSize(w, n, a, true, passes);
    TeamSize(w, n, b, true, passes);
    DivideDifference(SumMMR(Team(w, n, a, true)), SumMMR(Team(w, n, b, true)), w[|w| - 1].mmr - w[0].mmr, passes as real);
  }

  lemma DivideDifference(x: real, y: real, d: real, p: real)
    requires p > 0.0 && x - y <= d
    ensures x / p - y / p <= d / p
  {
    assert x / p - y / p == (x - y) / p;
  }

  // ---------------------------------------------------------------------------
  // Nobody is lost
  // ---------------------------------------------------------------------------

  /** How often `x` occurs in `q`. */
  ghost function Times(q: seq<Entry>, x: Entry): nat {
    if q == [] then 0 else Times(q[..|q| - 1], x) + if q[|q| - 1] == x then 1 else 0
  }

  lemma {:induction false} TimesConcat(p: seq<Entry>, q: seq<Entry>, x: Entry)
    ensures Times(p + q, x) == Times(p, x) + Times(q, x)
  {
    if q == [] {
      assert p + q == p;
    } else {
      TimesConcat(p, q[..|q| - 1], x);
      assert (p + q)[..|p + q| - 1] == p + q[..|q| - 1];
    }
  }

  lemma {:induction false} TimesIsMultiset(q: seq<Entry>, x: Entry)
    ensures Times(q, x) == multiset(q)[x]
  {
    if q != [] {
      TimesIsMultiset(q[..|q| - 1], x);
      assert q == q[..|q| - 1] + [q[|q| - 1]];
    }
  }

  /** How often `x` plays in the teams together. */
  ghost function Plays(teams: seq<seq<Entry>>, x: Entry): nat {
    if teams == [] then 0 else Plays(teams[..|teams| - 1], x) + Times(teams[|teams| - 1], x)
  }

  /** How often `x` plays in the first `k` teams of a draft that starts in the given direction. */
  ghost function Drafted(w: seq<Entry>, n: nat, forward: bool, k: nat, x: Entry): nat
    requires k <= n
  {
    if k == 0 then 0 else Drafted(w, n, forward, k - 1, x) + Times(Team(w, n, k - 1, forward), x)
  }

  /** The picks of the first `k` teams in one pass. */
  ghost function Picks(w: seq<Entry>, n: nat, forward: bool, k: nat): seq<Entry>
    requires k <= n <= |w|
  {
    if forward then w[..k] else w[n - k..n]
  }

  lemma PicksGrow(w: seq<Entry>, n: nat, forward: bool, k: nat, before: seq<Entry>, after: seq<Entry>, e: Entry)
    requires k < n <= |w| && before == Picks(w, n, forward, k) && after == Picks(w, n, forward, k + 1)
    requires e == w[Place(forward, k, n)]
    ensures after == if forward then before + [e] else [e] + before
  {
  }

  lemma TimesOneMore(before: seq<Entry>, after: seq<Entry>, e: Entry, x: Entry)
    requires after == before + [e] || after == [e] + before
    ensures Times(after, x) == Times(before, x) + Times([e], x)
  {
    TimesConcat(before, [e], x);
    TimesConcat([e], before, x);
  }

  lemma MorePicks(w: seq<Entry>, n: nat, forward: bool, k: nat, x: Entry)
    requires k < n <= |w|
    ensures Times(Picks(w, n, forward, k + 1), x) == Times(Picks(w, n, forward, k), x) + Times([w[Place(forward, k, n)]], x)
  {
    var before, after, e := Picks(w, n, forward, k), Picks(w, n, forward, k + 1), w[Place(forward, k, n)];
    PicksGrow(w, n, forward, k, before, after, e);
    TimesOneMore(before, after, e, x);
  }

  /** A pass adds its picks to what the later passes give. */
  lemma {:induction false} PassAdds(w: seq<Entry>, n: nat, forward: bool, k: nat, x: Entry)
    requires k <= n <= |w|
    ensures Drafted(w, n, forward, k, x) == Times(Picks(w, n, forward, k), x) + Drafted(w[n..], n, !forward, k, x)
  {
    if k > 0 {
      PassAdds(w, n, forward, k - 1, x);
      MorePicks(w, n, forward, k - 1, x);
      TimesConcat([w[Place(forward, k - 1, n)]], Team(w[n..], n, k - 1, !forward), x);
    }
  }

  lemma {:induction false} NoPassNoPicks(n: nat, forward: bool, k: nat, x: Entry)
    requires k <= n
    ensures Drafted([], n, forward, k, x) == 0
  {
    if k > 0 {
      NoPassNoPicks(n, forward, k - 1, x);
    }
  }

  lemma SplitTimes(w: seq<Entry>, n: nat, x: Entry)
    requires n <= |w|
    ensures Times(w, x) == Times(w[..n], x) + Times(w[n..], x)
  {
    TimesConcat(w[..n], w[n..], x);
    assert w == w[..n] + w[n..];
  }

  lemma PassUsesEveryone(w: seq<Entry>, n: nat, forward: bool, x: Entry)
    requires n <= |w|
    ensures Drafted(w, n, forward, n, x) == Times(w[..n], x) + Drafted(w[n..], n, !forward, n, x)
  {
    PassAdds(w, n, forward, n, x);
    assert Picks(w, n, forward, n) == w[..n];
  }

  lemma {:induction false} PassesUseEveryone(w: seq<Entry>, n: nat, forward: bool, x: Entry)
    requires 0 < n && Whole(w, n)
    ensures Drafted(w, n, forward, n, x) == Times(w, x)
    decreases |w|
  {
    if w == [] {
      NoPassNoPicks(n, forward, n, x);
    } else {
      PassUsesEveryone(w, n, forward, x);
      PassesUseEveryone(w[n..], n, !forward, x);
      SplitTimes(w, n, x);
    }
  }

  lemma {:induction false} DraftedIsPlays(w: seq<Entry>, n: nat, k: nat, x: Entry)
    requires 0 < n && k <= n
    ensures Drafted(w, n, true, k, x) == Plays(Draft(w, n)[..k], x)
  {
    if k > 0 {
      DraftedIsPlays(w, n, k - 1, x);
      assert Draft(w, n)[..k][..k - 1] == Draft(w, n)[..k - 1];
    }
  }

  /** The teams of a draft together hold exactly the players of the window, and all teams
      have the same size. */
  lemma DraftUsesEveryone(w: seq<Entry>, n: nat, passes: nat)
    requires 0 < n && |w| == passes * n
    ensures forall x :: Plays(Draft(w, n), x) == multiset(w)[x]
    ensures forall t :: 0 <= t < n ==> |Draft(w, n)[t]| == passes
  {
    MultipleIsWhole(w, n, passes);
    forall x ensures Plays(Draft(w, n), x) == multiset(w)[x] {
      PassesUseEveryone(w, n, true, x);
      DraftedIsPlays(w, n, n, x);
      assert Draft(w, n)[..n] == Draft(w, n);
      TimesIsMultiset(w, x);
    }
    forall t | 0 <= t < n ensures |Draft(w, n)[t]| == passes {
      TeamSize(w, n, t, true, passes);
    }
  }
}
