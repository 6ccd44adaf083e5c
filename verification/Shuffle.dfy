/** The Fisher-Yates shuffle: whatever the random source returns, the result is a
    permutation, and every permutation can come out. */
module Shuffle {

  function Swapped<T>(s: seq<T>, i: nat, j: nat): seq<T>
    requires i < |s| && j < |s|
  {
    s[i := s[j]][j := s[i]]
  }

  /** `draws[i]` is what the random source returned for the swap at position `i`. */
  ghost predicate InRange(draws: seq<nat>, n: nat) {
    |draws| == n && forall i :: 0 <= i < n ==> draws[i] <= i
  }

  /** The swaps at positions `i`, `i - 1`, ..., 1. */
  ghost function Shuffled<T>(s: seq<T>, draws: seq<nat>, i: nat): (r: seq<T>)
    requires InRange(draws, |s|) && (i < |s| || i == 0)
    ensures |r| == |s|
    decreases i
  {
    if i == 0 then s else Shuffled(Swapped(s, i, draws[i]), draws, i - 1)
  }

  lemma SwappedPermutes<T>(s: seq<T>, i: nat, j: nat)
    requires i < |s| && j < |s|
    ensures multiset(Swapped(s, i, j)) == multiset(s)
  {
  }

  /** No element is lost or duplicated. */
  lemma {:induction false} ShuffledPermutes<T>(s: seq<T>, draws: seq<nat>, i: nat)
    requires InRange(draws, |s|) && (i < |s| || i == 0)
    ensures multiset(Shuffled(s, draws, i)) == multiset(s)
    decreases i
  {
    if i != 0 {
      SwappedPermutes(s, i, draws[i]);
      ShuffledPermutes(Swapped(s, i, draws[i]), draws, i - 1);
    }
  }

  /** Only the first `i + 1` draws matter from position `i` on. */
  lemma {:induction false} ShuffledAgrees<T>(s: seq<T>, draws: seq<nat>, draws': seq<nat>, i: nat)
    requires InRange(draws, |s|) && InRange(draws', |s|) && (i < |s| || i == 0)
    requires forall k :: 0 <= k <= i && k < |s| ==> draws[k] == draws'[k]
    ensures Shuffled(s, draws, i) == Shuffled(s, draws', i)
    decreases i
  {
    if i != 0 { ShuffledAgrees(Swapped(s, i, draws[i]), draws, draws', i - 1); }
  }

  lemma PrefixMultiset<T>(a: seq<T>, b: seq<T>, n: nat)
    requires multiset(a) == multiset(b) && n <= |a| && |a| == |b| && a[n..] == b[n..]
    ensures multiset(a[..n]) == multiset(b[..n])
  {
    assert a == a[..n] + a[n..] && b == b[..n] + b[n..];
    assert multiset(a[..n]) == multiset(a) - multiset(a[n..]);
    assert multiset(b[..n]) == multiset(b) - multiset(b[n..]);
  }

  /** Where the shuffle must draw position `i`'s element from. */
  lemma DrawFor<T>(s: seq<T>, p: seq<T>, i: nat) returns (j: nat)
    requires multiset(s) == multiset(p) && |s| == |p| && i < |s| && s[i + 1..] == p[i + 1..]
    ensures j <= i && s[j] == p[i]
  {
    PrefixMultiset(s, p, i + 1);
    assert p[i] in p[..i + 1];
    assert p[i] in multiset(p[..i + 1]);
    assert p[i] in multiset(s[..i + 1]);
    assert p[i] in s[..i + 1];
    j :| 0 <= j < i + 1 && s[..i + 1][j] == p[i];
  }

  lemma SwapPlaces<T>(s: seq<T>, p: seq<T>, i: nat, j: nat)
    requires |s| == |p| && j <= i < |s| && s[i + 1..] == p[i + 1..] && s[j] == p[i]
    ensures Swapped(s, i, j)[i..] == p[i..]
  {
    var t := Swapped(s, i, j);
    forall k | i <= k < |s| ensures t[k] == p[k] {
      if i < k { assert s[k] == s[i + 1..][k - i - 1] == p[k]; }
    }
  }

  lemma SameFirst<T>(s: seq<T>, p: seq<T>, j: nat)
    requires |s| == |p| > 0 && s[1..] == p[1..] && j == 0 && s[j] == p[0]
    ensures s == p
  {
    assert s == [s[0]] + s[1..] && p == [p[0]] + p[1..];
  }

  lemma {:induction false} ReachFrom<T>(s: seq<T>, p: seq<T>, i: nat) returns (draws: seq<nat>)
    requires multiset(s) == multiset(p) && |s| == |p| && i < |s| && s[i + 1..] == p[i + 1..]
    ensures InRange(draws, |s|) && Shuffled(s, draws, i) == p
    decreases i
  {
    var j := DrawFor(s, p, i);
    if i == 0 {
      draws := seq(|s|, k => 0);
      SameFirst(s, p, j);
    } else {
      var t := Swapped(s, i, j);
      SwappedPermutes(s, i, j);
      SwapPlaces(s, p, i, j);
      var rest := ReachFrom(t, p, i - 1);
      draws := DrawFirst(s, t, rest, i, j);
    }
  }

  /** Drawing `j` at position `i` before the other draws. */
  lemma DrawFirst<T>(s: seq<T>, t: seq<T>, rest: seq<nat>, i: nat, j: nat) returns (draws: seq<nat>)
    requires 0 < i < |s| && j <= i && t == Swapped(s, i, j) && |t| == |s| && InRange(rest, |s|)
    ensures InRange(draws, |s|) && Shuffled(s, draws, i) == Shuffled(t, rest, i - 1)
  {
    draws := rest[i := j];
    ShuffledAgrees(t, draws, rest, i - 1);
    assert draws[i] == j;
  }

  /** Every permutation comes out for some sequence of draws. */
  lemma EveryPermutationReachable<T>(s: seq<T>, p: seq<T>) returns (draws: seq<nat>)
    requires multiset(s) == multiset(p) && s != []
    ensures InRange(draws, |s|) && Shuffled(s, draws, |s| - 1) == p
  {
    assert |multiset(s)| == |multiset(p)|;
    draws := ReachFrom(s, p, |s| - 1);
  }

  lemma OneSwap<T>(s: seq<T>, draws: seq<nat>, i: nat, t: seq<T>)
    requires InRange(draws, |s|) && 0 < i < |s| && t == Swapped(s, i, draws[i])
    ensures |t| == |s| && Shuffled(t, draws, i - 1) == Shuffled(s, draws, i)
  {
  }

  method SwapInPlace<T>(out: array<T>, i: nat, j: nat)
    requires j <= i < out.Length
    modifies out
    ensures out[..] == Swapped(old(out[..]), i, j)
  {
    out[i], out[j] := out[j], out[i];
  }

  method CopyOf<T>(s: seq<T>) returns (out: array<T>)
    ensures fresh(out) && out[..] == s
  {
    out := new T[|s|](k requires 0 <= k < |s| => s[k]);
  }

  /** The downward loop of swaps on the copy. */
  method SwapAll<T>(out: array<T>, draws: seq<nat>)
    requires 0 < out.Length && InRange(draws, out.Length)
    modifies out
    ensures out[..] == Shuffled(old(out[..]), draws, out.Length - 1)
  {
    ghost var s := out[..];
    var i: nat := out.Length - 1;
    while i > 0
      invariant i < out.Length && Shuffled(out[..], draws, i) == Shuffled(s, draws, out.Length - 1)
    {
      ghost var before := out[..];
      SwapInPlace(out, i, draws[i]);
      OneSwap(before, draws, i, out[..]);
      i := i - 1;
    }
  }

  /** `ShuffleWith`: the input is copied and the copy is shuffled in place. */
  method ShuffleWith<T>(s: seq<T>, draws: seq<nat>) returns (r: seq<T>)
    requires InRange(draws, |s|)
    ensures r == Shuffled(s, draws, if s == [] then 0 else |s| - 1)
    ensures multiset(r) == multiset(s)
  {
    var out := CopyOf(s);
    if 0 < out.Length {
      SwapAll(out, draws);
    }
    r := out[..];
    ShuffledPermutes(s, draws, if s == [] then 0 else |s| - 1);
  }
}
