/** The in-memory matchmaker: a skill-sorted queue is scanned for windows of one match each,
    each window is drafted into teams, good matches are taken and the rest is compacted. */
module Matchmaker {
  import opened SnakeDraft
  import opened GreedyScan

  datatype Config = Config(playersPerTeam: nat, teamsPerMatch: nat, baseSpread: real, spreadPerSecond: real, minQuality: real)

  /** A match has at least one team and a team at least one player. */
  type Setup = c: Config | 0 < c.playersPerTeam && 0 < c.teamsPerMatch witness Config(1, 2, 200.0, 2.0, 0.4)

  datatype Match = Match(teams: seq<seq<Entry>>, quality: real)

  /** Players of one match. */
  function Span(c: Setup): (w: nat)
    ensures w > 0
  {
    OnePassLess(c.playersPerTeam, c.teamsPerMatch);
    c.playersPerTeam * c.teamsPerMatch
  }

  // ---------------------------------------------------------------------------
  // Quality
  // ---------------------------------------------------------------------------

  /** The skill spread one player tolerates at time `now`. */
  function Tolerance(c: Setup, now: real, e: Entry): real {
    c.baseSpread + c.spreadPerSecond * (now - e.joinedAt)
  }

  ghost predicate IsMaxSpread(c: Setup, now: real, w: seq<Entry>, s: real) {
    && s >= 0.0
    && (forall i :: 0 <= i < |w| ==> Tolerance(c, now, w[i]) <= s)
    && (s == 0.0 || exists i :: 0 <= i < |w| && s == Tolerance(c, now, w[i]))
  }

  function MaxSpread(c: Setup, now: real, w: seq<Entry>): real {
    if w == [] then 0.0
    else
      var s, t := MaxSpread(c, now, w[..|w| - 1]), Tolerance(c, now, w[|w| - 1]);
      if t > s then t else s
  }

  lemma {:induction false} MaxSpreadIsMax(c: Setup, now: real, w: seq<Entry>)
    ensures IsMaxSpread(c, now, w, MaxSpread(c, now, w))
  {
    if w != [] {
      var front := w[..|w| - 1];
      MaxSpreadIsMax(c, now, front);
      assert forall i :: 0 <= i < |front| ==> front[i] == w[i];
    }
  }

  /** The accumulator loop over a window computes the greatest tolerance, or zero. */
  method FindMaxSpread(c: Setup, now: real, w: seq<Entry>) returns (s: real)
    ensures s == MaxSpread(c, now, w)
  {
    s := 0.0;
    for i := 0 to |w|
      invariant s == MaxSpread(c, now, w[..i])
    {
      assert w[..i + 1][..i] == w[..i];
      var spread := Tolerance(c, now, w[i]);
      if spread > s {
        s := spread;
      }
    }
    assert w[..|w|] == w;
  }

  /** The greatest tolerance is that of the longest wait when waiting widens the spread. */
  lemma {:induction false} LongestWaitDecides(c: Setup, now: real, w: seq<Entry>, first: Entry)
    requires c.spreadPerSecond >= 0.0 && first in w && forall e :: e in w ==> first.joinedAt <= e.joinedAt
    ensures MaxSpread(c, now, w) == if Tolerance(c, now, first) > 0.0 then Tolerance(c, now, first) else 0.0
  {
    var s, top := MaxSpread(c, now, w), Tolerance(c, now, first);
    MaxSpreadIsMax(c, now, w);
    var k :| 0 <= k < |w| && w[k] == first;
    if s != 0.0 {
      var i :| 0 <= i < |w| && s == Tolerance(c, now, w[i]);
      WaitWidens(c, now, w[i], first);
    }
  }

  lemma WaitWidens(c: Setup, now: real, late: Entry, early: Entry)
    requires c.spreadPerSecond >= 0.0 && early.joinedAt <= late.joinedAt
    ensures Tolerance(c, now, late) <= Tolerance(c, now, early)
  {
    var rate, a, b := c.spreadPerSecond, now - late.joinedAt, now - early.joinedAt;
    assert rate * (b - a) >= 0.0;
  }

  /** The lowest and the highest team average. */
  ghost predicate IsLow(teams: seq<seq<Entry>>, low: real) {
    (exists t :: 0 <= t < |teams| && Average(teams[t]) == low) && forall t :: 0 <= t < |teams| ==> low <= Average(teams[t])
  }

  ghost predicate IsHigh(teams: seq<seq<Entry>>, high: real) {
    (exists t :: 0 <= t < |teams| && Average(teams[t]) == high) && forall t :: 0 <= t < |teams| ==> Average(teams[t]) <= high
  }

  function Low(teams: seq<seq<Entry>>): real
    requires teams != []
  {
    var a := Average(teams[|teams| - 1]);
    if |teams| == 1 then a
    else
      var low := Low(teams[..|teams| - 1]);
      if a < low then a else low
  }

  function High(teams: seq<seq<Entry>>): real
    requires teams != []
  {
    var a := Average(teams[|teams| - 1]);
    if |teams| == 1 then a
    else
      var high := High(teams[..|teams| - 1]);
      if a > high then a else high
  }

  lemma {:induction false} LowIsLow(teams: seq<seq<Entry>>)
    requires teams != []
    ensures IsLow(teams, Low(teams))
  {
    if |teams| > 1 {
      var front := teams[..|teams| - 1];
      LowIsLow(front);
      assert forall t :: 0 <= t < |front| ==> front[t] == teams[t];
    }
  }

  lemma {:induction false} HighIsHigh(teams: seq<seq<Entry>>)
    requires teams != []
    ensures IsHigh(teams, High(teams))
  {
    if |teams| > 1 {
      var front := teams[..|teams| - 1];
      HighIsHigh(front);
      assert forall t :: 0 <= t < |front| ==> front[t] == teams[t];
    }
  }

  function Clamp(q: real): (r: real)
    ensures 0.0 <= r <= 1.0
  {
    if q < 0.0 then 0.0 else if q > 1.0 then 1.0 else q
  }

  function Quality(teams: seq<seq<Entry>>, spread: real): (q: real)
    requires teams != []
    ensures 0.0 <= q <= 1.0
  {
    if spread <= 0.0 then 0.0 else Clamp(1.0 - (High(teams) - Low(teams)) / spread)
  }

  /** `matchQuality`: one pass keeps the lowest and the highest average. */
  method MatchQuality(teams: seq<seq<Entry>>, spread: real) returns (q: real)
    requires teams != []
    ensures q == Quality(teams, spread)
  {
    if spread <= 0.0 {
      return 0.0;
    }
    var low := AvgMMR(teams[0]);
    var high := low;
    for t := 1 to |teams|
      invariant low == Low(teams[..t]) && high == High(teams[..t])
    {
      assert teams[..t + 1][..t] == teams[..t];
      var mmr := AvgMMR(teams[t]);
      if mmr < low {
        low := mmr;
      }
      if mmr > high {
        high := mmr;
      }
    }
    assert teams[..|teams|] == teams;
    q := 1.0 - (high - low) / spread;
    if q < 0.0 {
      return 0.0;
    }
    if q > 1.0 {
      return 1.0;
    }
  }

  // ---------------------------------------------------------------------------
  // The scan
  // ---------------------------------------------------------------------------

  /** The match that window `w` would make. */
  function Proposal(c: Setup, now: real, w: seq<Entry>): (m: Match)
    ensures 0.0 <= m.quality <= 1.0
  {
    var teams := Draft(w, c.teamsPerMatch);
    Match(teams, Quality(teams, MaxSpread(c, now, w)))
  }

  function WindowAt(c: Setup, q: seq<Entry>, s: nat): (w: seq<Entry>)
    requires s + Span(c) <= |q|
  {
    q[s..s + Span(c)]
  }

  /** The window at `s` exists and makes a match of sufficient quality. */
  predicate Good(c: Setup, now: real, q: seq<Entry>, s: nat) {
    s + Span(c) <= |q| && Proposal(c, now, WindowAt(c, q, s)).quality >= c.minQuality
  }

  /** Which windows of `q` are good. */
  function Verdicts(c: Setup, now: real, q: seq<Entry>): (good: seq<bool>)
    ensures |good| == |q| && forall s :: 0 <= s < |q| ==> good[s] == Good(c, now, q, s)
  {
    seq(|q|, s requires 0 <= s < |q| => Good(c, now, q, s))
  }

  /** The match of the window at `s`; a start without room for a window yields no teams. */
  function MatchAt(c: Setup, now: real, q: seq<Entry>, s: nat): Match {
    if s + Span(c) <= |q| then Proposal(c, now, WindowAt(c, q, s)) else Match([], 0.0)
  }

  function MatchesAt(c: Setup, now: real, q: seq<Entry>, starts: seq<nat>): (ms: seq<Match>)
    ensures |ms| == |starts|
    ensures forall i :: 0 <= i < |starts| ==> ms[i] == MatchAt(c, now, q, starts[i])
  {
    seq(|starts|, i requires 0 <= i < |starts| => MatchAt(c, now, q, starts[i]))
  }

  /** The windows the scan of `q` takes, the matches it emits and who stays. */
  function Taken(c: Setup, now: real, q: seq<Entry>): seq<nat> {
    Starts(Verdicts(c, now, q), Span(c), 0)
  }

  function Matches(c: Setup, now: real, q: seq<Entry>): seq<Match> {
    MatchesAt(c, now, q, Taken(c, now, q))
  }

  function Used(c: Setup, now: real, q: seq<Entry>): (used: seq<bool>)
    ensures |used| == |q|
  {
    Marks(Verdicts(c, now, q), Span(c), 0)
  }

  function Leftover(c: Setup, now: real, q: seq<Entry>): seq<Entry> {
    Unused(q, Used(c, now, q))
  }
}
