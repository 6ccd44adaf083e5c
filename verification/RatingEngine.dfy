/** The multi-team Elo engine: pairwise deltas between teams, a dynamic K per player, and the
    update of the players in place. Reals stand for the floating-point numbers. */
module RatingEngine {

  /** `id` is the key under which a player is kept. */
  datatype Player = Player(mmr: real, display: real, games: nat, wins: nat, losses: nat)

  type Book = map<nat, Player>

  const NEW_PLAYER: Player := Player(1500.0, 1500.0, 0, 0, 0)

  datatype Config = Config(kMax: real, kMin: real, kDefault: real, calibrationGames: nat, veteranGames: nat,
                           streakThreshold: nat, streakMax: real, convergence: real)

  const DEFAULT: Config := Config(48.0, 10.0, 24.0, 30, 200, 3, 1.5, 0.15)

  /** A veteran has played more games than calibration takes. */
  type Tuning = c: Config | c.calibrationGames < c.veteranGames witness Config(48.0, 10.0, 24.0, 30, 200, 3, 1.5, 0.15)

  /** A finished team: the ids of its players and its place, lower is better. */
  datatype Placement = Placement(team: seq<nat>, rank: int)

  /** What the pairwise comparison sees of a team. */
  datatype Side = Side(mmr: real, rank: int)

  /** The expected score as a function of the rating difference: a logistic curve. */
  ghost predicate IsCurve(f: real -> real) {
    && (forall d :: 0.0 < f(d) < 1.0)
    && (forall d :: f(d) + f(-d) == 1.0)
    && (forall d, e :: d < e ==> f(d) < f(e))
  }

  // ---------------------------------------------------------------------------
  // Team deltas
  // ---------------------------------------------------------------------------

  function ActualScore(rankA: int, rankB: int): real {
    if rankA < rankB then 1.0 else if rankA == rankB then 0.5 else 0.0
  }

  function PairDelta(f: real -> real, a: Side, b: Side): real {
    ActualScore(a.rank, b.rank) - f(a.mmr - b.mmr)
  }

  /** Team `i` against the first `m` teams, itself left out. */
  function Row(f: real -> real, s: seq<Side>, i: nat, m: nat): real
    requires i < |s| && m <= |s|
  {
    if m == 0 then 0.0
    else Row(f, s, i, m - 1) + if i == m - 1 then 0.0 else PairDelta(f, s[i], s[m - 1])
  }

  function TeamDelta(f: real -> real, s: seq<Side>, i: nat): real
    requires i < |s| && 2 <= |s|
  {
    Row(f, s, i, |s|) / (|s| - 1) as real
  }

  function Deltas(f: real -> real, s: seq<Side>): (ds: seq<real>)
    requires 2 <= |s|
    ensures |ds| == |s| && forall i :: 0 <= i < |s| ==> ds[i] == TeamDelta(f, s, i)
  {
    seq(|s|, i requires 0 <= i < |s| => TeamDelta(f, s, i))
  }

  /** The nested loops over ordered pairs fill in every team's delta. */
  method TeamDeltas(f: real -> real, s: seq<Side>) returns (ds: seq<real>)
    requires 2 <= |s|
    ensures ds == Deltas(f, s)
  {
    ds := [];
    for i := 0 to |s|
      invariant |ds| == i && forall k :: 0 <= k < i ==> ds[k] == TeamDelta(f, s, k)
    {
      var sum := 0.0;
      for j := 0 to |s|
        invariant sum == Row(f, s, i, j)
      {
        if i != j {
          var expected := f(s[i].mmr - s[j].mmr);
          var actual := ActualScore(s[i].rank, s[j].rank);
          sum := sum + (actual - expected);
        }
      }
      ds := ds + [sum / (|s| - 1) as real];
    }
  }

  // ---------------------------------------------------------------------------
  // Dynamic K
  // ---------------------------------------------------------------------------

  function Clamp(v: real, lo: real, hi: real): real {
    if v < lo then lo else if v > hi then hi else v
  }

  function BaseK(c: Tuning, games: nat): real {
    if games <= c.calibrationGames then c.kMax
    else
      var t := (games - c.calibrationGames) as real / (c.veteranGames - c.calibrationGames) as real;
      c.kMin + (c.kDefault - c.kMin) * (1.0 - Clamp(t, 0.0, 1.0))
  }

  function StreakFactor(c: Tuning, p: Player): real {
    var streak := if p.losses > p.wins then p.losses else p.wins;
    if streak < c.streakThreshold then 1.0
    else
      var grown := 1.0 + 0.1 * (streak - c.streakThreshold) as real;
      if grown < c.streakMax then grown else c.streakMax
  }

  function Upset(surprise: real): real {
    Clamp(1.0 + surprise, 1.0, 2.0)
  }

  /** The part of K that does not depend on the match. */
  function Weight(c: Tuning, p: Player): real {
    BaseK(c, p.games) * StreakFactor(c, p)
  }

  function DynamicK(c: Tuning, p: Player, surprise: real): real {
    Weight(c, p) * Upset(surprise)
  }

  function Abs(x: real): real {
    if x < 0.0 then -x else x
  }

  // ---------------------------------------------------------------------------
  // Applying the deltas
  // ---------------------------------------------------------------------------

  function Change(c: Tuning, p: Player, delta: real): real {
    DynamicK(c, p, Abs(delta)) * delta
  }

  /** The display rating chases the hidden one. */
  function Converge(c: Tuning, display: real, mmr: real): real {
    display + c.convergence * (mmr - display)
  }

  function Updated(c: Tuning, p: Player, delta: real): Player {
    var mmr := p.mmr + Change(c, p, delta);
    Player(mmr,
           Converge(c, p.display, mmr),
           p.games + 1,
           if delta > 0.0 then p.wins + 1 else if delta < 0.0 then 0 else p.wins,
           if delta > 0.0 then 0 else if delta < 0.0 then p.losses + 1 else p.losses)
  }

  predicate Known(book: Book, team: seq<nat>) {
    forall i :: 0 <= i < |team| ==> team[i] in book
  }

  predicate AllKnown(book: Book, ps: seq<Placement>) {
    forall i :: 0 <= i < |ps| ==> Known(book, ps[i].team)
  }

  /** `Validate`. */
  predicate ValidResult(ps: seq<Placement>) {
    2 <= |ps| && forall i :: 0 <= i < |ps| ==> ps[i].rank >= 1 && ps[i].team != []
  }

  function TotalMMR(book: Book, team: seq<nat>): real
    requires Known(book, team)
  {
    if team == [] then 0.0 else TotalMMR(book, team[..|team| - 1]) + book[team[|team| - 1]].mmr
  }

  function EffectiveMMR(book: Book, team: seq<nat>): real
    requires Known(book, team)
  {
    if team == [] then 0.0 else TotalMMR(book, team) / |team| as real
  }

  function Sides(book: Book, ps: seq<Placement>): (s: seq<Side>)
    requires AllKnown(book, ps)
    ensures |s| == |ps| && forall i :: 0 <= i < |ps| ==> s[i] == Side(EffectiveMMR(book, ps[i].team), ps[i].rank)
  {
    seq(|ps|, i requires 0 <= i < |ps| => Side(EffectiveMMR(book, ps[i].team), ps[i].rank))
  }

  /** One update: a player and the delta of the player's team. */
  datatype Update = Update(id: nat, delta: real)

  function TeamUpdates(team: seq<nat>, delta: real): seq<Update> {
    if team == [] then [] else TeamUpdates(team[..|team| - 1], delta) + [Update(team[|team| - 1], delta)]
  }

  /** The updates of the first `n` teams, in the order in which they are applied. */
  function Updates(ps: seq<Placement>, ds: seq<real>, n: nat): seq<Update>
    requires n <= |ps| == |ds|
  {
    if n == 0 then [] else Updates(ps, ds, n - 1) + TeamUpdates(ps[n - 1].team, ds[n - 1])
  }

  /** The players after the updates and the last change of each updated player. */
  datatype Effect = Effect(book: Book, changes: map<nat, real>)

  function ApplyOne(c: Tuning, e: Effect, u: Update): Effect {
    if u.id !in e.book then e
    else
      var p := e.book[u.id];
      Effect(e.book[u.id := Updated(c, p, u.delta)], e.changes[u.id := Change(c, p, u.delta)])
  }

  function ApplyAll(c: Tuning, e: Effect, us: seq<Update>): Effect {
    if us == [] then e else ApplyOne(c, ApplyAll(c, e, us[..|us| - 1]), us[|us| - 1])
  }

  datatype Result = Rejected | Processed(effect: Effect)

  /** `ProcessMatch` as a whole. */
  function Process(c: Tuning, f: real -> real, book: Book, ps: seq<Placement>): Result
    requires AllKnown(book, ps)
  {
    if !ValidResult(ps) then Rejected
    else Processed(ApplyAll(c, Effect(book, map[]), Updates(ps, Deltas(f, Sides(book, ps)), |ps|)))
  }
}
