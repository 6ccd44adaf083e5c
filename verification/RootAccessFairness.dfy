/** Turn order, protection and progress in legal games of Root Access. */
module RootAccessFairness {
  import opened RootAccessCards
  import opened RootAccessEngine
  import opened RootAccessInvariant
  import opened RootAccessRounds
  import opened RootAccessEffects
  import opened RootAccessStep
  import opened RootAccessRuns

  // ---------------------------------------------------------------------------
  // One step inside a round
  // ---------------------------------------------------------------------------

  /** Who is out stays out until the next deal. */
  lemma EliminateOut(s: State, p: PlayerId)
    ensures s.eliminated <= Eliminate(s, p).eliminated
  {
    EliminateFrame(s, p, Eliminate(s, p));
  }

  lemma RebootOut(s: State, p: PlayerId)
    ensures s.eliminated <= ApplyReboot(s, p).eliminated
  {
    if Hand(s, p) != [] { EliminateOut(Dumped(s, p), p); }
  }

  lemma CardEffectOut(s: State, m: Move, c: Card, t: State)
    requires c != Debugger && t == CardEffect(s, m, c)
    ensures s.eliminated <= t.eliminated
  {
    EliminateOut(s, m.player);
    if m.target.Some? { EliminateOut(s, m.target.value); }
    RebootOut(s, m.target.GetOr(m.player));
  }

  lemma BeforeAdvanceOut(s: State, m: Move)
    requires Accepted(s, m) && !PlaysDebugger(s, m)
    ensures s.eliminated <= BeforeAdvance(s, m).eliminated
  {
    if m.card != PenaltyLose && s.phase != DebuggerPending {
      CardEffectOut(PlayCard(s, m.player, m.card.card), m, m.card.card, BeforeAdvance(s, m));
    }
  }

  /** The round goes on through this step. */
  predicate SameRound(s: State, t: State) { t.phase != GameOver && t.round == s.round }

  lemma AdvanceSameRound(b: State, deal: seq<Card>, t: State)
    requires Settled(b) && |deal| == DECK_SIZE && t == AdvanceTurn(b, deal) && SameRound(b, t)
    ensures RoundContinues(b)
    ensures t == DrawCard(PassTurn(b, NextActive(b, b.current)), NextActive(b, b.current))
  {
    AdvanceCases(b, deal);
    if |Active(b)| <= 1 {
      ResolveFrame(b, deal, t);
    } else if b.deck == [] {
      ResolveFrame(PassTurn(b, NextActive(b, b.current)), deal, t);
    }
  }

  lemma OutsidePenaltyEndsRound(s: State, p: PlayerId, deal: seq<Card>, t: State)
    requires OnTurn(s) && s.phase == Playing && p != s.current
    requires s.deck == [] || |Without(s.players, OutWith(s, p))| <= 1
    requires |deal| == DECK_SIZE && t == AdvanceTurn(Eliminate(s, p), deal)
    ensures !SameRound(s, t)
  {
    var e := Eliminate(s, p);
    OutsidePenaltyCases(s, p, e, deal);
    if |Active(e)| <= 1 {
      ResolveFrame(e, deal, t);
    } else {
      ResolveFrame(PassTurn(e, NextActive(e, e.current)), deal, t);
    }
  }

  /** What a step inside a round does to the turn. */
  lemma SameRoundStep(s: State, turn: Turn, t: State)
    requires Inv(s) && LegalStep(s, turn, t) && SameRound(s, t)
    ensures t.players == s.players && s.eliminated <= t.eliminated
    ensures PlaysDebugger(s, turn.move) ==> t.current == s.current
    ensures !PlaysDebugger(s, turn.move) ==> t.current == NextActive(t, s.current) && 2 <= |Active(t)|
  {
    var m := turn.move;
    if !PlaysDebugger(s, m) {
      if m.card == PenaltyLose && m.player != s.current {
        OutsidePenaltyEndsRound(s, m.player, turn.deal, t);
      } else {
        var b := BeforeAdvance(s, m);
        BeforeAdvanceSettles(s, m, b);
        BeforeAdvanceOut(s, m);
        AdvanceSameRound(b, turn.deal, t);
      }
    }
  }

  // ---------------------------------------------------------------------------
  // Distances around the table
  // ---------------------------------------------------------------------------

  lemma OffsetAdd(players: seq<PlayerId>, p: PlayerId, c: PlayerId, x: PlayerId)
    requires Distinct(players) && p in players && c in players && x in players
    ensures var d := Offset(players, p, c) + Offset(players, c, x);
            Offset(players, p, x) == if d < |players| then d else d - |players|
  {
    var n, a, b, e := |players|, FirstSeat(players, p), FirstSeat(players, c), FirstSeat(players, x);
    Wrap(b + n - a, n);
    Wrap(e + n - b, n);
    Wrap(e + n - a, n);
  }

  /** Moving from `c` to the nearest active player never jumps over an active `p`. */
  lemma NoJump(players: seq<PlayerId>, gone: seq<PlayerId>, p: PlayerId, c: PlayerId, next: PlayerId, q: PlayerId)
    requires Distinct(players) && 2 <= |Without(players, gone)| && c in players && next == NextSeat(players, gone, c)
    requires p in players && p !in gone && q in players && q !in gone && q != p
    ensures next in players
    ensures next != p ==> Offset(players, p, next) > Offset(players, p, c)
    ensures next != p && q != next ==>
              (Offset(players, p, q) <= Offset(players, p, next) <==> Offset(players, p, q) <= Offset(players, p, c))
    ensures next == p ==> Offset(players, p, q) <= Offset(players, p, c)
  {
    NextIsNearestSeat(players, gone, c, next);
    OffsetAdd(players, p, c, next);
    OffsetAdd(players, p, c, q);
    OffsetAdd(players, p, c, p);
    OffsetReaches(players, p, c);
    OffsetReaches(players, p, p);
    OffsetReaches(players, p, q);
    OffsetReaches(players, p, next);
    OffsetReaches(players, c, next);
    OffsetReaches(players, c, q);
    OffsetReaches(players, c, p);
  }

  // ---------------------------------------------------------------------------
  // Laps
  // ---------------------------------------------------------------------------

  /** What turn order depends on: who is on turn, who is out, and whether the turn has just
      begun. */
  datatype View = View(current: PlayerId, out: seq<PlayerId>, began: bool)

  ghost predicate Passes(players: seq<PlayerId>, v: View, w: View) {
    && v.current in players && w.current in players
    && v.out <= w.out
    && if w.began then 2 <= |Without(players, w.out)| && w.current == NextSeat(players, w.out, v.current)
       else w.current == v.current
  }

  ghost predicate OneRound(players: seq<PlayerId>, trace: seq<View>) {
    && Distinct(players) && 0 < |trace| && trace[0].current in players
    && forall i :: 1 <= i < |trace| ==> Passes(players, trace[i - 1], trace[i])
  }

  /** How many turns `q` began after the first view of the trace. */
  function TurnsBegun(trace: seq<View>, q: PlayerId): nat {
    if |trace| <= 1 then 0
    else
      var last := trace[|trace| - 1];
      TurnsBegun(trace[..|trace| - 1], q) + if last.began && last.current == q then 1 else 0
  }

  /** Until the turn is back with `p`, exactly the active players up to the one on turn have
      had theirs. */
  lemma {:induction false} Lap(players: seq<PlayerId>, trace: seq<View>, p: PlayerId, q: PlayerId)
    requires OneRound(players, trace) && trace[0].current == p && TurnsBegun(trace, p) == 0
    requires p !in trace[|trace| - 1].out
    requires q != p && q in players && q !in trace[|trace| - 1].out
    ensures trace[|trace| - 1].current in players
    ensures TurnsBegun(trace, q)
            == if Offset(players, p, q) <= Offset(players, p, trace[|trace| - 1].current) then 1 else 0
    decreases |trace|
  {
    if |trace| == 1 {
      OffsetReaches(players, p, q);
      OffsetReaches(players, p, p);
    } else {
      var before, v, w := trace[..|trace| - 1], trace[|trace| - 2], trace[|trace| - 1];
      assert Passes(players, v, w);
      Lap(players, before, p, q);
      if w.began { NoJump(players, w.out, p, v.current, w.current, q); }
    }
  }

  /** Between two turns of `p` in one round, every player who is still in at the end has
      begun exactly one turn. */
  lemma FairLap(players: seq<PlayerId>, trace: seq<View>, p: PlayerId, q: PlayerId)
    requires OneRound(players, trace) && 2 <= |trace|
    requires trace[0].current == p && trace[|trace| - 1].current == p && trace[|trace| - 1].began
    requires TurnsBegun(trace, p) == 1
    requires p !in trace[|trace| - 1].out
    requires q != p && q in players && q !in trace[|trace| - 1].out
    ensures TurnsBegun(trace, q) == 1
  {
    var before, v, w := trace[..|trace| - 1], trace[|trace| - 2], trace[|trace| - 1];
    assert Passes(players, v, w);
    Lap(players, before, p, q);
    NoJump(players, w.out, p, v.current, p, q);
  }

  // ---------------------------------------------------------------------------
  // Turns in a game
  // ---------------------------------------------------------------------------

  /** Every move begins a new turn, except playing a Debugger. */
  ghost predicate BeganTurn(r: Run, i: nat)
    requires |r.ss| == |r.ts| + 1 && i < |r.ss|
  {
    0 < i && !PlaysDebugger(r.ss[i - 1], r.ts[i - 1].move)
  }

  ghost function ViewAt(r: Run, i: nat): View
    requires |r.ss| == |r.ts| + 1 && i < |r.ss|
  {
    View(r.ss[i].current, r.ss[i].eliminated, BeganTurn(r, i))
  }

  /** The views of the states `i` to `k`. */
  ghost function Trace(r: Run, i: nat, k: nat): (trace: seq<View>)
    requires |r.ss| == |r.ts| + 1 && i <= k < |r.ss|
    ensures |trace| == k - i + 1
    ensures forall j :: 0 <= j <= k - i ==> trace[j] == ViewAt(r, i + j)
  {
    seq(k - i + 1, j requires 0 <= j <= k - i => ViewAt(r, i + j))
  }

  lemma StepAtPasses(r: Game, i: nat)
    requires i < |r.ts| && SameRound(r.ss[i], r.ss[i + 1])
    ensures r.ss[i + 1].players == r.ss[i].players
    ensures Passes(r.ss[i].players, ViewAt(r, i), ViewAt(r, i + 1))
  {
    RunKeeps(r, i);
    RunKeeps(r, i + 1);
    assert LegalAt(r, i + 1);
    SameRoundStep(r.ss[i], r.ts[i], r.ss[i + 1]);
  }

  /** No move between the states `i` and `k` ends the round. */
  ghost predicate WithinRound(r: Run, i: nat, k: nat)
    requires i <= k < |r.ss|
  {
    forall j :: i <= j < k ==> SameRound(r.ss[j], r.ss[j + 1])
  }

  lemma {:induction false} SamePlayers(r: Game, i: nat, k: nat)
    requires i <= k < |r.ss| && WithinRound(r, i, k)
    ensures r.ss[k].players == r.ss[i].players
    decreases k - i
  {
    if i < k {
      SamePlayers(r, i, k - 1);
      assert SameRound(r.ss[k - 1], r.ss[k - 1 + 1]);
      StepAtPasses(r, k - 1);
    }
  }

  lemma TracePasses(r: Game, i: nat, k: nat, j: nat, v: View, w: View)
    requires i + j < k < |r.ss| && WithinRound(r, i, k)
    requires v == ViewAt(r, i + j) && w == ViewAt(r, i + j + 1)
    ensures Passes(r.ss[i].players, v, w)
  {
    assert SameRound(r.ss[i + j], r.ss[i + j + 1]);
    SamePlayers(r, i, i + j);
    StepAtPasses(r, i + j);
  }

  lemma TraceStarts(r: Game, i: nat, k: nat, trace: seq<View>)
    requires i <= k < |r.ss| && trace == Trace(r, i, k)
    ensures Distinct(r.ss[i].players) && 0 < |trace| && trace[0].current in r.ss[i].players
  {
    RunKeeps(r, i);
    assert trace[0] == ViewAt(r, i + 0);
  }

  lemma TraceIsOneRound(r: Game, i: nat, k: nat)
    requires i <= k < |r.ss| && WithinRound(r, i, k)
    ensures OneRound(r.ss[i].players, Trace(r, i, k))
  {
    var trace := Trace(r, i, k);
    TraceStarts(r, i, k, trace);
    forall j | 1 <= j < |trace| ensures Passes(r.ss[i].players, trace[j - 1], trace[j]) {
      TracePasses(r, i, k, j - 1, trace[j - 1], trace[j]);
    }
  }

  /** In every legal game: between two consecutive turns of a player in one round, every
      other player who is still in takes exactly one turn. */
  lemma TurnsAreFair(r: Game, i: nat, k: nat, q: PlayerId)
    requires i < k < |r.ss| && WithinRound(r, i, k)
    requires r.ss[k].current == r.ss[i].current && BeganTurn(r, k)
    requires TurnsBegun(Trace(r, i, k), r.ss[i].current) == 1
    requires q != r.ss[i].current && q in r.ss[k].players && q !in r.ss[k].eliminated
    ensures TurnsBegun(Trace(r, i, k), q) == 1
  {
    var trace := Trace(r, i, k);
    RunKeeps(r, k);
    SamePlayers(r, i, k);
    TraceIsOneRound(r, i, k);
    assert trace[0] == ViewAt(r, i + 0);
    assert trace[k - i] == ViewAt(r, i + (k - i));
    FairLap(r.ss[i].players, trace, r.ss[i].current, q);
  }
}
