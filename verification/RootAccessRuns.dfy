/** Whole games of Root Access: the invariant in every reachable state, a bound on the
    number of moves and rounds, and what can get stuck. */
module RootAccessRuns {
  import opened RootAccessCards
  import opened RootAccessEngine
  import opened RootAccessInvariant
  import opened RootAccessRounds
  import opened RootAccessEffects
  import opened RootAccessStep

  /** One step of a run: the move and the shuffle that is dealt should the round end. */
  datatype Turn = Turn(move: Move, deal: seq<Card>)

  ghost predicate LegalStep(s: State, turn: Turn, t: State) {
    && s.phase != GameOver
    && 0 < |s.players| <= 5
    && FullDeck(turn.deal)
    && Accepted(s, turn.move) && Benign(s, turn.move)
    && t == ApplyMove(s, turn.move, turn.deal)
  }

  /** The states and moves of a game from its first deal on. */
  datatype Run = Run(players: seq<PlayerId>, deal: seq<Card>, ss: seq<State>, ts: seq<Turn>)

  /** State `i` comes from the first deal or from a legal move in the state before. */
  ghost predicate LegalAt(r: Run, i: nat)
    requires |r.ss| == |r.ts| + 1 && i < |r.ss|
  {
    if i == 0 then
      Distinct(r.players) && FullDeck(r.deal) && Init(r.players, r.deal) == Some(r.ss[0])
    else LegalStep(r.ss[i - 1], r.ts[i - 1], r.ss[i])
  }

  /** The game starts with distinct players and a full deck, and every move is legal. */
  ghost predicate Legal(r: Run) {
    |r.ss| == |r.ts| + 1 && forall i: nat {:trigger LegalAt(r, i)} :: i < |r.ss| ==> LegalAt(r, i)
  }

  /** A legal game in progress, or finished. */
  type Game = r: Run | Legal(r) ghost witness BoxedGame()

  /** A game of which only the first deal is made. */
  ghost function FirstDeal(players: seq<PlayerId>, deal: seq<Card>): (r: Run)
    requires Distinct(players) && 2 <= |players| <= 5 && FullDeck(deal)
    ensures Legal(r)
  {
    Run(players, deal, [Init(players, deal).value], [])
  }

  /** Two players and the deck as it comes out of the box. */
  ghost function BoxedGame(): (r: Run)
    ensures Legal(r)
  {
    FullDeckIsComposition(Composition());
    FirstDeal([0, 1], Composition())
  }

  // ---------------------------------------------------------------------------
  // The invariant in every state
  // ---------------------------------------------------------------------------

  lemma {:induction false} ZeroSum(players: seq<PlayerId>, ps: seq<PlayerId>)
    requires forall p :: p in ps ==> p in players
    ensures Sum(ZeroTokens(players), ps) == 0
  {
    if ps != [] { ZeroSum(players, ps[1..]); }
  }

  lemma InitKeeps(players: seq<PlayerId>, deal: seq<Card>, t: State)
    requires Distinct(players) && FullDeck(deal) && 2 <= |players| <= 5
    requires t == DealRound(NewGame(players), players[0], deal)
    ensures Inv(t) && t.phase == Playing
    ensures t.players == players && t.tokens == ZeroTokens(players) && t.round == 1 && t.log == []
  {
    NewGameScore(players);
    DealKeeps(NewGame(players), players[0], deal, t);
    DealRoundFrame(NewGame(players), players[0], deal, t);
  }

  lemma NewGameScore(players: seq<PlayerId>)
    requires Distinct(players) && 2 <= |players| <= 5
    ensures Seats(NewGame(players)) && OpenScore(NewGame(players)) && NewGame(players).choices == []
  {
    ZeroSum(players, players);
  }

  lemma LegalStepKeeps(s: State, turn: Turn, t: State)
    requires Inv(s) && LegalStep(s, turn, t)
    ensures Inv(t)
  {
    StepKeeps(s, turn.move, turn.deal, t);
  }

  lemma FirstState(r: Game)
    ensures Inv(r.ss[0]) && r.ss[0].phase == Playing && r.ss[0].log == []
    ensures r.ss[0].players == r.players && r.ss[0].tokens == ZeroTokens(r.players)
  {
    assert LegalAt(r, 0);
    InitKeeps(r.players, r.deal, r.ss[0]);
  }

  lemma StepAtKeeps(r: Game, i: nat, t: State)
    requires i < |r.ts| && Inv(r.ss[i]) && t == r.ss[i + 1]
    ensures Inv(t)
  {
    assert LegalAt(r, i + 1);
    LegalStepKeeps(r.ss[i], r.ts[i], t);
  }

  /** Every state of every legal run is in good order. */
  lemma {:induction false} RunKeeps(r: Game, i: nat)
    requires i < |r.ss|
    ensures Inv(r.ss[i])
  {
    if i == 0 {
      FirstState(r);
    } else {
      RunKeeps(r, i - 1);
      StepAtKeeps(r, i - 1, r.ss[i]);
    }
  }

  /** In every state of every legal run the 21 cards are all there. */
  lemma RunConservesCards(r: Game, i: nat)
    requires i < |r.ss|
    ensures FullDeck(AllCards(r.ss[i]))
  {
    RunKeeps(r, i);
    CardsConserved(r.ss[i]);
  }

  // ---------------------------------------------------------------------------
  // Discards pile up
  // ---------------------------------------------------------------------------

  lemma RebootLog(s: State, p: PlayerId)
    ensures |ApplyReboot(s, p).log| >= |s.log|
  {
    if Hand(s, p) != [] { EliminateLog(Dumped(s, p), p); }
  }

  lemma CardEffectLog(s: State, m: Move, c: Card)
    requires c != Debugger
    ensures |CardEffect(s, m, c).log| >= |s.log|
  {
    EliminateLog(s, m.player);
    if m.target.Some? { EliminateLog(s, m.target.value); }
    RebootLog(s, m.target.GetOr(m.player));
  }

  /** Every move of the player on turn discards a card, except the resolve of a Debugger. */
  lemma BeforeAdvanceLog(s: State, m: Move)
    requires OnTurn(s) && Accepted(s, m) && !PlaysDebugger(s, m) && s.phase != GameOver
    requires m.card == PenaltyLose ==> s.phase == Playing && m.player == s.current
    ensures |BeforeAdvance(s, m).log| >= |s.log| + if s.phase == Playing then 1 else 0
  {
    if m.card == PenaltyLose {
      EliminateLog(s, s.current);
      assert |Hand(s, s.current)| == Due(s, s.current);
    } else if s.phase == Playing {
      CardEffectLog(PlayCard(s, m.player, m.card.card), m, m.card.card);
    }
  }

  // ---------------------------------------------------------------------------
  // Fuel
  // ---------------------------------------------------------------------------

  /** Tokens still to be paid before somebody must win. */
  ghost function Slack(s: State): int
    requires Seats(s)
  {
    Cap(|s.players|) - Sum(s.tokens, s.players)
  }

  /** Moves the current round can still take. */
  function RoundFuel(s: State): int {
    2 * (DECK_SIZE - |s.log|) + if s.phase == DebuggerPending then 1 else 0
  }

  /** An upper bound on the moves left in the game: 42 for each round that can still be
      played after this one, and the moves left in this one. */
  ghost function Fuel(s: State): int
    requires Seats(s)
  {
    if s.phase == GameOver then 0 else 42 * Slack(s) + RoundFuel(s)
  }

  lemma FuelPositive(s: State)
    requires OnTurn(s)
    ensures Slack(s) >= 0 && RoundFuel(s) >= 2
  {
    OpenSumCapped(s);
  }

  lemma DealRoundFrame(s: State, first: PlayerId, deal: seq<Card>, t: State)
    requires |deal| == DECK_SIZE && |s.players| <= 5 && t == DealRound(s, first, deal)
    ensures t.log == [] && t.phase == Playing && t.round == s.round
    ensures t.tokens == s.tokens && t.players == s.players && t.toWin == s.toWin
  {
  }

  /** The frame of `resolveRound`: scores are updated, and a new round starts or the game ends. */
  lemma ResolveFrame(s: State, deal: seq<Card>, t: State)
    requires 0 < |s.players| <= 5 && |deal| == DECK_SIZE && t == ResolveRound(s, deal)
    ensures t.tokens == RoundTokens(s) && t.players == s.players && t.toWin == s.toWin
    ensures t.phase == GameOver ==> t.round == s.round
    ensures t.phase != GameOver ==> t.phase == Playing && t.round == s.round + 1 && t.log == []
  {
    if FirstWith(s.players, RoundTokens(s), Target(s)).None? {
      DealRoundFrame(RoundScored(s), Starter(s), deal, t);
    }
  }

  /** A finished round costs at least one unit of slack. */
  lemma RoundEndFuel(b: State, deal: seq<Card>, t: State)
    requires Scorable(b) && |deal| == DECK_SIZE && t == ResolveRound(b, deal)
    ensures Seats(t) && (t.phase == GameOver || Fuel(t) <= 42 * Slack(b))
  {
    ResolveFrame(b, deal, t);
    RoundPays(b);
  }

  /** A round that goes on passes the turn and draws one card. */
  lemma AdvanceFuel(s: State, b: State, deal: seq<Card>, t: State)
    requires OnTurn(s) && Settled(b) && SameTable(s, b) && |deal| == DECK_SIZE && t == AdvanceTurn(b, deal)
    requires |b.log| >= |s.log| + if s.phase == Playing then 1 else 0
    requires s.phase != GameOver
    ensures Seats(t) && Fuel(t) < Fuel(s)
  {
    FuelPositive(s);
    AdvanceCases(b, deal);
    var next := NextActive(b, b.current);
    if |Active(b)| <= 1 {
      RoundEndFuel(b, deal, t);
    } else if b.deck == [] {
      PassScorable(b, next);
      RoundEndFuel(PassTurn(b, next), deal, t);
    }
  }

  lemma OutsidePenaltyFuel(s: State, p: PlayerId, deal: seq<Card>, t: State)
    requires OnTurn(s) && s.phase == Playing && p != s.current
    requires s.deck == [] || |Without(s.players, OutWith(s, p))| <= 1
    requires |deal| == DECK_SIZE && t == AdvanceTurn(Eliminate(s, p), deal)
    ensures Seats(t) && Fuel(t) < Fuel(s)
  {
    FuelPositive(s);
    var e := Eliminate(s, p);
    OutsidePenaltyCases(s, p, e, deal);
    EliminateAnyScorable(s, p, e);
    if |Active(e)| <= 1 {
      RoundEndFuel(e, deal, t);
    } else {
      PassScorable(e, NextActive(e, e.current));
      RoundEndFuel(PassTurn(e, NextActive(e, e.current)), deal, t);
    }
  }

  lemma DebuggerFuel(s: State, m: Move, t: State)
    requires OnTurn(s) && PlaysDebugger(s, m)
    requires t == ApplyDebugger(PlayCard(s, m.player, Debugger), m.player)
    ensures Seats(t) && Fuel(t) < Fuel(s)
  {
  }

  /** Every legal move burns fuel. */
  lemma StepBurnsFuel(s: State, turn: Turn, t: State)
    requires Inv(s) && LegalStep(s, turn, t)
    ensures Seats(t) && Fuel(t) < Fuel(s)
  {
    var m := turn.move;
    if PlaysDebugger(s, m) {
      DebuggerFuel(s, m, t);
    } else if m.card == PenaltyLose && m.player != s.current {
      OutsidePenaltyFuel(s, m.player, turn.deal, t);
    } else {
      var b := BeforeAdvance(s, m);
      BeforeAdvanceSettles(s, m, b);
      BeforeAdvanceLog(s, m);
      AdvanceFuel(s, b, turn.deal, t);
    }
  }

  lemma InvFuel(s: State)
    requires Inv(s)
    ensures Seats(s) && Fuel(s) >= 0 && s.round <= 13
  {
    if s.phase != GameOver {
      FuelPositive(s);
      OpenSumCapped(s);
    }
  }

  lemma FreshFuel(players: seq<PlayerId>, t: State)
    requires Inv(t) && t.phase == Playing && t.log == []
    requires t.players == players && t.tokens == ZeroTokens(players)
    ensures Fuel(t) <= 546
  {
    ZeroSum(players, players);
    OpenSumCapped(t);
  }

  lemma StepAtBurnsFuel(r: Game, i: nat, t: State)
    requires i < |r.ts| && Inv(r.ss[i]) && t == r.ss[i + 1]
    ensures Seats(r.ss[i]) && Seats(t) && Fuel(t) < Fuel(r.ss[i])
  {
    assert LegalAt(r, i + 1);
    StepBurnsFuel(r.ss[i], r.ts[i], t);
  }

  lemma {:induction false} RunBurnsFuel(r: Game, i: nat)
    requires i < |r.ss|
    ensures Seats(r.ss[i]) && i + Fuel(r.ss[i]) <= 546
  {
    if i == 0 {
      StartFuel(r);
    } else {
      RunBurnsFuel(r, i - 1);
      RunBurnsAt(r, i - 1, r.ss[i - 1], r.ss[i]);
    }
  }

  lemma RunBurnsAt(r: Game, i: nat, s: State, t: State)
    requires i < |r.ts| && s == r.ss[i] && t == r.ss[i + 1]
    ensures Seats(s) && Seats(t) && Fuel(t) < Fuel(s)
  {
    RunKeeps(r, i);
    StepAtBurnsFuel(r, i, t);
  }

  lemma StartFuel(r: Game)
    ensures Seats(r.ss[0]) && Fuel(r.ss[0]) <= 546
  {
    FirstState(r);
    FreshFuel(r.players, r.ss[0]);
  }

  /** No legal game takes more than 546 moves or reaches a fourteenth round. */
  lemma RunIsBounded(r: Game)
    ensures |r.ts| <= 546
    ensures forall i :: 0 <= i < |r.ss| ==> r.ss[i].round <= 13
  {
    RunBurnsFuel(r, |r.ts|);
    RunKeeps(r, |r.ts|);
    InvFuel(r.ss[|r.ts|]);
    forall i | 0 <= i < |r.ss| ensures r.ss[i].round <= 13 {
      RunKeeps(r, i);
      InvFuel(r.ss[i]);
    }
  }
}
