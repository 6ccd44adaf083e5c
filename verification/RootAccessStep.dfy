/** One move of Root Access: an accepted move keeps the invariant if and only if it is
    benign. */
module RootAccessStep {
  import opened RootAccessCards
  import opened RootAccessEngine
  import opened RootAccessInvariant
  import opened RootAccessRounds
  import opened RootAccessEffects

  /** The three cards a resolve move names. */
  function NamedCards(m: Move): seq<Card>
    requires m.keep.Known? && |m.ret| == 2 && m.ret[0].Known? && m.ret[1].Known?
  {
    [m.keep.card] + [m.ret[0].card, m.ret[1].card]
  }

  /** The elimination list once `p` is on it. */
  function OutWith(s: State, p: PlayerId): seq<PlayerId> { AppendUnique(s.eliminated, p) }

  /** A timeout penalty must hit the player on turn, outside a pending Debugger, or end the
      round on the spot; a resolve must give back exactly the three cards that were shown. */
  ghost predicate Benign(s: State, m: Move)
    requires Accepted(s, m)
  {
    if m.card == PenaltyLose then
      s.phase == Playing
      && (m.player == s.current || s.deck == [] || |Without(s.players, OutWith(s, m.player))| <= 1)
    else
      s.phase == DebuggerPending ==> multiset(NamedCards(m)) == multiset(s.choices)
  }

  // ---------------------------------------------------------------------------
  // Benign moves keep the invariant
  // ---------------------------------------------------------------------------

  /** What `ValidateMove` guarantees about a card play. */
  lemma AcceptedPlay(s: State, m: Move)
    requires s.phase == Playing && Accepted(s, m) && m.card != PenaltyLose
    requires forall p :: p in s.protected ==> p in s.players
    requires s.current in s.players && s.current !in s.eliminated && s.current !in s.protected
    ensures m.player == s.current && m.card.Known? && m.card.card in Hand(s, s.current)
    ensures TargetOk(s, m, m.card.card)
  {
  }

  lemma StandardSettles(s: State, m: Move, c: Card, t: State)
    requires OnTurn(s) && s.phase == Playing && m.player == s.current && c in Hand(s, s.current) && c != Debugger
    requires TargetOk(s, m, c)
    requires t == CardEffect(PlayCard(s, s.current, c), m, c)
    ensures Settled(t)
  {
    var mid := PlayCard(s, s.current, c);
    PlayCardMid(s, c, mid);
    CardEffectSettles(mid, m, c, t);
  }

  lemma PenaltySettles(s: State, m: Move, t: State)
    requires OnTurn(s) && s.phase == Playing && m.card == PenaltyLose && m.player == s.current
    requires t == Eliminate(s, m.player)
    ensures Settled(t)
  {
    forall q | q in s.players && q != s.current ensures |Hand(s, q)| == if q in s.eliminated then 0 else 1 {
      assert |Hand(s, q)| == Due(s, q);
    }
    EliminateSettles(s, s.current, t);
  }

  lemma EliminateAnyLedger(s: State, p: PlayerId)
    requires OnTurn(s)
    ensures Ledger(Eliminate(s, p))
  {
    if p in s.players {
      EliminateLedger(s, p);
    } else {
      EliminateStranger(s, p);
      var t := Eliminate(s, p);
      BooksAgree(s, t);
      forall c ensures CountOf(t, c) == DeckCount(c) { TallyUpdate(s.hands, s.players, p, [], c); }
      VolumeUpdate(s.hands, s.players, p, []);
    }
  }

  lemma EliminateAnyScorable(s: State, p: PlayerId, e: State)
    requires OnTurn(s) && s.phase == Playing && e == Eliminate(s, p)
    ensures Scorable(e)
  {
    EliminateAnyLedger(s, p);
    EliminateFrame(s, p, e);
    EliminateActive(s, p);
  }

  /** Where `advanceTurn` goes after a penalty against somebody who is not on turn. */
  lemma OutsidePenaltyCases(s: State, p: PlayerId, e: State, deal: seq<Card>)
    requires OnTurn(s) && p != s.current && e == Eliminate(s, p) && |deal| == DECK_SIZE
    ensures e.players == s.players && e.current == s.current && e.deck == s.deck && 2 <= |s.players| <= 5
    ensures Active(e) == Without(s.players, OutWith(s, p))
    ensures 2 <= |Active(e)| ==>
              && NextActive(e, e.current) != s.current
              && |Hand(PassTurn(e, NextActive(e, e.current)), NextActive(e, e.current))| == 1
  {
    EliminateFrame(s, p, e);
    EliminateActive(s, p);
    if 2 <= |Active(e)| {
      NextIsNearest(e, e.current);
      var next := NextActive(e, e.current);
      assert |Hand(s, next)| == Due(s, next);
      assert next != p;
    }
  }

  lemma OutsidePenaltyKeeps(s: State, p: PlayerId, deal: seq<Card>, t: State)
    requires OnTurn(s) && s.phase == Playing && p != s.current
    requires s.deck == [] || |Without(s.players, OutWith(s, p))| <= 1
    requires FullDeck(deal)
    requires t == AdvanceTurn(Eliminate(s, p), deal)
    ensures Inv(t)
  {
    var e := Eliminate(s, p);
    OutsidePenaltyCases(s, p, e, deal);
    EliminateAnyScorable(s, p, e);
    if |Active(e)| <= 1 {
      ResolveKeeps(e, deal, t);
    } else {
      PassScorable(e, NextActive(e, e.current));
      ResolveKeeps(PassTurn(e, NextActive(e, e.current)), deal, t);
    }
  }

  lemma DebuggerMoveKeeps(s: State, m: Move, t: State)
    requires OnTurn(s) && PlaysDebugger(s, m) && Accepted(s, m)
    requires t == ApplyDebugger(PlayCard(s, m.player, Debugger), m.player)
    ensures Inv(t) && t.phase == DebuggerPending
    ensures |t.choices| == 3 <==> 2 <= |s.deck|
  {
    var mid := PlayCard(s, s.current, Debugger);
    PlayCardMid(s, Debugger, mid);
    DebuggerKeeps(mid, t);
  }

  lemma PlaySettles(s: State, m: Move, b: State)
    requires OnTurn(s) && s.phase == Playing && Accepted(s, m) && m.card != PenaltyLose && !PlaysDebugger(s, m)
    requires b == BeforeAdvance(s, m)
    ensures Settled(b)
  {
    AcceptedPlay(s, m);
    StandardSettles(s, m, m.card.card, b);
  }

  lemma ResolveSettles(s: State, m: Move, b: State)
    requires OnTurn(s) && s.phase == DebuggerPending && Accepted(s, m) && m.card != PenaltyLose && Benign(s, m)
    requires b == BeforeAdvance(s, m)
    ensures Settled(b)
  {
    ChoiceSettles(s, m.keep.card, [m.ret[0].card, m.ret[1].card], b);
  }

  lemma BeforeAdvanceSettles(s: State, m: Move, b: State)
    requires OnTurn(s) && Accepted(s, m) && Benign(s, m) && !PlaysDebugger(s, m)
    requires m.card == PenaltyLose ==> m.player == s.current
    requires s.phase != GameOver && b == BeforeAdvance(s, m)
    ensures Settled(b)
  {
    if m.card == PenaltyLose {
      PenaltySettles(s, m, b);
    } else if s.phase == DebuggerPending {
      ResolveSettles(s, m, b);
    } else {
      PlaySettles(s, m, b);
    }
  }

  /** A benign move leads from good order to good order. */
  lemma StepKeeps(s: State, m: Move, deal: seq<Card>, t: State)
    requires Inv(s) && s.phase != GameOver && Accepted(s, m) && Benign(s, m)
    requires FullDeck(deal)
    requires t == ApplyMove(s, m, deal)
    ensures Inv(t)
  {
    if PlaysDebugger(s, m) {
      DebuggerMoveKeeps(s, m, t);
    } else if m.card == PenaltyLose && m.player != s.current {
      OutsidePenaltyKeeps(s, m.player, deal, t);
    } else {
      var b := BeforeAdvance(s, m);
      BeforeAdvanceSettles(s, m, b);
      AdvanceKeeps(b, deal, t);
    }
  }

  // ---------------------------------------------------------------------------
  // Any other accepted move breaks it
  // ---------------------------------------------------------------------------

  /** Nothing in `resolveRound` or `dealRound` clears the shown cards. */
  lemma ResolveLeavesChoices(s: State, deal: seq<Card>, t: State)
    requires 0 < |s.players| <= 5 && |deal| == DECK_SIZE && t == ResolveRound(s, deal)
    ensures t.choices == s.choices && t.phase != DebuggerPending
  {
  }

  /** A state off a pending Debugger with shown cards left, or a pending one whose player on turn
      holds cards, is not in good order. */
  lemma LeftoversBreak(t: State)
    requires t.choices != [] && (t.phase != DebuggerPending || Hand(t, t.current) != [])
    ensures !Inv(t)
  {
  }

  /** A penalty while a Debugger is pending leaves the shown cards behind. */
  lemma PendingPenaltyBreaks(s: State, p: PlayerId, deal: seq<Card>, t: State)
    requires OnTurn(s) && s.phase == DebuggerPending && |deal| == DECK_SIZE
    requires t == AdvanceTurn(Eliminate(s, p), deal)
    ensures !Inv(t)
  {
    PenaltyLeavesChoices(s, p, deal, t);
    LeftoversBreak(t);
  }

  lemma PenaltyLeavesChoices(s: State, p: PlayerId, deal: seq<Card>, t: State)
    requires 0 < |s.players| <= 5 && s.phase == DebuggerPending && |deal| == DECK_SIZE
    requires t == AdvanceTurn(Eliminate(s, p), deal)
    ensures t.choices == s.choices && (t.phase != DebuggerPending || Hand(t, t.current) != [])
  {
    var e := Eliminate(s, p);
    EliminateFrame(s, p, e);
    var next := NextActive(e, e.current);
    if |Active(e)| <= 1 {
      ResolveLeavesChoices(e, deal, t);
    } else if |Hand(PassTurn(e, next), next)| < 2 && e.deck == [] {
      ResolveLeavesChoices(PassTurn(e, next), deal, t);
    }
  }

  /** A penalty against a bystander that does not end the round leaves the player on turn
      with two cards when the turn has passed. */
  lemma BystanderPenaltyBreaks(s: State, p: PlayerId, deal: seq<Card>, t: State)
    requires OnTurn(s) && s.phase == Playing && p != s.current
    requires s.deck != [] && 2 <= |Without(s.players, OutWith(s, p))| && |deal| == DECK_SIZE
    requires t == AdvanceTurn(Eliminate(s, p), deal)
    ensures !Inv(t)
  {
    var e := Eliminate(s, p);
    EliminateFrame(s, p, e);
    OutsidePenaltyCases(s, p, e, deal);
    var next := NextActive(e, e.current);
    assert t == DrawCard(PassTurn(e, next), next);
    assert Hand(t, s.current) == Hand(s, s.current);
    assert |Hand(t, s.current)| == 2 && Due(t, s.current) == 1;
  }

  lemma ForgedChoicePasses(s: State, m: Move, deal: seq<Card>, b: State, t: State)
    requires OnTurn(s) && s.phase == DebuggerPending && Accepted(s, m) && m.card != PenaltyLose && |deal| == DECK_SIZE
    requires b == TakeChoice(s, s.current, m.keep.card, [m.ret[0].card, m.ret[1].card])
    requires t == AdvanceTurn(b, deal)
    ensures NextActive(b, b.current) in b.players && b.deck != [] && Distinct(b.players)
    ensures t == DrawCard(PassTurn(b, NextActive(b, b.current)), NextActive(b, b.current))
  {
    assert Active(b) == Active(s);
    NextIsNearest(b, b.current);
    var next := NextActive(b, b.current);
    assert |Hand(s, next)| == Due(s, next);
    assert Hand(PassTurn(b, next), next) == Hand(s, next);
  }

  lemma ForgedChoiceCounts(s: State, keep: Card, ret: seq<Card>, b: State) returns (c: Card)
    requires Distinct(s.players) && s.current in s.players && Hand(s, s.current) == [] && Ledger(s)
    requires multiset([keep] + ret) != multiset(s.choices)
    requires b == TakeChoice(s, s.current, keep, ret)
    ensures CountOf(b, c) != DeckCount(c)
  {
    c :| multiset([keep] + ret)[c] != multiset(s.choices)[c];
    ChoiceCards(s, keep, ret, c);
    CopiesIsMultiplicity([keep] + ret, c);
    CopiesIsMultiplicity(s.choices, c);
  }

  /** A resolve that does not give back the cards shown changes what is in the game. */
  lemma ForgedChoiceBreaks(s: State, m: Move, deal: seq<Card>, t: State)
    requires OnTurn(s) && s.phase == DebuggerPending && Accepted(s, m) && m.card != PenaltyLose && |deal| == DECK_SIZE
    requires multiset(NamedCards(m)) != multiset(s.choices)
    requires t == AdvanceTurn(BeforeAdvance(s, m), deal)
    ensures !Inv(t)
  {
    var ret := [m.ret[0].card, m.ret[1].card];
    var b := TakeChoice(s, s.current, m.keep.card, ret);
    ForgedChoicePasses(s, m, deal, b, t);
    assert |Hand(s, s.current)| == Due(s, s.current);
    var c := ForgedChoiceCounts(s, m.keep.card, ret, b);
    var next := NextActive(b, b.current);
    CountAgree(b, PassTurn(b, next), c);
    DrawCards(PassTurn(b, next), next, c);
    MiscountBreaks(t, c);
  }

  lemma MiscountBreaks(t: State, c: Card)
    requires CountOf(t, c) != DeckCount(c)
    ensures !Inv(t)
  {
  }

  lemma StepBreaks(s: State, m: Move, deal: seq<Card>, t: State)
    requires OnTurn(s) && s.phase != GameOver && Accepted(s, m) && !Benign(s, m) && |deal| == DECK_SIZE
    requires t == ApplyMove(s, m, deal)
    ensures !Inv(t)
  {
    if m.card != PenaltyLose {
      ForgedChoiceBreaks(s, m, deal, t);
    } else if s.phase == DebuggerPending {
      PendingPenaltyBreaks(s, m.player, deal, t);
    } else {
      BystanderPenaltyBreaks(s, m.player, deal, t);
    }
  }

  lemma NotTripled(choices: seq<Card>)
    requires |choices| == 3 && (choices[1] != choices[0] || choices[2] != choices[0])
    ensures multiset([choices[0], choices[0], choices[0]]) != multiset(choices)
  {
    var y := if choices[1] != choices[0] then choices[1] else choices[2];
    assert y in multiset(choices) && y !in multiset([choices[0], choices[0], choices[0]]);
  }

  /** The validator checks membership only: naming one shown card three times is accepted,
      and unless the three shown cards are equal it breaks the game. */
  lemma TripledChoiceIsAccepted(s: State, m: Move, deal: seq<Card>, t: State)
    requires Inv(s) && s.phase == DebuggerPending && |s.choices| == 3 && |deal| == DECK_SIZE
    requires s.choices[1] != s.choices[0] || s.choices[2] != s.choices[0]
    requires var x := Known(s.choices[0]); m == Move(s.current, DebuggerResolve, None, Blank, x, [x, x])
    ensures Accepted(s, m) && (t == ApplyMove(s, m, deal) ==> !Inv(t))
  {
    TripledIsForged(s, m);
    if t == ApplyMove(s, m, deal) { StepBreaks(s, m, deal, t); }
  }

  lemma TripledIsForged(s: State, m: Move)
    requires s.phase == DebuggerPending && |s.choices| == 3 && s.current !in s.eliminated
    requires s.choices[1] != s.choices[0] || s.choices[2] != s.choices[0]
    requires var x := Known(s.choices[0]); m == Move(s.current, DebuggerResolve, None, Blank, x, [x, x])
    ensures Accepted(s, m) && !Benign(s, m)
  {
    assert NamedCards(m) == [s.choices[0], s.choices[0], s.choices[0]];
    NotTripled(s.choices);
  }

  /** For every accepted move in a running game: good order is kept exactly by benign moves. */
  lemma StepKeepsIffBenign(s: State, m: Move, deal: seq<Card>, t: State)
    requires Inv(s) && s.phase != GameOver && Accepted(s, m) && FullDeck(deal)
    requires t == ApplyMove(s, m, deal)
    ensures Inv(t) <==> Benign(s, m)
  {
    if Benign(s, m) {
      StepKeeps(s, m, deal, t);
    } else {
      StepBreaks(s, m, deal, t);
    }
  }
}
