/** Protection, the face-down card, stuck Debuggers and scores in legal games. */
module RootAccessSafety {
  import opened RootAccessCards
  import opened RootAccessEngine
  import opened RootAccessInvariant
  import opened RootAccessRounds
  import opened RootAccessEffects
  import opened RootAccessStep
  import opened RootAccessRuns
  import opened RootAccessFairness

  // ---------------------------------------------------------------------------
  // The Firewall protects
  // ---------------------------------------------------------------------------

  /** `q` keeps hand and place from `s` to `t`. */
  predicate Untouched(s: State, t: State, q: PlayerId) {
    Hand(t, q) == Hand(s, q) && (q in t.eliminated ==> q in s.eliminated)
  }

  lemma EliminateSpares(s: State, p: PlayerId, t: State, q: PlayerId)
    requires q != p && t == Eliminate(s, p)
    ensures Untouched(s, t, q)
  {
    EliminateFrame(s, p, t);
  }

  lemma RebootSpares(s: State, p: PlayerId, t: State, q: PlayerId)
    requires q != p && t == ApplyReboot(s, p)
    ensures Untouched(s, t, q)
  {
    if Hand(s, p) != [] && Hand(s, p)[0] == Root { EliminateSpares(Dumped(s, p), p, t, q); }
  }

  lemma CardEffectSpares(s: State, m: Move, c: Card, t: State, q: PlayerId)
    requires c != Debugger && m.player == s.current && TargetOk(s, m, c) && t == CardEffect(s, m, c)
    requires q in s.protected && q != s.current
    ensures Untouched(s, t, q)
  {
    match c {
      case Root => EliminateSpares(s, s.current, t, q);
      case Ping => if t != s { EliminateSpares(s, m.target.value, t, q); }
      case BufferOverflow =>
        if t != s {
          if HandValue(s, s.current) < HandValue(s, m.target.value) {
            EliminateSpares(s, s.current, t, q);
          } else {
            EliminateSpares(s, m.target.value, t, q);
          }
        }
      case Reboot => RebootSpares(s, m.target.GetOr(m.player), t, q);
      case _ =>
    }
  }

  lemma BeforeAdvanceSpares(s: State, m: Move, b: State, q: PlayerId)
    requires OnTurn(s) && Accepted(s, m) && !PlaysDebugger(s, m) && s.phase != GameOver
    requires m.card == PenaltyLose ==> m.player == s.current
    requires b == BeforeAdvance(s, m) && q in s.protected
    ensures Untouched(s, b, q)
  {
    if m.card == PenaltyLose {
      EliminateSpares(s, s.current, b, q);
    } else if s.phase == Playing {
      AcceptedPlay(s, m);
      var c := m.card.card;
      CardEffectSpares(PlayCard(s, s.current, c), m, c, b, q);
    }
  }

  /** What a move has done before the turn passes and a round may be scored and dealt. */
  function Handed(s: State, m: Move): State {
    if !Accepted(s, m) then s
    else if PlaysDebugger(s, m) then ApplyDebugger(PlayCard(s, m.player, Debugger), m.player)
    else BeforeAdvance(s, m)
  }

  predicate PenaltyAgainst(m: Move, q: PlayerId) { m.card == PenaltyLose && m.player == q }

  lemma PenaltyTouches(s: State, q: PlayerId, t: State)
    requires q !in s.eliminated && t == Eliminate(s, q)
    ensures !Untouched(s, t, q)
  {
    EliminateFrame(s, q, t);
  }

  /** No move of an opponent, be it the last of the round, changes a protected player's hand or
      puts them out. The one thing that does is a timeout penalty against that player, which
      is benign only if it ends the round. */
  lemma ProtectedIsSafe(s: State, turn: Turn, t: State, q: PlayerId, b: State)
    requires Inv(s) && LegalStep(s, turn, t) && q in s.protected && b == Handed(s, turn.move)
    ensures Untouched(s, b, q) <==> !PenaltyAgainst(turn.move, q)
    ensures PenaltyAgainst(turn.move, q) ==> !SameRound(s, t)
  {
    var m := turn.move;
    if m.card == PenaltyLose && m.player != s.current {
      OutsidePenaltyEndsRound(s, m.player, turn.deal, t);
      if m.player == q {
        PenaltyTouches(s, q, b);
      } else {
        EliminateSpares(s, m.player, b, q);
      }
    } else if !PlaysDebugger(s, m) {
      BeforeAdvanceSpares(s, m, b, q);
    }
  }

  /** The same in every legal game. */
  lemma ProtectedInGame(r: Game, i: nat, q: PlayerId, b: State)
    requires i < |r.ts| && q in r.ss[i].protected && b == Handed(r.ss[i], r.ts[i].move)
    ensures Untouched(r.ss[i], b, q) <==> !PenaltyAgainst(r.ts[i].move, q)
    ensures PenaltyAgainst(r.ts[i].move, q) ==> !SameRound(r.ss[i], r.ss[i + 1])
  {
    RunKeeps(r, i);
    assert LegalAt(r, i + 1);
    ProtectedIsSafe(r.ss[i], r.ts[i], r.ss[i + 1], q, b);
  }

  lemma DrawSpares(b: State, next: PlayerId, t: State, q: PlayerId)
    requires t == DrawCard(PassTurn(b, next), next) && b.deck != []
    ensures t.current == next && t.eliminated == b.eliminated
    ensures Hand(b, q) <= Hand(t, q) && (q != next ==> Hand(t, q) == Hand(b, q))
  {
  }

  /** While the round goes on, a protected player's hand stays, or grows by the card they draw
      when the turn comes to them. */
  lemma ProtectedWithinRound(s: State, turn: Turn, t: State, q: PlayerId)
    requires Inv(s) && LegalStep(s, turn, t) && SameRound(s, t) && q in s.protected
    ensures q !in t.eliminated
    ensures Hand(s, q) <= Hand(t, q) && (q != t.current ==> Hand(t, q) == Hand(s, q))
  {
    var m := turn.move;
    if !PlaysDebugger(s, m) {
      if m.card == PenaltyLose && m.player != s.current {
        OutsidePenaltyEndsRound(s, m.player, turn.deal, t);
      } else {
        var b := BeforeAdvance(s, m);
        BeforeAdvanceSpares(s, m, b, q);
        BeforeAdvanceSettles(s, m, b);
        AdvanceSameRound(b, turn.deal, t);
        DrawSpares(b, NextActive(b, b.current), t, q);
      }
    }
  }

  // ---------------------------------------------------------------------------
  // The face-down card
  // ---------------------------------------------------------------------------

  lemma EliminateFaceDown(s: State, p: PlayerId)
    ensures Eliminate(s, p).faceDown == s.faceDown
  {
    EliminateFrame(s, p, Eliminate(s, p));
  }

  lemma RebootFaceDown(s: State, p: PlayerId)
    ensures ApplyReboot(s, p).faceDown == s.faceDown || ApplyReboot(s, p).faceDown.None?
  {
    if Hand(s, p) != [] { EliminateFaceDown(Dumped(s, p), p); }
  }

  lemma CardEffectFaceDown(s: State, m: Move, c: Card, t: State)
    requires c != Debugger && t == CardEffect(s, m, c)
    ensures t.faceDown == s.faceDown || t.faceDown.None?
  {
    EliminateFaceDown(s, m.player);
    if m.target.Some? { EliminateFaceDown(s, m.target.value); }
    RebootFaceDown(s, m.target.GetOr(m.player));
  }

  lemma BeforeAdvanceFaceDown(s: State, m: Move, b: State)
    requires Accepted(s, m) && !PlaysDebugger(s, m) && b == BeforeAdvance(s, m)
    ensures b.faceDown == s.faceDown || b.faceDown.None?
  {
    if m.card == PenaltyLose {
      EliminateFaceDown(s, m.player);
    } else if s.phase != DebuggerPending {
      CardEffectFaceDown(PlayCard(s, m.player, m.card.card), m, m.card.card, b);
    }
  }

  /** The face-down card is drawn only by the last move of a round. */
  lemma FaceDownStays(s: State, turn: Turn, t: State)
    requires Inv(s) && LegalStep(s, turn, t) && SameRound(s, t)
    ensures t.faceDown == s.faceDown && s.faceDown.Some?
  {
    var m := turn.move;
    if !PlaysDebugger(s, m) {
      if m.card == PenaltyLose && m.player != s.current {
        OutsidePenaltyEndsRound(s, m.player, turn.deal, t);
      } else {
        var b := BeforeAdvance(s, m);
        BeforeAdvanceFaceDown(s, m, b);
        BeforeAdvanceSettles(s, m, b);
        AdvanceSameRound(b, turn.deal, t);
      }
    }
  }

  // ---------------------------------------------------------------------------
  // Progress
  // ---------------------------------------------------------------------------

  /** Keep the first of three shown cards and give the others back. */
  function KeepFirst(s: State): Move
    requires |s.choices| == 3
  {
    Move(s.current, DebuggerResolve, None, Blank, Known(s.choices[0]), [Known(s.choices[1]), Known(s.choices[2])])
  }

  lemma KeepFirstIsLegal(s: State, m: Move)
    requires s.phase == DebuggerPending && |s.choices| == 3 && s.current !in s.eliminated && m == KeepFirst(s)
    ensures Accepted(s, m) && Benign(s, m)
  {
    assert NamedCards(m) == s.choices;
  }

  lemma ShortChoiceSticks(s: State, m: Move)
    requires s.phase == DebuggerPending && |s.choices| != 3 && Accepted(s, m)
    ensures !Benign(s, m)
  {
  }

  /** A pending Debugger can be resolved legally exactly when three cards are shown, that is
      when it was played with at least two cards in the deck. */
  lemma PendingResolvableIff(s: State)
    requires s.phase == DebuggerPending && s.current !in s.eliminated
    ensures (exists m: Move :: Accepted(s, m) && Benign(s, m)) <==> |s.choices| == 3
  {
    if |s.choices| == 3 {
      KeepFirstIsLegal(s, KeepFirst(s));
    } else {
      forall m: Move | Accepted(s, m) ensures !Benign(s, m) { ShortChoiceSticks(s, m); }
    }
  }

  /** A Debugger played on a deck of fewer than two cards leaves no legal move at all. */
  lemma ShortDebuggerSticks(s: State, turn: Turn, t: State)
    requires Inv(s) && LegalStep(s, turn, t) && PlaysDebugger(s, turn.move)
    ensures (forall m: Move :: Accepted(t, m) ==> !Benign(t, m)) <==> |s.deck| < 2
  {
    DebuggerMoveKeeps(s, turn.move, t);
    PendingResolvableIff(t);
  }

  // ---------------------------------------------------------------------------
  // Scores
  // ---------------------------------------------------------------------------

  /** In every state of a legal game: before the end nobody has reached the target and the
      finished rounds have paid one or two tokens each; at the end the winner holds the
      target or one more. */
  lemma RunScores(r: Game, i: nat)
    requires i < |r.ss|
    ensures Seats(r.ss[i])
    ensures r.ss[i].phase != GameOver ==> OpenScore(r.ss[i])
    ensures r.ss[i].phase == GameOver ==> FinalScore(r.ss[i])
  {
    RunKeeps(r, i);
  }

  // ---------------------------------------------------------------------------
  // Penalties after the end
  // ---------------------------------------------------------------------------

  /** Paying a round that one player is left in. */
  lemma LastIsPaid(e: State, w: PlayerId, winner: PlayerId)
    requires Active(e) == [w] && w in e.tokens && winner in e.tokens
    ensures w in RoundTokens(e) && RoundTokens(e)[w] == e.tokens[w] + Share(e, w) > e.tokens[w]
    ensures winner in RoundTokens(e) && RoundTokens(e)[winner] >= e.tokens[winner]
  {
    if |e.backdoor| == 1 { assert e.backdoor == [e.backdoor[0]]; }
  }

  lemma PaidGameStaysOver(e: State, winner: PlayerId, deal: seq<Card>, t: State)
    requires 0 < |e.players| <= 5 && |deal| == DECK_SIZE && winner in e.players && winner in RoundTokens(e)
    requires RoundTokens(e)[winner] >= Target(e) && t == ResolveRound(e, deal)
    ensures t.phase == GameOver && t.tokens == RoundTokens(e)
  {
  }

  /** The engine still accepts a penalty in a finished game. If it leaves a single player, that
      player is paid for the round once more: a winner with one more than the target gets even
      further above it. */
  lemma PenaltyAfterEndPaysAgain(s: State, m: Move, deal: seq<Card>, w: PlayerId, e: State, t: State)
    requires Over(s) && s.phase == GameOver && m.card == PenaltyLose && |deal| == DECK_SIZE
    requires e == Eliminate(s, m.player) && Active(e) == [w] && w in s.players && t == ApplyMove(s, m, deal)
    ensures Accepted(s, m) && t.phase == GameOver
    ensures w in t.tokens && t.tokens[w] == s.tokens[w] + Share(e, w) > s.tokens[w]
  {
    EliminateFrame(s, m.player, e);
    LastIsPaid(e, w, s.gameWinner.value);
    PaidGameStaysOver(e, s.gameWinner.value, deal, t);
  }
}
