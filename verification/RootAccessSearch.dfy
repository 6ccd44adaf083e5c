/** The positions the bot's search plays through: sampled worlds and what follows from them by
    accepted moves. They hold a card too many, yet their scores are in order. */
module RootAccessSearch {
  import opened RootAccessCards
  import opened RootAccessEngine
  import opened RootAccessInvariant
  import opened RootAccessRounds
  import opened RootAccessStep
  import opened RootAccessBot
  import opened RootAccessBotMoves

  ghost predicate BackdoorSeated(s: State) { forall p :: p in s.backdoor ==> p in s.players }

  /** What a search position keeps, whatever cards it holds. */
  ghost predicate Searchable(s: State) {
    && Seats(s)
    && if s.phase == GameOver then s.gameWinner.Some?
       else
         && OpenScore(s) && BackdoorSeated(s) && 2 <= |Active(s)|
         && s.current in s.players && s.current !in s.eliminated
         && (s.phase == Playing ==> s.choices == [])
  }

  /** Between the effect of a move and the passing of the turn. */
  ghost predicate Passable(s: State) {
    s.phase == Playing && Payable(s) && s.current in s.players
  }

  lemma GoodIsSearchable(s: State)
    requires OnTurn(s) && s.phase != GameOver
    ensures Searchable(s)
  {
  }

  /** Every world sampled for the player on turn is a search position. */
  lemma SampledIsSearchable(s: State, pool: seq<Card>, world: State)
    requires OnTurn(s) && s.phase != GameOver && IsUnknownPool(s, pool) && world == Sampled(s, s.current, pool)
    ensures Searchable(world)
  {
    SampledHands(s, pool, world, s.current);
    GoodIsSearchable(s);
    assert Active(world) == Active(s);
  }

  // ---------------------------------------------------------------------------
  // Moves
  // ---------------------------------------------------------------------------

  /** `b` differs from `s` by cards, marks and at most one more player out. */
  ghost predicate OneOut(s: State, b: State) {
    && SameTable(s, b) && b.phase == s.phase && b.choices == s.choices
    && (b.eliminated == s.eliminated || exists p :: b.eliminated == AppendUnique(s.eliminated, p))
    && forall q :: q in b.backdoor ==> q in s.backdoor || q in s.players
  }

  lemma EliminateIsOneOut(s: State, p: PlayerId, b: State)
    requires p in s.players && b == Eliminate(s, p)
    ensures OneOut(s, b)
  {
    EliminateFrame(s, p, b);
  }

  lemma RebootIsOneOut(s: State, p: PlayerId, b: State)
    requires p in s.players && b == ApplyReboot(s, p)
    ensures OneOut(s, b)
  {
    var hand := Hand(s, p);
    if hand != [] && hand[0] == Root {
      EliminateIsOneOut(SetHand(AppendDiscard(s, p, hand[0]), p, []), p, b);
    }
  }

  lemma EffectIsOneOut(s: State, m: Move, c: Card, b: State)
    requires c != Debugger && m.player in s.players && (m.target.Some? ==> m.target.value in s.players)
             && b == CardEffect(s, m, c)
    ensures OneOut(s, b)
  {
    match c {
      case Root => EliminateIsOneOut(s, m.player, b);
      case Ping => if b != s { EliminateIsOneOut(s, m.target.value, b); }
      case BufferOverflow =>
        if b != s {
          EliminateIsOneOut(s, if HandValue(s, m.player) < HandValue(s, m.target.value) then m.player else m.target.value, b);
        }
      case Reboot => RebootIsOneOut(s, m.target.GetOr(m.player), b);
      case _ =>
    }
  }

  lemma OneOutIsPassable(s: State, b: State)
    requires Searchable(s) && s.phase == Playing && OneOut(s, b)
    ensures Passable(b)
  {
    if b.eliminated != s.eliminated {
      var p :| b.eliminated == AppendUnique(s.eliminated, p);
      EliminateActive(s, p);
    }
  }

  /** An accepted card play names its player and its target at the table. */
  lemma PlayIsSeated(s: State, m: Move)
    requires Searchable(s) && s.phase == Playing && Accepted(s, m) && m.card != PenaltyLose
    ensures m.player == s.current && m.card.Known?
    ensures m.card.card in {Ping, Sniffer, BufferOverflow, Swap, Reboot} && m.target.Some? ==> m.target.value in s.players
  {
  }

  /** Only these cards look at the target. */
  lemma TargetMatters(s: State, m: Move, c: Card, m': Move)
    requires c != Debugger && c !in {Ping, Sniffer, BufferOverflow, Swap, Reboot} && m' == m.(target := None)
    ensures CardEffect(s, m', c) == CardEffect(s, m, c)
  {
  }

  lemma PlayIsPassable(s: State, m: Move, b: State)
    requires Searchable(s) && s.phase == Playing && Accepted(s, m) && m.card != PenaltyLose && !PlaysDebugger(s, m)
    requires b == BeforeAdvance(s, m)
    ensures Passable(b)
  {
    PlayIsSeated(s, m);
    var c := m.card.card;
    var mid := PlayCard(s, s.current, c);
    if c in {Ping, Sniffer, BufferOverflow, Swap, Reboot} {
      EffectIsOneOut(mid, m, c, b);
    } else {
      TargetMatters(mid, m, c, m.(target := None));
      EffectIsOneOut(mid, m.(target := None), c, b);
    }
    assert OneOut(s, b);
    OneOutIsPassable(s, b);
  }

  lemma ResolveIsSearchable(s: State, deal: seq<Card>, t: State)
    requires Payable(s) && FullDeck(deal) && t == ResolveRound(s, deal)
    ensures Searchable(t)
  {
    if FirstWith(s.players, RoundTokens(s), Target(s)).None? {
      NextRoundKeeps(s, deal, t);
      GoodIsSearchable(t);
    } else {
      RoundPays(s);
    }
  }

  lemma AdvanceIsSearchable(b: State, deal: seq<Card>, t: State)
    requires Passable(b) && FullDeck(deal) && t == AdvanceTurn(b, deal)
    ensures Searchable(t)
  {
    if |Active(b)| <= 1 {
      ResolveIsSearchable(b, deal, t);
    } else {
      NextIsNearest(b, b.current);
      var next := NextActive(b, b.current);
      var passed := PassTurn(b, next);
      assert Active(passed) == Active(b);
      if |Hand(passed, next)| < 2 && passed.deck == [] {
        ResolveIsSearchable(passed, deal, t);
      } else {
        assert Active(t) == Active(b);
      }
    }
  }

  lemma DebuggerIsSearchable(s: State, t: State)
    requires Searchable(s) && s.phase == Playing && t == ApplyDebugger(PlayCard(s, s.current, Debugger), s.current)
    ensures Searchable(t)
  {
    assert Active(t) == Active(s);
  }

  lemma ChoiceIsPassable(s: State, keep: Card, ret: seq<Card>, b: State)
    requires Searchable(s) && s.phase == DebuggerPending && b == TakeChoice(s, s.current, keep, ret)
    ensures Passable(b)
  {
    assert Active(b) == Active(s);
  }

  lemma MoveIsPassable(s: State, m: Move, b: State)
    requires Searchable(s) && s.phase != GameOver && Accepted(s, m) && m.card != PenaltyLose && !PlaysDebugger(s, m)
    requires b == BeforeAdvance(s, m)
    ensures Passable(b)
  {
    if s.phase == Playing {
      PlayIsPassable(s, m, b);
    } else {
      ChoiceIsPassable(s, m.keep.card, [m.ret[0].card, m.ret[1].card], b);
    }
  }

  /** Every accepted card play or resolve leads from a search position to a search position. */
  lemma SearchStep(s: State, m: Move, deal: seq<Card>, t: State)
    requires Searchable(s) && s.phase != GameOver && Accepted(s, m) && m.card != PenaltyLose && FullDeck(deal)
    requires t == ApplyMove(s, m, deal)
    ensures Searchable(t)
  {
    if PlaysDebugger(s, m) {
      DebuggerIsSearchable(s, t);
    } else {
      var b := BeforeAdvance(s, m);
      MoveIsPassable(s, m, b);
      AdvanceIsSearchable(b, deal, t);
    }
  }

  // ---------------------------------------------------------------------------
  // Whole searches
  // ---------------------------------------------------------------------------

  ghost predicate PlayedBy(s: State, m: Move, deal: seq<Card>, t: State) {
    && s.phase != GameOver && 0 < |s.players| <= 5 && Accepted(s, m) && m.card != PenaltyLose && FullDeck(deal)
    && t == ApplyMove(s, m, deal)
  }

  ghost predicate PlayedAt(ss: seq<State>, ms: seq<Move>, deals: seq<seq<Card>>, i: nat)
    requires |ss| == |ms| + 1 && |deals| == |ms| && i < |ms|
  {
    PlayedBy(ss[i], ms[i], deals[i], ss[i + 1])
  }

  /** `ss` is played by accepted moves. */
  ghost predicate Playout(ss: seq<State>, ms: seq<Move>, deals: seq<seq<Card>>) {
    && |ss| == |ms| + 1 && |deals| == |ms|
    && forall i: nat {:trigger PlayedAt(ss, ms, deals, i)} :: i < |ms| ==> PlayedAt(ss, ms, deals, i)
  }

  lemma PlayedKeeps(s: State, m: Move, deal: seq<Card>, t: State)
    requires Searchable(s) && PlayedBy(s, m, deal, t)
    ensures Searchable(t)
  {
    SearchStep(s, m, deal, t);
  }

  lemma MoveAtStays(ss: seq<State>, ms: seq<Move>, deals: seq<seq<Card>>, i: nat, s: State, t: State)
    requires Playout(ss, ms, deals) && i < |ms| && s == ss[i] && t == ss[i + 1] && Searchable(s)
    ensures Searchable(t)
  {
    assert PlayedAt(ss, ms, deals, i);
    PlayedKeeps(s, ms[i], deals[i], t);
  }

  lemma {:induction false} PlayoutStays(ss: seq<State>, ms: seq<Move>, deals: seq<seq<Card>>, i: nat)
    requires Playout(ss, ms, deals) && Searchable(ss[0]) && i < |ss|
    ensures Searchable(ss[i])
  {
    if i > 0 {
      PlayoutStays(ss, ms, deals, i - 1);
      MoveAtStays(ss, ms, deals, i - 1, ss[i - 1], ss[i]);
    }
  }

  /** Every position of every playout from a world sampled in a running game can be scored. */
  lemma PlayoutIsGradable(s: State, pool: seq<Card>, ss: seq<State>, ms: seq<Move>, deals: seq<seq<Card>>, i: nat)
    requires OnTurn(s) && s.phase != GameOver && IsUnknownPool(s, pool)
    requires Playout(ss, ms, deals) && ss[0] == Sampled(s, s.current, pool) && i < |ss|
    ensures Searchable(ss[i]) && Gradable(ss[i])
  {
    SampledIsSearchable(s, pool, ss[0]);
    PlayoutStays(ss, ms, deals, i);
  }

  /** The moves the bot lists in a search position are accepted there. */
  lemma ListedInSearch(s: State, m: Move)
    requires Searchable(s) && s.phase == Playing && Listed(s, m)
    ensures Accepted(s, m) && m.card != PenaltyLose
  {
    ListedIsAccepted(s, m);
  }
}
