/** How a round of Root Access ends, what it pays, how the next one is dealt and how the turn
    passes while it goes on, in terms of seats, cards and tokens alone. */
module RootAccessRoundLaws {
  import opened RootAccessCards
  import opened RootAccessEngine
  import opened RootAccessInvariant
  import opened RootAccessRounds
  import opened RootAccessEffects
  import opened RootAccessStep
  import opened RootAccessRuns
  import opened RootAccessFairness
  import opened RootAccessSafety

  // ---------------------------------------------------------------------------
  // Who takes the round
  // ---------------------------------------------------------------------------

  predicate StillIn(b: State, p: PlayerId) { p in b.players && p !in b.eliminated }

  /** `q` loses to `w`: a lower card, or the same card and a poorer pile, or the same of both and a
      later seat. */
  ghost predicate LosesTo(b: State, q: PlayerId, w: PlayerId)
    requires q in b.players && w in b.players
  {
    || Outshines(b, w, q)
    || (Shown(b, q) == Shown(b, w) && Worth(Pile(b, q)) == Worth(Pile(b, w))
        && FirstSeat(b.players, w) < FirstSeat(b.players, q))
  }

  /** Everybody else who is still in loses to `w`. */
  ghost predicate TakesRound(b: State, w: PlayerId) {
    StillIn(b, w) && forall q :: StillIn(b, q) && q != w ==> LosesTo(b, q, w)
  }

  /** Who is left keeps the order of the seats. */
  lemma {:induction false} WithoutKeepsOrder(ps: seq<PlayerId>, gone: seq<PlayerId>, p: PlayerId, q: PlayerId)
    returns (i: nat, j: nat)
    requires p in ps && q in ps && p !in gone && q !in gone && FirstSeat(ps, p) < FirstSeat(ps, q)
    ensures i < j < |Without(ps, gone)| && Without(ps, gone)[i] == p && Without(ps, gone)[j] == q
  {
    var rest := Without(ps[1..], gone);
    if ps[0] == p {
      assert q in ps[1..];
      WithoutMembers(ps[1..], gone, q);
      j :| j < |rest| && rest[j] == q;
      i, j := 0, j + 1;
    } else {
      i, j := WithoutKeepsOrder(ps[1..], gone, p, q);
      if ps[0] !in gone { i, j := i + 1, j + 1; }
    }
  }

  /** The seats of two players who are still in compare like their places among those left. */
  lemma EarlierSeat(b: State, k: nat, i: nat)
    requires Distinct(b.players) && k < |Active(b)| && i < |Active(b)| && i != k
    ensures StillIn(b, Active(b)[i]) && StillIn(b, Active(b)[k])
    ensures FirstSeat(b.players, Active(b)[i]) < FirstSeat(b.players, Active(b)[k]) <==> i < k
    ensures FirstSeat(b.players, Active(b)[i]) != FirstSeat(b.players, Active(b)[k])
  {
    var active := Active(b);
    WithoutMembers(b.players, b.eliminated, active[i]);
    WithoutMembers(b.players, b.eliminated, active[k]);
    WithoutDistinct(b.players, b.eliminated);
    if FirstSeat(b.players, active[i]) < FirstSeat(b.players, active[k]) {
      var x, y := WithoutKeepsOrder(b.players, b.eliminated, active[i], active[k]);
    } else if FirstSeat(b.players, active[k]) < FirstSeat(b.players, active[i]) {
      var x, y := WithoutKeepsOrder(b.players, b.eliminated, active[k], active[i]);
    }
  }

  lemma NobodyAbove(b: State, k: nat, i: nat)
    requires Distinct(b.players) && k < |Active(b)| && i < |Active(b)| && i != k
    requires !Outshines(b, Active(b)[i], Active(b)[k]) && (i < k ==> Outshines(b, Active(b)[k], Active(b)[i]))
    ensures StillIn(b, Active(b)[k]) && StillIn(b, Active(b)[i]) && LosesTo(b, Active(b)[i], Active(b)[k])
  {
    EarlierSeat(b, k, i);
  }

  /** The winner the engine names is the one to whom everybody else who is still in loses. */
  lemma WinnerTakes(b: State)
    requires Distinct(b.players) && 1 <= |Active(b)|
    ensures RoundWinner(b).Some? && TakesRound(b, RoundWinner(b).value)
  {
    var active := Active(b);
    WithoutAllMembers(b.players, b.eliminated);
    var k: nat := 0;
    if |active| != 1 {
      k := BestOfWins(b, active, |active|);
    }
    assert active[k] in active;
    forall q | StillIn(b, q) && q != active[k] ensures LosesTo(b, q, active[k]) {
      var i :| 0 <= i < |active| && active[i] == q;
      NobodyAbove(b, k, i);
    }
  }

  lemma LosingIsStrict(b: State, w: PlayerId, v: PlayerId)
    requires w in b.players && v in b.players
    ensures !LosesTo(b, w, v) || !LosesTo(b, v, w)
  {
  }

  lemma OneTakesRound(b: State, w: PlayerId, v: PlayerId)
    requires TakesRound(b, w) && TakesRound(b, v)
    ensures w == v
  {
    LosingIsStrict(b, w, v);
  }

  // ---------------------------------------------------------------------------
  // When the round is over
  // ---------------------------------------------------------------------------

  /** Nothing is left to draw, or nobody to play against. */
  ghost predicate RoundIsOver(b: State) {
    b.deck == [] || forall p, q :: StillIn(b, p) && StillIn(b, q) ==> p == q
  }

  lemma OverIffNotContinues(b: State)
    requires Distinct(b.players)
    ensures RoundIsOver(b) <==> !RoundContinues(b)
  {
    WithoutAllMembers(b.players, b.eliminated);
    if 2 <= |Active(b)| {
      WithoutDistinct(b.players, b.eliminated);
      assert StillIn(b, Active(b)[0]) && StillIn(b, Active(b)[1]);
    } else {
      forall p, q | StillIn(b, p) && StillIn(b, q) ensures p == q {
        assert p in Active(b) && q in Active(b);
      }
    }
  }

  /** The position that is scored: the turn marker may have moved on, nothing else that counts. */
  predicate ScoredAlike(b: State, e: State) {
    && e.players == b.players && e.eliminated == b.eliminated && e.hands == b.hands && e.piles == b.piles
    && e.tokens == b.tokens && e.backdoor == b.backdoor && e.round == b.round && e.toWin == b.toWin
    && e.choices == b.choices
  }

  lemma TakesAlike(b: State, e: State, w: PlayerId)
    requires ScoredAlike(b, e)
    ensures TakesRound(e, w) <==> TakesRound(b, w)
  {
    forall q | StillIn(b, q) && StillIn(b, w) ensures LosesTo(e, q, w) <==> LosesTo(b, q, w) {
      assert Shown(e, q) == Shown(b, q) && Shown(e, w) == Shown(b, w);
    }
  }

  lemma OutsidePenaltyEnds(s: State, turn: Turn, t: State, b: State) returns (e: State)
    requires OnTurn(s) && LegalStep(s, turn, t) && b == Handed(s, turn.move)
    requires turn.move.card == PenaltyLose && turn.move.player != s.current
    ensures SameTable(s, b) && !RoundContinues(b)
    ensures Scorable(e) && ScoredAlike(b, e) && t == ResolveRound(e, turn.deal)
  {
    var p := turn.move.player;
    OutsidePenaltyCases(s, p, b, turn.deal);
    EliminateAnyScorable(s, p, b);
    e := b;
    if 2 <= |Active(b)| {
      e := PassTurn(b, NextActive(b, b.current));
      PassScorable(b, NextActive(b, b.current));
    }
  }

  lemma SettledEnds(b: State, deal: seq<Card>, t: State) returns (e: State)
    requires Settled(b) && !RoundContinues(b) && |deal| == DECK_SIZE && t == AdvanceTurn(b, deal)
    ensures Scorable(e) && ScoredAlike(b, e) && t == ResolveRound(e, deal)
  {
    AdvanceCases(b, deal);
    e := b;
    if 2 <= |Active(b)| {
      e := PassTurn(b, NextActive(b, b.current));
      PassScorable(b, NextActive(b, b.current));
    }
  }

  lemma HandedSettles(s: State, turn: Turn, t: State, b: State)
    requires OnTurn(s) && LegalStep(s, turn, t) && b == Handed(s, turn.move) && !PlaysDebugger(s, turn.move)
    requires turn.move.card == PenaltyLose ==> turn.move.player == s.current
    ensures Settled(b) && SameTable(s, b) && t == AdvanceTurn(b, turn.deal)
  {
    BeforeAdvanceSettles(s, turn.move, b);
  }

  /** A legal move that ends the round leads to the scoring of the position it leaves. */
  lemma EndIsScored(s: State, turn: Turn, t: State, b: State) returns (e: State)
    requires OnTurn(s) && LegalStep(s, turn, t) && b == Handed(s, turn.move) && !PlaysDebugger(s, turn.move)
    requires !RoundContinues(b)
    ensures SameTable(s, b) && Scorable(e) && ScoredAlike(b, e) && t == ResolveRound(e, turn.deal)
  {
    if turn.move.card == PenaltyLose && turn.move.player != s.current {
      e := OutsidePenaltyEnds(s, turn, t, b);
    } else {
      HandedSettles(s, turn, t, b);
      e := SettledEnds(b, turn.deal, t);
    }
  }

  // ---------------------------------------------------------------------------
  // What the round pays, and the next deal
  // ---------------------------------------------------------------------------

  /** Tokens that win a game of two, three, four or five. */
  const TOKEN_TARGETS: map<nat, nat> := map[2 := 7, 3 := 5, 4 := 4, 5 := 3]

  /** One token for the round, one for the only player with a Backdoor. */
  ghost predicate RoundPaid(s: State, b: State, t: State) {
    forall p :: p in s.players ==>
      && p in s.tokens && p in t.tokens
      && t.tokens[p] == s.tokens[p] + (if TakesRound(b, p) then 1 else 0) + (if b.backdoor == [p] then 1 else 0)
  }

  /** `p` has the tokens to win and nobody in an earlier seat has. */
  ghost predicate FirstAtTarget(t: State, p: PlayerId, target: nat) {
    && p in t.players && p in t.tokens && t.tokens[p] >= target
    && forall q :: q in t.players && q in t.tokens && t.tokens[q] >= target ==>
         FirstSeat(t.players, p) <= FirstSeat(t.players, q)
  }

  /** The layout of a deal: one card face down, three face up for two players only, one to each
      seat in order, one more to the player who starts, the rest in the deck; all lists empty. */
  ghost predicate FreshDeal(t: State, deal: seq<Card>, first: PlayerId)
    requires |deal| == DECK_SIZE && |t.players| <= 5
  {
    var n, k := |t.players|, if |t.players| == 2 then 4 else 1;
    && t.faceDown == Some(deal[0]) && t.faceUp == deal[1..k]
    && (forall i :: 0 <= i < n ==> Hand(t, t.players[i]) == DealtTo(deal, k, i, n, t.players[i] == first))
    && t.deck == deal[k + n + 1..]
    && t.current == first && t.phase == Playing
    && t.eliminated == [] && t.protected == [] && t.backdoor == [] && t.log == []
    && forall p :: Pile(t, p) == []
  }

  /** The cards dealt to seat `i` of `n`, the first of which is card `k` of the deal. */
  function DealtTo(deal: seq<Card>, k: nat, i: nat, n: nat, starts: bool): seq<Card>
    requires i < n && k + n < |deal|
  {
    [deal[k + i]] + if starts then [deal[k + n]] else []
  }

  lemma {:induction false} DealHandsAt(players: seq<PlayerId>, cards: seq<Card>, n: nat, i: nat)
    requires Distinct(players) && i < n <= |players| && n <= |cards|
    ensures CardsAt(DealHands(players, cards, n), players[i]) == [cards[i]]
  {
    if i < n - 1 { DealHandsAt(players, cards, n - 1, i); }
  }

  lemma DealtHand(s: State, first: PlayerId, deal: seq<Card>, d: State, k: nat, i: nat)
    requires |deal| == DECK_SIZE && 2 <= |s.players| <= 5 && Distinct(s.players) && d == Dealt(s, first, deal)
    requires k == (if |s.players| == 2 then 4 else 1) && i < |s.players|
    ensures Hand(d, s.players[i]) == [deal[k + i]]
  {
    DealHandsAt(s.players, deal[k..], |s.players|, i);
  }

  lemma DealIsFresh(s: State, first: PlayerId, deal: seq<Card>, t: State)
    requires |deal| == DECK_SIZE && 2 <= |s.players| <= 5 && Distinct(s.players) && first in s.players
    requires t == DealRound(s, first, deal)
    ensures FreshDeal(t, deal, first)
    ensures t.players == s.players && t.tokens == s.tokens && t.round == s.round
    ensures t.roundWinner == s.roundWinner && t.lastBonus == s.lastBonus
  {
    var n, k := |s.players|, if |s.players| == 2 then 4 else 1;
    var d := Dealt(s, first, deal);
    assert d.faceUp == deal[1..k] && d.deck == deal[k..][n..] == deal[k + n..] && d.deck[0] == deal[k + n];
    forall i | 0 <= i < n ensures Hand(t, t.players[i]) == DealtTo(deal, k, i, n, t.players[i] == first) {
      DealtHand(s, first, deal, d, k, i);
    }
  }

  lemma {:induction false} FirstWithSeat(players: seq<PlayerId>, tokens: map<PlayerId, nat>, target: nat, q: PlayerId)
    requires q in players && q in tokens && tokens[q] >= target
    ensures var r := FirstWith(players, tokens, target);
            r.Some? && r.value in players && FirstSeat(players, r.value) <= FirstSeat(players, q)
  {
    if !(players[0] in tokens && tokens[players[0]] >= target) {
      assert q in players[1..];
      FirstWithSeat(players[1..], tokens, target, q);
    }
  }

  lemma ChampionIsFirst(players: seq<PlayerId>, tokens: map<PlayerId, nat>, target: nat, t: State, p: PlayerId)
    requires FirstWith(players, tokens, target) == Some(p) && t.players == players && t.tokens == tokens
    ensures FirstAtTarget(t, p, target)
  {
    forall q | q in t.players && q in t.tokens && t.tokens[q] >= target
      ensures FirstSeat(t.players, p) <= FirstSeat(t.players, q)
    {
      FirstWithSeat(players, tokens, target, q);
    }
  }

  /** What follows a round won by `w`. */
  ghost predicate RoundFollows(round: nat, t: State, deal: seq<Card>, w: PlayerId)
    requires |deal| == DECK_SIZE && |t.players| <= 5
  {
    if t.phase == GameOver then t.gameWinner.Some? && t.current == t.gameWinner.value && t.round == round
    else t.round == round + 1 && FreshDeal(t, deal, w)
  }

  lemma ResolvePays(e: State, deal: seq<Card>, t: State, w: PlayerId)
    requires Scorable(e) && |deal| == DECK_SIZE && t == ResolveRound(e, deal) && RoundWinner(e) == Some(w)
    ensures t.players == e.players && t.roundWinner == Some(w) && t.tokens == RoundTokens(e) && t.lastBonus == e.backdoor
    ensures t.phase == GameOver <==> FirstWith(e.players, RoundTokens(e), e.toWin).Some?
    ensures t.phase == GameOver ==> FirstWith(e.players, RoundTokens(e), e.toWin) == t.gameWinner
    ensures RoundFollows(e.round, t, deal, w)
  {
    if FirstWith(e.players, RoundTokens(e), Target(e)).None? {
      WinnerIsActive(e);
      DealIsFresh(RoundScored(e), w, deal, t);
    }
  }

  lemma TokensPaid(b: State, e: State, t: State)
    requires Scorable(e) && ScoredAlike(b, e) && t.tokens == RoundTokens(e)
    ensures RoundPaid(b, b, t)
  {
    RoundPays(e);
    WinnerTakes(e);
    TakersAre(b, e, RoundWinner(e).value);
  }

  lemma TakersAre(b: State, e: State, w: PlayerId)
    requires ScoredAlike(b, e) && TakesRound(e, w)
    ensures forall p :: TakesRound(b, p) <==> p == w
  {
    forall p ensures TakesRound(b, p) <==> p == w {
      TakesAlike(b, e, p);
      if TakesRound(b, p) { OneTakesRound(e, p, w); }
    }
  }

  /** Whoever has the tokens first, by seat, wins the game, and only then it ends. */
  ghost predicate GameEndsAtTarget(t: State, target: nat) {
    && (t.phase == GameOver <==> exists p :: FirstAtTarget(t, p, target))
    && (t.phase == GameOver ==> t.gameWinner.Some? && FirstAtTarget(t, t.gameWinner.value, target))
  }

  lemma EndsAtTarget(t: State, players: seq<PlayerId>, tokens: map<PlayerId, nat>, target: nat)
    requires t.players == players && t.tokens == tokens
    requires t.phase == GameOver <==> FirstWith(players, tokens, target).Some?
    requires t.phase == GameOver ==> FirstWith(players, tokens, target) == t.gameWinner
    ensures GameEndsAtTarget(t, target)
  {
    if t.phase == GameOver { ChampionIsFirst(players, tokens, target, t, t.gameWinner.value); }
  }

  /** For every legal move after which nothing is left to draw or nobody to play against: the
      round goes to the one player to whom all others still in lose, it pays that player and
      the only Backdoor, it ends the game exactly if somebody has the tokens, and otherwise the
      next round is dealt to all seats with the winner to start. */
  lemma RoundEndsFairly(s: State, turn: Turn, t: State, b: State) returns (w: PlayerId)
    requires Inv(s) && LegalStep(s, turn, t) && !PlaysDebugger(s, turn.move)
    requires b == Handed(s, turn.move) && RoundIsOver(b)
    ensures forall p :: TakesRound(b, p) <==> p == w
    ensures t.roundWinner == Some(w) && t.players == s.players && RoundPaid(s, b, t) && t.lastBonus == b.backdoor
    ensures |s.players| in TOKEN_TARGETS && GameEndsAtTarget(t, TOKEN_TARGETS[|s.players|])
    ensures RoundFollows(s.round, t, turn.deal, w)
  {
    HandedKeepsTable(s, turn.move, b);
    OverIffNotContinues(b);
    var e := EndIsScored(s, turn, t, b);
    w := ScoringIsFair(b, e, turn.deal, t);
  }

  lemma HandedKeepsTable(s: State, m: Move, b: State)
    requires Accepted(s, m) && !PlaysDebugger(s, m) && b == Handed(s, m)
    ensures SameTable(s, b)
  {
  }

  lemma TargetIs(n: nat)
    requires 2 <= n <= 5
    ensures n in TOKEN_TARGETS && TOKEN_TARGETS[n] == TokensToWin(n)
  {
  }

  lemma ScoringIsFair(b: State, e: State, deal: seq<Card>, t: State) returns (w: PlayerId)
    requires Scorable(e) && ScoredAlike(b, e) && |deal| == DECK_SIZE && t == ResolveRound(e, deal)
    ensures forall p :: TakesRound(b, p) <==> p == w
    ensures t.roundWinner == Some(w) && t.players == b.players && RoundPaid(b, b, t) && t.lastBonus == b.backdoor
    ensures |b.players| in TOKEN_TARGETS && GameEndsAtTarget(t, TOKEN_TARGETS[|b.players|])
    ensures RoundFollows(b.round, t, deal, w)
  {
    WinnerTakes(e);
    w := RoundWinner(e).value;
    TakersAre(b, e, w);
    ResolvePays(e, deal, t, w);
    TokensPaid(b, e, t);
    TargetIs(|e.players|);
    EndsAtTarget(t, e.players, RoundTokens(e), TOKEN_TARGETS[|e.players|]);
  }

  // ---------------------------------------------------------------------------
  // While the round goes on
  // ---------------------------------------------------------------------------

  /** The turn goes to `next`, who draws the top card and is no longer protected; all else stays. */
  ghost predicate TurnPassed(b: State, t: State, next: PlayerId) {
    && StillIn(b, next) && next != b.current && b.current in b.players && t.current == next
    && (forall q :: StillIn(b, q) && q != b.current ==>
          Offset(b.players, b.current, next) <= Offset(b.players, b.current, q))
    && b.deck != [] && t.deck == b.deck[1..]
    && (forall q :: Hand(t, q) == Hand(b, q) + if q == next then [b.deck[0]] else [])
    && (forall q :: q in t.protected <==> q in b.protected && q != next)
    && t == b.(current := t.current, deck := t.deck, hands := t.hands, protected := t.protected)
  }

  lemma PassingPasses(b: State, next: PlayerId, t: State)
    requires Settled(b) && RoundContinues(b) && next == NextActive(b, b.current)
    requires t == DrawCard(PassTurn(b, next), next)
    ensures TurnPassed(b, t, next)
  {
    NextIsNearestSeat(b.players, b.eliminated, b.current, next);
    WithoutAllMembers(b.protected, [next]);
  }

  /** For every legal move after which the round goes on. */
  lemma TurnPassesFairly(s: State, turn: Turn, t: State, b: State)
    requires Inv(s) && LegalStep(s, turn, t) && !PlaysDebugger(s, turn.move)
    requires b == Handed(s, turn.move) && !RoundIsOver(b)
    ensures TurnPassed(b, t, t.current)
  {
    HandedKeepsTable(s, turn.move, b);
    OverIffNotContinues(b);
    if turn.move.card == PenaltyLose && turn.move.player != s.current {
      var e := OutsidePenaltyEnds(s, turn, t, b);
    } else {
      HandedSettles(s, turn, t, b);
      AdvanceCases(b, turn.deal);
      PassingPasses(b, NextActive(b, b.current), t);
    }
  }

  // ---------------------------------------------------------------------------
  // In every legal game
  // ---------------------------------------------------------------------------

  /** A game opens with a fresh deal, no tokens out and the first seat to start. */
  lemma GameOpensFresh(r: Game)
    ensures 2 <= |r.players| <= 5 && r.ss[0].players == r.players && |r.deal| == DECK_SIZE
    ensures FreshDeal(r.ss[0], r.deal, r.players[0])
    ensures r.ss[0].round == 1 && forall p :: p in r.players ==> p in r.ss[0].tokens && r.ss[0].tokens[p] == 0
  {
    assert LegalAt(r, 0);
    FirstState(r);
    DealIsFresh(NewGame(r.players), r.players[0], r.deal, r.ss[0]);
  }

  /** What a move does after its effect, in every legal game: nothing after a Debugger, else the
      round ends or the turn passes. */
  lemma GameGoesOn(r: Game, i: nat, s: State, m: Move, b: State, t: State)
    requires i < |r.ts| && s == r.ss[i] && m == r.ts[i].move && t == r.ss[i + 1] && b == Handed(s, m)
    ensures PlaysDebugger(s, m) ==> t == b
    ensures !PlaysDebugger(s, m) && !RoundIsOver(b) ==> TurnPassed(b, t, t.current)
    ensures !PlaysDebugger(s, m) && RoundIsOver(b) ==>
              && |t.players| <= 5 && t.roundWinner.Some? && TakesRound(b, t.roundWinner.value)
              && RoundPaid(s, b, t) && |r.ts[i].deal| == DECK_SIZE && RoundFollows(s.round, t, r.ts[i].deal, t.roundWinner.value)
              && |s.players| in TOKEN_TARGETS && GameEndsAtTarget(t, TOKEN_TARGETS[|s.players|])
  {
    RunKeeps(r, i);
    assert LegalAt(r, i + 1);
    if !PlaysDebugger(s, m) {
      if RoundIsOver(b) {
        var w := RoundEndsFairly(s, r.ts[i], t, b);
      } else {
        TurnPassesFairly(s, r.ts[i], t, b);
      }
    }
  }
}
