/** Showdowns: who wins when the deck runs out, and when every survivor shows their whole
    hand. */
module RootAccessShowdown {
  import opened RootAccessCards
  import opened RootAccessEngine
  import opened RootAccessInvariant
  import opened RootAccessRounds
  import opened RootAccessStep
  import opened RootAccessRuns

  lemma {:induction false} BestOfAgrees(b: State, next: PlayerId, ps: seq<PlayerId>, n: nat)
    requires n <= |ps|
    ensures BestOf(PassTurn(b, next), ps, n) == BestOf(b, ps, n)
  {
    if n != 0 { BestOfAgrees(b, next, ps, n - 1); }
  }

  lemma ResolveNamesWinner(s: State, deal: seq<Card>, t: State)
    requires 0 < |s.players| <= 5 && |deal| == DECK_SIZE && t == ResolveRound(s, deal)
    ensures t.roundWinner == RoundWinner(s)
  {
  }

  lemma ShowdownPicks(b: State, next: PlayerId, deal: seq<Card>, t: State)
    requires 0 < |b.players| <= 5 && 2 <= |Active(b)| && |deal| == DECK_SIZE && t == ResolveRound(PassTurn(b, next), deal)
    ensures t.roundWinner == BestOf(b, Active(b), |Active(b)|)
  {
    ResolveNamesWinner(PassTurn(b, next), deal, t);
    BestOfAgrees(b, next, Active(b), |Active(b)|);
  }

  /** The move leads to a showdown: two or more players are left on an empty deck. */
  predicate EndsInShowdown(s: State, m: Move) {
    && Accepted(s, m) && !PlaysDebugger(s, m)
    && 2 <= |Active(BeforeAdvance(s, m))| && BeforeAdvance(s, m).deck == []
  }

  /** A timeout penalty against somebody who is not on turn. */
  predicate BystanderPenalty(s: State, m: Move) { m.card == PenaltyLose && m.player != s.current }

  /** Every survivor holds exactly one card. */
  ghost predicate OneCardEach(b: State) {
    forall p :: p in Active(b) ==> |Hand(b, p)| == 1
  }

  lemma ShowdownResolves(s: State, turn: Turn, t: State, b: State)
    requires Inv(s) && LegalStep(s, turn, t) && EndsInShowdown(s, turn.move) && b == BeforeAdvance(s, turn.move)
    ensures 0 < |b.players| <= 5 && t == ResolveRound(PassTurn(b, NextActive(b, b.current)), turn.deal)
  {
    var m := turn.move;
    if BystanderPenalty(s, m) {
      OutsidePenaltyCases(s, m.player, b, turn.deal);
    } else {
      BeforeAdvanceSettles(s, m, b);
      AdvanceCases(b, turn.deal);
    }
  }

  lemma BystanderKeepsTwo(s: State, m: Move, b: State)
    requires OnTurn(s) && s.phase == Playing && BystanderPenalty(s, m) && b == Eliminate(s, m.player)
    ensures s.current in Active(b) && |Hand(b, s.current)| == 2
  {
    EliminateFrame(s, m.player, b);
    WithoutMembers(b.players, b.eliminated, s.current);
    assert |Hand(s, s.current)| == Due(s, s.current);
  }

  lemma SettledHasOneEach(b: State)
    requires Settled(b)
    ensures OneCardEach(b)
  {
    WithoutAllMembers(b.players, b.eliminated);
  }

  /** For every legal move that ends in a showdown: the round goes to the first seat that
      nobody outshines, and every survivor shows the one card they hold exactly unless the move
      was a penalty against a bystander, after which the player on turn still holds two. */
  lemma ShowdownIsFairIff(s: State, turn: Turn, t: State, b: State) returns (k: nat)
    requires Inv(s) && LegalStep(s, turn, t) && EndsInShowdown(s, turn.move) && b == BeforeAdvance(s, turn.move)
    ensures k < |Active(b)| && t.roundWinner == Some(Active(b)[k])
    ensures forall i :: 0 <= i < |Active(b)| ==> !Outshines(b, Active(b)[i], Active(b)[k])
    ensures forall i :: 0 <= i < k ==> Outshines(b, Active(b)[k], Active(b)[i])
    ensures OneCardEach(b) <==> !BystanderPenalty(s, turn.move)
    ensures BystanderPenalty(s, turn.move) ==> s.current in Active(b) && |Hand(b, s.current)| == 2
  {
    ShowdownResolves(s, turn, t, b);
    ShowdownPicks(b, NextActive(b, b.current), turn.deal, t);
    k := BestOfWins(b, Active(b), |Active(b)|);
    if BystanderPenalty(s, turn.move) {
      BystanderKeepsTwo(s, turn.move, b);
    } else {
      BeforeAdvanceSettles(s, turn.move, b);
      SettledHasOneEach(b);
    }
  }

  /** The same at every showdown of every legal game. */
  lemma ShowdownInGame(r: Game, i: nat, b: State) returns (k: nat)
    requires i < |r.ts| && EndsInShowdown(r.ss[i], r.ts[i].move) && b == BeforeAdvance(r.ss[i], r.ts[i].move)
    ensures k < |Active(b)| && r.ss[i + 1].roundWinner == Some(Active(b)[k])
    ensures forall j :: 0 <= j < |Active(b)| ==> !Outshines(b, Active(b)[j], Active(b)[k])
    ensures forall j :: 0 <= j < k ==> Outshines(b, Active(b)[k], Active(b)[j])
    ensures OneCardEach(b) <==> !BystanderPenalty(r.ss[i], r.ts[i].move)
  {
    RunKeeps(r, i);
    assert LegalAt(r, i + 1);
    k := ShowdownIsFairIff(r.ss[i], r.ts[i], r.ss[i + 1], b);
  }
}
