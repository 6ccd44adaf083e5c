/** Dealing, scoring and passing the turn keep the Root Access invariant. */
module RootAccessRounds {
  import opened RootAccessCards
  import opened RootAccessEngine
  import opened RootAccessInvariant

  // ---------------------------------------------------------------------------
  // Drawing and dealing
  // ---------------------------------------------------------------------------

  lemma DrawCards(s: State, p: PlayerId, c: Card)
    requires Distinct(s.players) && p in s.players && s.deck != []
    ensures CountOf(DrawCard(s, p), c) == CountOf(s, c)
    ensures SizeOf(DrawCard(s, p)) == SizeOf(s)
  {
    var top := s.deck[0];
    var hand := Hand(s, p) + [top];
    SetHandCards(s, p, hand, c);
    CopiesConcat(Hand(s, p), [top], c);
    CopiesCons(top, s.deck[1..], c);
    DeckAgree(SetHand(s, p, hand), s.deck[1..], c);
  }

  /** Changing only the deck changes the count by the deck's cards. */
  lemma DeckAgree(s: State, deck: seq<Card>, c: Card)
    ensures CountOf(s.(deck := deck), c) == CountOf(s, c) - Copies(s.deck, c) + Copies(deck, c)
    ensures SizeOf(s.(deck := deck)) == SizeOf(s) - |s.deck| + |deck|
  {
  }

  lemma DrawLedger(s: State, p: PlayerId)
    requires Distinct(s.players) && p in s.players && s.deck != [] && Ledger(s)
    ensures Ledger(DrawCard(s, p))
  {
    forall c ensures CountOf(DrawCard(s, p), c) == DeckCount(c) { DrawCards(s, p, c); }
    DrawCards(s, p, Ping);
    BooksAgree(s, DrawCard(s, p));
  }

  lemma {:induction false} DealHandsEach(players: seq<PlayerId>, cards: seq<Card>, n: nat)
    requires Distinct(players) && n <= |players| && n <= |cards|
    ensures forall p :: p in DealHands(players, cards, n) <==> p in players[..n]
    ensures forall p :: p in players ==> |CardsAt(DealHands(players, cards, n), p)| == if p in players[..n] then 1 else 0
  {
    if n != 0 {
      DealHandsEach(players, cards, n - 1);
      assert players[..n] == players[..n - 1] + [players[n - 1]];
    }
  }

  lemma {:induction false} DealHandsCards(players: seq<PlayerId>, cards: seq<Card>, n: nat, c: Card)
    requires Distinct(players) && n <= |players| && n <= |cards|
    ensures Tally(DealHands(players, cards, n), players, c) == Copies(cards[..n], c)
    ensures Volume(DealHands(players, cards, n), players) == n
  {
    if n == 0 {
      NothingOwned(players, c);
    } else {
      var before := DealHands(players, cards, n - 1);
      var p := players[n - 1];
      DealHandsCards(players, cards, n - 1, c);
      DealHandsEach(players, cards, n - 1);
      assert p in players && p !in players[..n - 1];
      TallyUpdate(before, players, p, [cards[n - 1]], c);
      VolumeUpdate(before, players, p, [cards[n - 1]]);
      assert CardsAt(before, p) == [];
      assert cards[..n] == cards[..n - 1] + [cards[n - 1]];
      CopiesConcat(cards[..n - 1], [cards[n - 1]], c);
    }
  }

  lemma DealtFrame(s: State, first: PlayerId, deal: seq<Card>, d: State)
    requires |deal| == DECK_SIZE && |s.players| <= 5 && d == Dealt(s, first, deal)
    ensures d.players == s.players && d.choices == s.choices && d.piles == map[] && d.faceDown == Some(deal[0])
    ensures |d.faceUp| <= 3 && d.faceUp == deal[1..1 + |d.faceUp|]
    ensures d.deck == deal[1 + |d.faceUp|..][|s.players|..]
    ensures d.hands == DealHands(s.players, deal[1 + |d.faceUp|..], |s.players|)
  {
  }

  /** However the deck is cut, the parts make up the deck. */
  lemma CutCounts(d: State, deal: seq<Card>, k: nat, c: Card)
    requires Distinct(d.players) && 1 + k + |d.players| <= |deal|
    requires d.choices == [] && d.piles == map[] && d.faceDown == Some(deal[0]) && d.faceUp == deal[1..1 + k]
    requires d.deck == deal[1 + k..][|d.players|..]
    requires d.hands == DealHands(d.players, deal[1 + k..], |d.players|)
    ensures CountOf(d, c) == Copies(deal, c) && SizeOf(d) == |deal|
  {
    DealHandsCards(d.players, deal[1 + k..], |d.players|, c);
    NothingOwned(d.players, c);
    CutCopies(deal, k, |d.players|, c);
  }

  lemma DealtCards(s: State, first: PlayerId, deal: seq<Card>, c: Card)
    requires |deal| == DECK_SIZE && |s.players| <= 5 && Distinct(s.players) && s.choices == []
    ensures CountOf(Dealt(s, first, deal), c) == Copies(deal, c)
    ensures SizeOf(Dealt(s, first, deal)) == DECK_SIZE
  {
    var d := Dealt(s, first, deal);
    DealtFrame(s, first, deal, d);
    CutCounts(d, deal, |d.faceUp|, c);
  }

  /** Cutting a deck into face-down card, face-up cards, hands and rest keeps the count. */
  lemma CutCopies(deal: seq<Card>, k: nat, n: nat, c: Card)
    requires 1 + k + n <= |deal|
    ensures Copies(deal, c) == Copies([deal[0]], c) + Copies(deal[1..1 + k], c)
                               + Copies(deal[1 + k..][..n], c) + Copies(deal[1 + k..][n..], c)
  {
    var up, rest := deal[1..1 + k], deal[1 + k..];
    assert deal == [deal[0]] + up + rest;
    CopiesConcat([deal[0]], up, c);
    CopiesConcat([deal[0]] + up, rest, c);
    assert rest == rest[..n] + rest[n..];
    CopiesConcat(rest[..n], rest[n..], c);
  }

  lemma DealtLedger(s: State, first: PlayerId, deal: seq<Card>)
    requires FullDeck(deal) && |s.players| <= 5 && Distinct(s.players) && s.choices == []
    ensures Ledger(Dealt(s, first, deal))
  {
    var t := Dealt(s, first, deal);
    forall c ensures CountOf(t, c) == DeckCount(c) {
      DealtCards(s, first, deal, c);
    }
    DealtCards(s, first, deal, Ping);
    NothingOwned(s.players, Ping);
  }

  lemma DealtSeats(s: State, first: PlayerId, deal: seq<Card>)
    requires |deal| == DECK_SIZE && 2 <= |s.players| <= 5 && Distinct(s.players) && first in s.players
    ensures Dealt(s, first, deal).deck != []
    ensures Roles(Dealt(s, first, deal)) && Active(Dealt(s, first, deal)) == s.players
    ensures forall p :: p in s.players ==> |Hand(Dealt(s, first, deal), p)| == 1
  {
    var d := Dealt(s, first, deal);
    DealHandsEach(s.players, deal[1 + |d.faceUp|..], |s.players|);
    assert s.players[..|s.players|] == s.players;
    WithoutLength(s.players, []);
  }

  /** Drawing a second card puts an active player with one card on turn. */
  lemma DrawStartsTurn(s: State, p: PlayerId, t: State)
    requires Seats(s) && OpenScore(s) && Ledger(s) && Roles(s)
    requires s.phase == Playing && s.choices == [] && s.deck != [] && s.faceDown.Some?
    requires 2 <= |Active(s)| && p == s.current && p !in s.eliminated && p !in s.protected
    requires forall q :: q in s.players ==> |Hand(s, q)| == if q in s.eliminated then 0 else 1
    requires t == DrawCard(s, p)
    ensures OnTurn(t) && t.phase == Playing
  {
    DrawLedger(s, p);
    forall q | q in t.players ensures |Hand(t, q)| == Due(t, q) {
      assert |Hand(s, q)| == if q in s.eliminated then 0 else 1;
    }
  }

  /** A fresh deal is a position with `first` on turn. */
  lemma DealKeeps(s: State, first: PlayerId, deal: seq<Card>, t: State)
    requires Seats(s) && OpenScore(s) && s.choices == [] && first in s.players
    requires FullDeck(deal)
    requires t == DealRound(s, first, deal)
    ensures OnTurn(t) && t.phase == Playing
  {
    DealtLedger(s, first, deal);
    DealtSeats(s, first, deal);
    DrawStartsTurn(Dealt(s, first, deal), first, t);
  }

  // ---------------------------------------------------------------------------
  // Scoring
  // ---------------------------------------------------------------------------

  lemma {:induction false} SumCredit(tokens: map<PlayerId, nat>, ps: seq<PlayerId>, p: PlayerId)
    requires Distinct(ps) && forall q :: q in ps ==> q in tokens
    requires p in tokens
    ensures Sum(Credit(tokens, p), ps) == Sum(tokens, ps) + if p in ps then 1 else 0
  {
    if ps != [] {
      SumCredit(tokens, ps[1..], p);
      if ps[0] == p { assert p !in ps[1..]; }
      assert p in ps <==> p == ps[0] || p in ps[1..];
    }
  }

  /** The place of the card that `p` shows; no card counts as the lowest. */
  ghost function Shown(b: State, p: PlayerId): nat {
    if Hand(b, p) == [] then 0 else Place(Hand(b, p)[0])
  }

  /** `p` shows a higher card than `q`, or the same card and has the richer pile. */
  ghost predicate Outshines(b: State, p: PlayerId, q: PlayerId) {
    || Shown(b, p) > Shown(b, q)
    || (Shown(b, p) == Shown(b, q) && Worth(Pile(b, p)) > Worth(Pile(b, q)))
  }

  lemma {:induction false} WorthIsPileValue(cards: seq<Card>)
    ensures Worth(cards) == PileValue(cards)
  {
    if cards != [] {
      ValueIsPlace(cards[0]);
      WorthIsPileValue(cards[1..]);
    }
  }

  lemma BeatsIsOutshining(b: State, p: PlayerId, q: PlayerId)
    ensures Beats(b, p, q) <==> Outshines(b, p, q)
  {
    if Hand(b, p) != [] { ValueIsPlace(Hand(b, p)[0]); }
    if Hand(b, q) != [] { ValueIsPlace(Hand(b, q)[0]); }
    WorthIsPileValue(Pile(b, p));
    WorthIsPileValue(Pile(b, q));
  }

  /** The showdown winner is a contender whom nobody outshines, and the earliest such seat. */
  lemma {:induction false} BestOfWins(s: State, ps: seq<PlayerId>, n: nat) returns (k: nat)
    requires 0 < n <= |ps|
    ensures k < n && BestOf(s, ps, n) == Some(ps[k])
    ensures forall i :: 0 <= i < n ==> !Outshines(s, ps[i], ps[k])
    ensures forall i :: 0 <= i < k ==> Outshines(s, ps[k], ps[i])
  {
    if n == 1 {
      assert BestOf(s, ps, 0).None?;
      k := 0;
    } else {
      k := BestOfWins(s, ps, n - 1);
      BeatsIsOutshining(s, ps[n - 1], ps[k]);
      if Outshines(s, ps[n - 1], ps[k]) { k := n - 1; }
    }
  }

  lemma WinnerIsActive(s: State)
    requires 1 <= |Active(s)|
    ensures RoundWinner(s).Some? && RoundWinner(s).value in s.players && RoundWinner(s).value !in s.eliminated
  {
    WithoutAllMembers(s.players, s.eliminated);
    var active := Active(s);
    if |active| == 1 {
      assert active[0] in active;
    } else {
      var k := BestOfWins(s, active, |active|);
      assert active[k] in active;
    }
  }

  /** What the round pays to `p`: one token for winning it, one for the only Backdoor. */
  function Share(s: State, p: PlayerId): nat {
    (if RoundWinner(s) == Some(p) then 1 else 0) + (if s.backdoor == [p] then 1 else 0)
  }

  /** A round pays one token to its winner and at most one Backdoor bonus, to nobody else. */
  lemma RoundPays(s: State)
    requires Payable(s)
    ensures RoundWinner(s).Some?
    ensures forall p :: p in s.players <==> p in RoundTokens(s)
    ensures Sum(RoundTokens(s), s.players) == Sum(s.tokens, s.players) + if |s.backdoor| == 1 then 2 else 1
    ensures forall p :: p in s.players ==> RoundTokens(s)[p] == s.tokens[p] + Share(s, p)
  {
    WinnerIsActive(s);
    var w := RoundWinner(s).value;
    var bonus := if |s.backdoor| == 1 then Credit(s.tokens, s.backdoor[0]) else s.tokens;
    if |s.backdoor| == 1 {
      assert s.backdoor[0] in s.backdoor;
      SumCredit(s.tokens, s.players, s.backdoor[0]);
      assert s.backdoor == [s.backdoor[0]];
    }
    SumCredit(bonus, s.players, w);
  }

  lemma ChampionKeeps(s: State, champion: PlayerId, t: State)
    requires Scorable(s) && FirstWith(s.players, RoundTokens(s), Target(s)) == Some(champion)
    requires t == Crown(Scored(s), champion)
    ensures Inv(t) && t.phase == GameOver
  {
    RoundPays(s);
    OpenSumCapped(s);
    LedgerAgree(s, t);
  }

  /** The score with which the next round is dealt, and who starts it. */
  lemma NextRoundScore(s: State)
    requires Payable(s) && FirstWith(s.players, RoundTokens(s), Target(s)) == None
    ensures Seats(RoundScored(s)) && OpenScore(RoundScored(s)) && RoundScored(s).choices == []
    ensures Starter(s) in s.players && RoundScored(s).players == s.players
  {
    RoundPays(s);
    WinnerIsActive(s);
  }

  lemma NextRoundKeeps(s: State, deal: seq<Card>, t: State)
    requires Payable(s) && FirstWith(s.players, RoundTokens(s), Target(s)) == None
    requires FullDeck(deal)
    requires t == NextRound(s, deal)
    ensures Inv(t) && t.phase == Playing
  {
    NextRoundScore(s);
    DealKeeps(RoundScored(s), Starter(s), deal, t);
  }

  /** Scoring a round leads to a finished game or to a new round, either way in good order. */
  lemma ResolveKeeps(s: State, deal: seq<Card>, t: State)
    requires Scorable(s) && FullDeck(deal)
    requires t == ResolveRound(s, deal)
    ensures Inv(t) && t.phase != DebuggerPending
  {
    var champion := FirstWith(s.players, RoundTokens(s), Target(s));
    if champion.Some? {
      ChampionKeeps(s, champion.value, t);
    } else {
      NextRoundKeeps(s, deal, t);
    }
  }

  // ---------------------------------------------------------------------------
  // Passing the turn
  // ---------------------------------------------------------------------------

  /** Passing the turn lifts the next player's protection and draws a card for them. */
  lemma PassAndDrawKeeps(s: State, t: State)
    requires Settled(s) && RoundContinues(s)
    requires t == DrawCard(PassTurn(s, NextActive(s, s.current)), NextActive(s, s.current))
    ensures OnTurn(t) && t.phase == Playing
  {
    var next := NextActive(s, s.current);
    NextIsNearest(s, s.current);
    var passed := PassTurn(s, next);
    LedgerAgree(s, passed);
    WithoutAllMembers(s.protected, [next]);
    assert forall q :: q in s.players ==> Hand(passed, q) == Hand(s, q);
    DrawStartsTurn(passed, next, t);
  }

  /** The round goes on exactly when two players are left and the deck is not empty. */
  predicate RoundContinues(s: State) { 2 <= |Active(s)| && s.deck != [] }

  /** What `advanceTurn` does with a settled state. */
  lemma AdvanceCases(s: State, deal: seq<Card>)
    requires Settled(s) && |deal| == DECK_SIZE
    ensures var t, next := AdvanceTurn(s, deal), NextActive(s, s.current);
            if |Active(s)| <= 1 then t == ResolveRound(s, deal)
            else if s.deck == [] then t == ResolveRound(PassTurn(s, next), deal)
            else t == DrawCard(PassTurn(s, next), next)
  {
    if 2 <= |Active(s)| {
      NextIsNearest(s, s.current);
      var next := NextActive(s, s.current);
      assert Hand(PassTurn(s, next), next) == Hand(s, next);
    }
  }

  /** A state that is scored after the turn marker moved is as good as before. */
  lemma PassScorable(s: State, next: PlayerId)
    requires Scorable(s)
    ensures Scorable(PassTurn(s, next))
  {
    LedgerAgree(s, PassTurn(s, next));
  }

  /** Passing the turn in good order leads to a state in good order. */
  lemma AdvanceKeeps(s: State, deal: seq<Card>, t: State)
    requires Settled(s) && FullDeck(deal)
    requires t == AdvanceTurn(s, deal)
    ensures Inv(t) && t.phase != DebuggerPending
  {
    AdvanceCases(s, deal);
    if |Active(s)| <= 1 {
      ResolveKeeps(s, deal, t);
    } else if s.deck == [] {
      PassScorable(s, NextActive(s, s.current));
      ResolveKeeps(PassTurn(s, NextActive(s, s.current)), deal, t);
    } else {
      PassAndDrawKeeps(s, t);
    }
  }
}
