/** The engine as it runs: one table whose data is rewritten key by key, with the engine's
    own loops. Every method is proved against the rule function it carries out. */
module RootAccessTable {
  import opened RootAccessCards
  import opened RootAccessEngine
  import opened RootAccessInvariant

  /** One more scanned element at the end of a prefix. */
  lemma {:induction false} WithoutSnoc(ps: seq<PlayerId>, p: PlayerId, gone: seq<PlayerId>)
    ensures Without(ps + [p], gone) == Without(ps, gone) + if p in gone then [] else [p]
  {
    if ps == [] {
      assert [p][1..] == [];
    } else {
      WithoutSnoc(ps[1..], p, gone);
      assert (ps + [p])[1..] == ps[1..] + [p];
    }
  }

  lemma {:induction false} PileValueSnoc(cards: seq<Card>, c: Card)
    ensures PileValue(cards + [c]) == PileValue(cards) + Value(c)
  {
    if cards == [] {
      assert [c][1..] == [];
    } else {
      PileValueSnoc(cards[1..], c);
      assert (cards + [c])[1..] == cards[1..] + [c];
    }
  }

  lemma {:induction false} RemoveFirstSkips(a: seq<Card>, b: seq<Card>, c: Card)
    ensures RemoveFirst(a + b, c) == if c in a then RemoveFirst(a, c) + b else a + RemoveFirst(b, c)
  {
    if a == [] {
      assert a + b == b;
    } else {
      var rest := a[1..];
      assert (a + b)[1..] == rest + b && (a + b)[0] == a[0];
      RemoveFirstSkips(rest, b, c);
      FirstOrRest(a[0], rest, a, c);
    }
  }

  lemma FirstOrRest(x: Card, rest: seq<Card>, a: seq<Card>, c: Card)
    requires a == [x] + rest
    ensures c in a <==> c == x || c in rest
  {
  }

  lemma {:induction false} RemoveFirstAbsent(a: seq<Card>, c: Card)
    requires c !in a
    ensures RemoveFirst(a, c) == a
  {
    if a != [] { RemoveFirstAbsent(a[1..], c); }
  }

  lemma {:induction false} DiscardAllSnoc(s: State, p: PlayerId, cards: seq<Card>, c: Card)
    ensures DiscardAll(s, p, cards + [c]) == AppendDiscard(DiscardAll(s, p, cards), p, c)
    decreases |cards|
  {
    if cards == [] {
      assert [c][1..] == [];
    } else {
      DiscardAllSnoc(AppendDiscard(s, p, cards[0]), p, cards[1..], c);
      assert (cards + [c])[1..] == cards[1..] + [c];
    }
  }

  class Table {
    var data: State

    constructor (s: State)
      ensures data == s
    {
      data := s;
    }

    // -------------------------------------------------------------------------
    // Reading
    // -------------------------------------------------------------------------

    method ActivePlayers() returns (active: seq<PlayerId>)
      ensures active == Active(data)
    {
      active := [];
      for i := 0 to |data.players|
        invariant active == Without(data.players[..i], data.eliminated)
      {
        var id := data.players[i];
        WithoutSnoc(data.players[..i], id, data.eliminated);
        assert data.players[..i + 1] == data.players[..i] + [id];
        if id !in data.eliminated {
          active := active + [id];
        }
      }
      assert data.players[..|data.players|] == data.players;
    }

    /** The first loop of `nextActivePlayer`: the seat of `from`, or 0. */
    method FindSeat(from: PlayerId) returns (seat: nat)
      ensures seat == SeatOf(data.players, from)
    {
      for i := 0 to |data.players|
        invariant from !in data.players[..i]
      {
        if data.players[i] == from { return i; }
      }
      return 0;
    }

    method NextActivePlayer(from: PlayerId) returns (next: PlayerId)
      requires 0 < |data.players|
      ensures next == NextActive(data, from)
    {
      var active := ActivePlayers();
      if active == [] { return from; }
      var seat := FindSeat(from);
      WithoutAllMembers(data.players, data.eliminated);
      for step := 1 to |data.players| + 1
        invariant Walk(data.players, data.eliminated, seat, step) == Walk(data.players, data.eliminated, seat, 1)
      {
        var candidate := data.players[(seat + step) % |data.players|];
        if candidate in active { return candidate; }
      }
      return active[0];
    }

    method HighestHandWinner(active: seq<PlayerId>) returns (best: Option<PlayerId>)
      ensures best == BestOf(data, active, |active|)
    {
      best := None;
      var bestHand: int, bestPile: int := -1, -1;
      for i := 0 to |active|
        invariant best == BestOf(data, active, i)
        invariant best.None? ==> i == 0 && bestHand == -1 && bestPile == -1
        invariant best.Some? ==> bestHand == HandValue(data, best.value) && bestPile == PileValue(Pile(data, best.value))
      {
        var id := active[i];
        var hand, pile := Hand(data, id), Pile(data, id);
        var handVal := 0;
        if |hand| > 0 { handVal := Value(hand[0]); }
        var pileVal := 0;
        for j := 0 to |pile|
          invariant pileVal == PileValue(pile[..j])
        {
          PileValueSnoc(pile[..j], pile[j]);
          assert pile[..j + 1] == pile[..j] + [pile[j]];
          pileVal := pileVal + Value(pile[j]);
        }
        assert pile[..|pile|] == pile;
        if handVal > bestHand || (handVal == bestHand && pileVal > bestPile) {
          best, bestHand, bestPile := Some(id), handVal, pileVal;
        }
      }
    }

    // -------------------------------------------------------------------------
    // Rewriting single keys
    // -------------------------------------------------------------------------

    method RemoveFromHand(p: PlayerId, c: Card)
      modifies this
      ensures data == SetHand(old(data), p, RemoveFirst(Hand(old(data), p), c))
    {
      var hand := Hand(data, p);
      var kept: seq<Card> := [];
      var removed := false;
      for i := 0 to |hand|
        invariant data == old(data)
        invariant removed == (c in hand[..i])
        invariant kept == RemoveFirst(hand[..i], c)
      {
        assert hand[..i + 1] == hand[..i] + [hand[i]];
        RemoveFirstSkips(hand[..i], [hand[i]], c);
        if c !in hand[..i] { RemoveFirstAbsent(hand[..i], c); }
        if !removed && hand[i] == c {
          removed := true;
        } else {
          kept := kept + [hand[i]];
        }
      }
      assert hand[..|hand|] == hand;
      data := data.(hands := data.hands[p := kept]);
    }

    method AddDiscard(p: PlayerId, c: Card)
      modifies this
      ensures data == AppendDiscard(old(data), p, c)
    {
      data := data.(piles := data.piles[p := Pile(data, p) + [c]]);
      data := data.(log := data.log + [Discard(p, c)]);
    }

    method EliminatePlayer(p: PlayerId)
      modifies this
      ensures data == Eliminate(old(data), p)
    {
      data := data.(eliminated := AppendUnique(data.eliminated, p));
      var hand := Hand(data, p);
      ghost var marked := data;
      for i := 0 to |hand|
        invariant data == DiscardAll(marked, p, hand[..i])
      {
        DiscardAllSnoc(marked, p, hand[..i], hand[i]);
        assert hand[..i + 1] == hand[..i] + [hand[i]];
        AddDiscard(p, hand[i]);
      }
      assert hand[..|hand|] == hand;
      data := data.(hands := data.hands[p := []]);
      ghost var emptied := data;
      for i := 0 to |hand|
        invariant data == if Backdoor in hand[..i] then emptied.(backdoor := AppendUnique(emptied.backdoor, p)) else emptied
      {
        assert hand[..i + 1] == hand[..i] + [hand[i]];
        if hand[i] == Backdoor {
          data := data.(backdoor := AppendUnique(data.backdoor, p));
        }
      }
    }

    method Draw(p: PlayerId) returns (ok: bool)
      modifies this
      ensures ok == (old(data).deck != [])
      ensures data == DrawCard(old(data), p)
    {
      if data.deck == [] { return false; }
      var card := data.deck[0];
      data := data.(deck := data.deck[1..]);
      data := data.(hands := data.hands[p := Hand(data, p) + [card]]);
      return true;
    }

    // -------------------------------------------------------------------------
    // Rounds
    // -------------------------------------------------------------------------

    method Deal(first: PlayerId, deal: seq<Card>)
      requires |deal| == DECK_SIZE && |data.players| <= 5
      modifies this
      ensures data == DealRound(old(data), first, deal)
    {
      var deck := deal[1..];
      var faceUp: seq<Card> := [];
      if |data.players| == 2 {
        faceUp := deck[..3];
        deck := deck[3..];
      }
      ghost var rest := deck;
      assert rest == deal[1 + |faceUp|..];
      var hands: map<PlayerId, seq<Card>> := map[];
      for i := 0 to |data.players|
        invariant data == old(data)
        invariant deck == rest[i..]
        invariant hands == DealHands(data.players, rest, i)
      {
        hands := hands[data.players[i] := [deck[0]]];
        deck := deck[1..];
      }
      LayOut(deal[0], faceUp, hands, deck, first);
      assert data == Dealt(old(data), first, deal);
      var drawn := Draw(first);
    }

    /** The keys that a deal writes. */
    method LayOut(faceDown: Card, faceUp: seq<Card>, hands: map<PlayerId, seq<Card>>, deck: seq<Card>, first: PlayerId)
      modifies this
      ensures data == old(data).(deck := deck, hands := hands, faceDown := Some(faceDown), faceUp := faceUp, eliminated := [],
                                 protected := [], backdoor := [], piles := map[], log := [], phase := Playing, current := first)
    {
      data := data.(deck := deck, hands := hands, faceDown := Some(faceDown), faceUp := faceUp);
      data := data.(eliminated := [], protected := [], backdoor := [], piles := map[], log := []);
      data := data.(phase := Playing, current := first);
    }

    /** The first half of `resolveRound`: pay the winner and the Backdoor bonus. */
    method Score() returns (winner: Option<PlayerId>)
      modifies this
      ensures winner == RoundWinner(old(data)) && data == Scored(old(data))
    {
      var active := ActivePlayers();
      if |active| == 1 {
        winner := Some(active[0]);
      } else {
        winner := HighestHandWinner(active);
      }
      var tokens := data.tokens;
      if |data.backdoor| == 1 { tokens := Credit(tokens, data.backdoor[0]); }
      if winner.Some? { tokens := Credit(tokens, winner.value); }
      data := data.(tokens := tokens);
      data := data.(roundWinner := winner, lastBonus := data.backdoor);
    }

    method FindChampion(target: nat) returns (champion: Option<PlayerId>)
      ensures champion == FirstWith(data.players, data.tokens, target)
    {
      for i := 0 to |data.players|
        invariant FirstWith(data.players, data.tokens, target) == FirstWith(data.players[i..], data.tokens, target)
      {
        var id := data.players[i];
        if id in data.tokens && data.tokens[id] >= target { return Some(id); }
        assert data.players[i..][1..] == data.players[i + 1..];
      }
      return None;
    }

    method Resolve(deal: seq<Card>)
      requires |deal| == DECK_SIZE && 0 < |data.players| <= 5
      modifies this
      ensures data == ResolveRound(old(data), deal)
    {
      var winner := Score();
      var target := data.toWin;
      if target == 0 { target := TokensToWin(|data.players|); }
      var champion := FindChampion(target);
      if champion.Some? {
        data := data.(gameWinner := Some(champion.value));
        data := data.(phase := GameOver, current := champion.value);
      } else {
        data := data.(round := data.round + 1);
        assert data == RoundScored(old(data));
        var starter := winner.GetOr(data.players[0]);
        assert starter == Starter(old(data));
        Deal(starter, deal);
      }
    }

    method Advance(deal: seq<Card>)
      requires |deal| == DECK_SIZE && 0 < |data.players| <= 5
      modifies this
      ensures data == AdvanceTurn(old(data), deal)
    {
      var active := ActivePlayers();
      if |active| <= 1 {
        Resolve(deal);
        return;
      }
      var next := NextActivePlayer(data.current);
      var remaining: seq<PlayerId> := [];
      for i := 0 to |data.protected|
        invariant data == old(data)
        invariant remaining == Without(data.protected[..i], [next])
      {
        WithoutSnoc(data.protected[..i], data.protected[i], [next]);
        assert data.protected[..i + 1] == data.protected[..i] + [data.protected[i]];
        if data.protected[i] != next { remaining := remaining + [data.protected[i]]; }
      }
      assert data.protected[..|data.protected|] == data.protected;
      data := data.(protected := remaining);
      data := data.(current := next);
      if |Hand(data, next)| < 2 {
        var ok := Draw(next);
        if !ok { Resolve(deal); }
      }
    }

    // -------------------------------------------------------------------------
    // Moves
    // -------------------------------------------------------------------------

    method Reboot(target: PlayerId)
      modifies this
      ensures data == ApplyReboot(old(data), target)
    {
      var hand := Hand(data, target);
      if hand == [] { return; }
      AddDiscard(target, hand[0]);
      data := data.(hands := data.hands[target := []]);
      if hand[0] == Root {
        EliminatePlayer(target);
        return;
      }
      if data.deck == [] {
        if data.faceDown.Some? {
          data := data.(hands := data.hands[target := [data.faceDown.value]]);
          data := data.(faceDown := None);
        }
        return;
      }
      var card := data.deck[0];
      data := data.(deck := data.deck[1..]);
      data := data.(hands := data.hands[target := [card]]);
    }

    method ShowChoices(p: PlayerId)
      modifies this
      ensures data == ApplyDebugger(old(data), p)
    {
      var hand, deck := Hand(data, p), data.deck;
      var drawn: seq<Card> := [];
      var i := 0;
      while i < 2 && |deck| > 0
        invariant 0 <= i <= 2 && i <= |data.deck|
        invariant data == old(data)
        invariant drawn == data.deck[..i] && deck == data.deck[i..]
      {
        drawn := drawn + [deck[0]];
        deck := deck[1..];
        i := i + 1;
      }
      data := data.(deck := deck);
      data := data.(choices := hand + drawn);
      data := data.(hands := data.hands[p := []]);
      data := data.(phase := DebuggerPending);
    }

    method Effect(m: Move, c: Card)
      requires c != Debugger
      modifies this
      ensures data == CardEffect(old(data), m, c)
    {
      match c {
        case Root => EliminatePlayer(m.player);
        case Backdoor => data := data.(backdoor := AppendUnique(data.backdoor, m.player));
        case Firewall => data := data.(protected := AppendUnique(data.protected, m.player));
        case EncryptedKey =>
        case Reboot => Reboot(m.target.GetOr(m.player));
        case Ping =>
          if m.target.Some? {
            var hand := Hand(data, m.target.value);
            if |hand| > 0 && Known(hand[0]) == m.guess { EliminatePlayer(m.target.value); }
          }
        case Sniffer =>
          if m.target.Some? {
            var hand := Hand(data, m.target.value);
            var seen := if |hand| > 0 then Some(hand[0]) else None;
            data := data.(privateReveals := data.privateReveals[m.player := seen]);
          }
        case BufferOverflow =>
          if m.target.Some? && Hand(data, m.player) != [] && Hand(data, m.target.value) != [] {
            var mine, theirs := HandValue(data, m.player), HandValue(data, m.target.value);
            if mine < theirs {
              EliminatePlayer(m.player);
            } else if theirs < mine {
              EliminatePlayer(m.target.value);
            }
          }
        case Swap =>
          if m.target.Some? {
            var mine, theirs := Hand(data, m.player), Hand(data, m.target.value);
            data := data.(hands := data.hands[m.player := theirs][m.target.value := mine]);
          }
      }
    }

    /** `ApplyMove` on a validated move. */
    method Apply(m: Move, deal: seq<Card>)
      requires Accepted(data, m) && |deal| == DECK_SIZE && 0 < |data.players| <= 5
      modifies this
      ensures data == ApplyMove(old(data), m, deal)
    {
      if m.card == PenaltyLose {
        EliminatePlayer(m.player);
        Advance(deal);
      } else if data.phase == DebuggerPending {
        data := data.(hands := data.hands[m.player := [m.keep.card]]);
        data := data.(deck := data.deck + [m.ret[0].card, m.ret[1].card], choices := [], phase := Playing);
        Advance(deal);
      } else {
        var c := m.card.card;
        data := data.(privateReveals := map[]);
        RemoveFromHand(m.player, c);
        AddDiscard(m.player, c);
        if c == Debugger {
          ShowChoices(m.player);
        } else {
          Effect(m, c);
          Advance(deal);
        }
      }
    }
  }
}
