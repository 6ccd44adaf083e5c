/** Every card effect turns a position just after the card was played into one from which
    the turn can pass. */
module RootAccessEffects {
  import opened RootAccessCards
  import opened RootAccessEngine
  import opened RootAccessInvariant

  /** The played card lies on the pile and its effect is still to come. */
  ghost predicate Mid(s: State) {
    && Settled(s)
    && 2 <= |Active(s)|
    && s.current !in s.eliminated && s.current !in s.protected
    && s.faceDown.Some?
  }

  /** A legal target of the current player's card. */
  predicate Targetable(s: State, p: PlayerId) {
    p in s.players && p !in s.eliminated && p !in s.protected
  }

  // ---------------------------------------------------------------------------
  // Playing the card
  // ---------------------------------------------------------------------------

  function Hushed(s: State): State { s.(privateReveals := map[]) }

  lemma PlayCardCards(s: State, c: Card, d: Card)
    requires Distinct(s.players) && s.current in s.players && c in Hand(s, s.current)
    ensures CountOf(PlayCard(s, s.current, c), d) == CountOf(s, d)
    ensures SizeOf(PlayCard(s, s.current, c)) == SizeOf(s)
  {
    var p := s.current;
    var hand := RemoveFirst(Hand(s, p), c);
    CountAgree(s, Hushed(s), d);
    SetHandCards(Hushed(s), p, hand, d);
    RemoveFirstPlays(Hand(s, p), c, d);
    RemoveFirstLength(Hand(s, p), c);
    AppendDiscardCards(SetHand(Hushed(s), p, hand), p, c, d);
    CopiesCons(c, [], d);
  }

  lemma PlayCardLedger(s: State, c: Card)
    requires Distinct(s.players) && s.current in s.players && c in Hand(s, s.current) && Ledger(s)
    ensures Ledger(PlayCard(s, s.current, c))
  {
    var t := PlayCard(s, s.current, c);
    forall d ensures CountOf(t, d) == DeckCount(d) { PlayCardCards(s, c, d); }
    PlayCardCards(s, c, Ping);
    var hushed := SetHand(Hushed(s), s.current, RemoveFirst(Hand(s, s.current), c));
    BooksAgree(s, hushed);
    AppendDiscardBooks(hushed, s.current, c);
  }

  lemma PlayCardMid(s: State, c: Card, t: State)
    requires OnTurn(s) && s.phase == Playing && c in Hand(s, s.current)
    requires t == PlayCard(s, s.current, c)
    ensures Mid(t) && c in Pile(t, s.current)
  {
    PlayCardLedger(s, c);
    PlayCardHands(s, c, t);
  }

  lemma PlayCardHands(s: State, c: Card, t: State)
    requires Roles(s) && s.current !in s.eliminated && s.phase == Playing && c in Hand(s, s.current)
    requires forall p :: p in s.players ==> |Hand(s, p)| == Due(s, p)
    requires t == PlayCard(s, s.current, c)
    ensures Roles(t)
    ensures forall p :: p in t.players ==> |Hand(t, p)| == if p in t.eliminated then 0 else 1
  {
    RemoveFirstLength(Hand(s, s.current), c);
    forall p | p in t.players ensures |Hand(t, p)| == if p in t.eliminated then 0 else 1 {
      assert |Hand(s, p)| == Due(s, p);
    }
  }

  // ---------------------------------------------------------------------------
  // Elimination
  // ---------------------------------------------------------------------------

  /** A position with two or more active players in which everyone but `p` holds the
      between-turns number of cards. */
  ghost predicate AlmostSettled(s: State, p: PlayerId) {
    && Seats(s) && OpenScore(s) && Ledger(s) && Roles(s)
    && s.phase == Playing && s.choices == []
    && 2 <= |Active(s)|
    && (forall q :: q in s.players && q != p ==> |Hand(s, q)| == if q in s.eliminated then 0 else 1)
    && (s.faceDown.None? ==> s.deck == [])
  }

  lemma EliminateSettles(s: State, p: PlayerId, t: State)
    requires AlmostSettled(s, p) && Targetable(s, p)
    requires t == Eliminate(s, p)
    ensures Settled(t)
  {
    EliminateLedger(s, p);
    EliminateFrame(s, p, t);
    EliminateActive(s, p);
    EliminateHands(s, p, t);
  }

  lemma EliminateHands(s: State, p: PlayerId, t: State)
    requires Roles(s) && Targetable(s, p)
    requires forall q :: q in s.players && q != p ==> |Hand(s, q)| == if q in s.eliminated then 0 else 1
    requires t.players == s.players && t.current == s.current && t.protected == s.protected
    requires t.eliminated == AppendUnique(s.eliminated, p) && t.hands == s.hands[p := []]
    ensures Roles(t)
    ensures forall q :: q in t.players ==> |Hand(t, q)| == if q in t.eliminated then 0 else 1
  {
    forall q | q in t.players ensures |Hand(t, q)| == if q in t.eliminated then 0 else 1 {
      if q != p { assert Hand(t, q) == Hand(s, q); }
    }
  }

  // ---------------------------------------------------------------------------
  // Reboot
  // ---------------------------------------------------------------------------

  /** The target's only card on the pile, the hand empty. */
  function Dumped(s: State, p: PlayerId): State
    requires Hand(s, p) != []
  {
    SetHand(AppendDiscard(s, p, Hand(s, p)[0]), p, [])
  }

  lemma DumpedCards(s: State, p: PlayerId, c: Card)
    requires Distinct(s.players) && p in s.players && |Hand(s, p)| == 1
    ensures CountOf(Dumped(s, p), c) == CountOf(s, c)
    ensures SizeOf(Dumped(s, p)) == SizeOf(s)
  {
    var card := Hand(s, p)[0];
    AppendDiscardCards(s, p, card, c);
    SetHandCards(AppendDiscard(s, p, card), p, [], c);
    assert Hand(s, p) == [card];
  }

  lemma DumpedLedger(s: State, p: PlayerId)
    requires Distinct(s.players) && p in s.players && |Hand(s, p)| == 1 && Ledger(s)
    ensures Ledger(Dumped(s, p))
  {
    AppendDiscardBooks(s, p, Hand(s, p)[0]);
    SetHandBooks(AppendDiscard(s, p, Hand(s, p)[0]), p, []);
    forall c ensures CountOf(Dumped(s, p), c) == DeckCount(c) { DumpedCards(s, p, c); }
    DumpedCards(s, p, Ping);
  }

  lemma DumpedAlmost(s: State, p: PlayerId, t: State)
    requires Mid(s) && Targetable(s, p)
    requires Hand(s, p) != [] && t == Dumped(s, p)
    ensures AlmostSettled(t, p) && Targetable(t, p) && Hand(t, p) == []
  {
    DumpedLedger(s, p);
    DumpedFrame(s, p, t);
    OneHandChanges(s, p, [], t);
  }

  /** A state whose hands differ for one seated player only keeps its roles. */
  lemma OneHandChanges(s: State, p: PlayerId, hand: seq<Card>, t: State)
    requires Roles(s) && p in s.players && SameTable(s, t) && t.protected == s.protected && t.eliminated == s.eliminated
    requires t.hands == s.hands[p := hand]
    ensures Roles(t) && Active(t) == Active(s) && Hand(t, p) == hand
    ensures forall q :: q != p ==> Hand(t, q) == Hand(s, q)
  {
  }

  lemma DumpedFrame(s: State, p: PlayerId, t: State)
    requires Hand(s, p) != [] && t == Dumped(s, p)
    ensures SameTable(s, t) && t.phase == s.phase && t.choices == s.choices
    ensures t.deck == s.deck && t.faceDown == s.faceDown && t.protected == s.protected && t.eliminated == s.eliminated
    ensures t.hands == s.hands[p := []]
  {
  }

  /** A fresh card for the target, from the deck or from under the table. */
  function Replaced(s: State, p: PlayerId, card: Card, deck: seq<Card>, faceDown: Option<Card>): State {
    SetHand(s, p, [card]).(deck := deck, faceDown := faceDown)
  }

  lemma ReplacedCards(s: State, p: PlayerId, card: Card, deck: seq<Card>, faceDown: Option<Card>, c: Card)
    requires Distinct(s.players) && p in s.players && Hand(s, p) == []
    requires || (s.deck == [card] + deck && faceDown == s.faceDown)
             || (deck == s.deck && s.faceDown == Some(card) && faceDown == None)
    ensures CountOf(Replaced(s, p, card, deck, faceDown), c) == CountOf(s, c)
    ensures SizeOf(Replaced(s, p, card, deck, faceDown)) == SizeOf(s)
  {
    SetHandCards(s, p, [card], c);
    CopiesCons(card, deck, c);
  }

  lemma ReplacedLedger(s: State, p: PlayerId, card: Card, deck: seq<Card>, faceDown: Option<Card>)
    requires Distinct(s.players) && p in s.players && Hand(s, p) == [] && Ledger(s)
    requires || (s.deck == [card] + deck && faceDown == s.faceDown)
             || (deck == s.deck && s.faceDown == Some(card) && faceDown == None)
    ensures Ledger(Replaced(s, p, card, deck, faceDown))
  {
    var t := Replaced(s, p, card, deck, faceDown);
    BooksAgree(s, t);
    forall c ensures CountOf(t, c) == DeckCount(c) { ReplacedCards(s, p, card, deck, faceDown, c); }
    ReplacedCards(s, p, card, deck, faceDown, Ping);
  }

  lemma ReplacedSettles(s: State, p: PlayerId, card: Card, deck: seq<Card>, faceDown: Option<Card>, t: State)
    requires AlmostSettled(s, p) && Targetable(s, p) && Hand(s, p) == [] && s.faceDown.Some?
    requires || (s.deck == [card] + deck && faceDown == s.faceDown)
             || (deck == s.deck == [] && s.faceDown == Some(card) && faceDown == None)
    requires t == Replaced(s, p, card, deck, faceDown)
    ensures Settled(t)
  {
    ReplacedLedger(s, p, card, deck, faceDown);
    OneHandChanges(s, p, [card], t);
  }

  lemma RebootSettles(s: State, p: PlayerId, t: State)
    requires Mid(s) && Targetable(s, p)
    requires t == ApplyReboot(s, p)
    ensures Settled(t)
  {
    assert |Hand(s, p)| == 1;
    var dumped := Dumped(s, p);
    DumpedAlmost(s, p, dumped);
    DumpedFrame(s, p, dumped);
    RebootCases(s, p, t);
    if Hand(s, p)[0] == Root {
      EliminateSettles(dumped, p, t);
    } else {
      ReplacementSettles(dumped, p, t);
    }
  }

  /** The target's next card: the top of the deck, or the face-down card. */
  function Replacement(s: State, p: PlayerId): State
    requires s.faceDown.Some?
  {
    if s.deck != [] then Replaced(s, p, s.deck[0], s.deck[1..], s.faceDown)
    else Replaced(s, p, s.faceDown.value, [], None)
  }

  lemma RebootCases(s: State, p: PlayerId, t: State)
    requires Hand(s, p) != [] && s.faceDown.Some? && t == ApplyReboot(s, p)
    ensures t == if Hand(s, p)[0] == Root then Eliminate(Dumped(s, p), p) else Replacement(Dumped(s, p), p)
  {
    DumpedFrame(s, p, Dumped(s, p));
  }

  lemma ReplacementSettles(s: State, p: PlayerId, t: State)
    requires AlmostSettled(s, p) && Targetable(s, p) && Hand(s, p) == [] && s.faceDown.Some?
    requires t == Replacement(s, p)
    ensures Settled(t)
  {
    if s.deck != [] {
      assert s.deck == [s.deck[0]] + s.deck[1..];
      ReplacedSettles(s, p, s.deck[0], s.deck[1..], s.faceDown, t);
    } else {
      ReplacedSettles(s, p, s.faceDown.value, [], None, t);
    }
  }

  // ---------------------------------------------------------------------------
  // Swap and the other cards
  // ---------------------------------------------------------------------------

  lemma SwapCards(s: State, p: PlayerId, q: PlayerId, c: Card)
    requires Distinct(s.players) && p in s.players && q in s.players && p != q
    ensures CountOf(ApplySwap(s, p, Some(q)), c) == CountOf(s, c)
    ensures SizeOf(ApplySwap(s, p, Some(q))) == SizeOf(s)
  {
    var s1 := SetHand(s, p, Hand(s, q));
    SetHandCards(s, p, Hand(s, q), c);
    SetHandCards(s1, q, Hand(s, p), c);
    assert Hand(s1, q) == Hand(s, q);
    CountAgree(SetHand(s1, q, Hand(s, p)), ApplySwap(s, p, Some(q)), c);
  }

  lemma SwapLedger(s: State, p: PlayerId, q: PlayerId)
    requires Distinct(s.players) && p in s.players && q in s.players && p != q && Ledger(s)
    ensures Ledger(ApplySwap(s, p, Some(q)))
  {
    var t := ApplySwap(s, p, Some(q));
    BooksAgree(s, t);
    forall c ensures CountOf(t, c) == DeckCount(c) { SwapCards(s, p, q, c); }
    SwapCards(s, p, q, Ping);
  }

  lemma SwapSettles(s: State, q: PlayerId, t: State)
    requires Mid(s) && Targetable(s, q) && q != s.current
    requires t == ApplySwap(s, s.current, Some(q))
    ensures Settled(t)
  {
    SwapLedger(s, s.current, q);
    SwapHands(s, q, t);
  }

  lemma SwapHands(s: State, q: PlayerId, t: State)
    requires s.current in s.players && q in s.players && s.current !in s.eliminated && q !in s.eliminated
    requires forall p :: p in s.players ==> |Hand(s, p)| == if p in s.eliminated then 0 else 1
    requires t == ApplySwap(s, s.current, Some(q))
    ensures forall p :: p in t.players ==> |Hand(t, p)| == if p in t.eliminated then 0 else 1
  {
    forall p | p in t.players ensures |Hand(t, p)| == if p in t.eliminated then 0 else 1 {
      assert |Hand(s, p)| == if p in s.eliminated then 0 else 1;
    }
  }

  /** Marking a Backdoor, a protection or a reveal leaves the cards alone. */
  lemma MarkSettles(s: State, t: State)
    requires Mid(s)
    requires t == s.(backdoor := t.backdoor, protected := t.protected, privateReveals := t.privateReveals)
    requires forall p :: p in t.backdoor ==> p in s.backdoor || (p in s.players && Backdoor in Pile(s, p))
    requires forall p :: p in t.protected ==> p in s.players && p !in s.eliminated
    ensures Settled(t)
  {
    LedgerAgree(s, t);
    forall p | p in t.players ensures Hand(t, p) == Hand(s, p) { }
  }

  /** The target rules of `ValidateMove`, per card. */
  predicate TargetOk(s: State, m: Move, c: Card) {
    match c
    case Ping | Sniffer | BufferOverflow | Swap =>
      m.target.Some? ==> Targetable(s, m.target.value) && m.target.value != s.current
    case Reboot =>
      m.target.Some? ==> Targetable(s, m.target.value)
    case _ => true
  }

  lemma OverflowSettles(s: State, p: PlayerId, t: State)
    requires Mid(s) && Targetable(s, p) && p != s.current && t == ApplyBufferOverflow(s, s.current, Some(p))
    ensures Settled(t)
  {
    if t != s {
      if HandValue(s, s.current) < HandValue(s, p) {
        EliminateSettles(s, s.current, t);
      } else {
        EliminateSettles(s, p, t);
      }
    }
  }

  lemma QuietCardSettles(s: State, m: Move, c: Card, t: State)
    requires Mid(s) && m.player == s.current && c in {Backdoor, Firewall, Sniffer, EncryptedKey} && TargetOk(s, m, c)
    requires c in Pile(s, s.current) && t == CardEffect(s, m, c)
    ensures Settled(t)
  {
    MarkSettles(s, t);
  }

  lemma CardEffectSettles(s: State, m: Move, c: Card, t: State)
    requires Mid(s) && m.player == s.current && c != Debugger && TargetOk(s, m, c)
    requires c in Pile(s, s.current)
    requires t == CardEffect(s, m, c)
    ensures Settled(t)
  {
    match c {
      case Backdoor | Firewall | Sniffer | EncryptedKey => QuietCardSettles(s, m, c, t);
      case Root => EliminateSettles(s, s.current, t);
      case Ping => if t != s { EliminateSettles(s, m.target.value, t); }
      case BufferOverflow => if m.target.Some? { OverflowSettles(s, m.target.value, t); }
      case Reboot => RebootSettles(s, m.target.GetOr(m.player), t);
      case Swap => if m.target.Some? { SwapSettles(s, m.target.value, t); }
    }
  }

  // ---------------------------------------------------------------------------
  // Debugger
  // ---------------------------------------------------------------------------

  lemma DebuggerCards(s: State, c: Card)
    requires Distinct(s.players) && s.current in s.players && s.choices == []
    ensures CountOf(ApplyDebugger(s, s.current), c) == CountOf(s, c)
    ensures SizeOf(ApplyDebugger(s, s.current)) == SizeOf(s)
  {
    var n := if |s.deck| < 2 then |s.deck| else 2;
    SetHandCards(s, s.current, [], c);
    CopiesConcat(Hand(s, s.current), s.deck[..n], c);
    assert s.deck == s.deck[..n] + s.deck[n..];
    CopiesConcat(s.deck[..n], s.deck[n..], c);
  }

  lemma DebuggerLedger(s: State)
    requires Distinct(s.players) && s.current in s.players && s.choices == [] && Ledger(s)
    ensures Ledger(ApplyDebugger(s, s.current))
  {
    var t := ApplyDebugger(s, s.current);
    BooksAgree(s, t);
    forall c ensures CountOf(t, c) == DeckCount(c) { DebuggerCards(s, c); }
    DebuggerCards(s, Ping);
  }

  /** Playing a Debugger leads to a position that waits for the choice. */
  lemma DebuggerKeeps(s: State, t: State)
    requires Mid(s) && t == ApplyDebugger(s, s.current)
    ensures OnTurn(t) && t.phase == DebuggerPending
    ensures |t.choices| == 3 <==> 2 <= |s.deck|
  {
    DebuggerLedger(s);
    forall p | p in t.players ensures |Hand(t, p)| == Due(t, p) {
      assert |Hand(s, p)| == if p in s.eliminated then 0 else 1;
    }
  }

  /** A resolved choice counts the kept and returned cards where the choices used to be. */
  lemma ChoiceCards(s: State, keep: Card, ret: seq<Card>, c: Card)
    requires Distinct(s.players) && s.current in s.players && Hand(s, s.current) == []
    ensures CountOf(TakeChoice(s, s.current, keep, ret), c)
            == CountOf(s, c) + Copies([keep] + ret, c) - Copies(s.choices, c)
    ensures SizeOf(TakeChoice(s, s.current, keep, ret)) == SizeOf(s) + 1 + |ret| - |s.choices|
  {
    SetHandCards(s, s.current, [keep], c);
    CopiesConcat(s.deck, ret, c);
    CopiesCons(keep, ret, c);
  }

  lemma ChoiceLedger(s: State, keep: Card, ret: seq<Card>)
    requires Distinct(s.players) && s.current in s.players && Hand(s, s.current) == [] && Ledger(s)
    requires multiset([keep] + ret) == multiset(s.choices) && |ret| + 1 == |s.choices|
    ensures Ledger(TakeChoice(s, s.current, keep, ret))
  {
    var t := TakeChoice(s, s.current, keep, ret);
    BooksAgree(s, t);
    forall c ensures CountOf(t, c) == DeckCount(c) {
      ChoiceCards(s, keep, ret, c);
      CopiesIsMultiplicity([keep] + ret, c);
      CopiesIsMultiplicity(s.choices, c);
    }
    ChoiceCards(s, keep, ret, Ping);
  }

  lemma ChoiceSettles(s: State, keep: Card, ret: seq<Card>, t: State)
    requires OnTurn(s) && s.phase == DebuggerPending && |ret| == 2 && |s.choices| == 3
    requires multiset([keep] + ret) == multiset(s.choices)
    requires t == TakeChoice(s, s.current, keep, ret)
    ensures Settled(t)
  {
    ChoiceLedger(s, keep, ret);
    forall p | p in t.players ensures |Hand(t, p)| == if p in t.eliminated then 0 else 1 {
      assert |Hand(s, p)| == Due(s, p);
    }
  }
}
