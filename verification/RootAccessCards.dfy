/** The Root Access deck: card kinds, their values and the 21-card composition. */
module RootAccessCards {

  datatype Card =
    | Backdoor | Ping | Sniffer | BufferOverflow | Firewall
    | Reboot | Debugger | Swap | EncryptedKey | Root

  /** A card name as it arrives in a move payload: the empty string, one of the ten
      cards, one of the two synthetic names, or any other text. */
  datatype CardName = Blank | Known(card: Card) | PenaltyLose | DebuggerResolve | Other

  datatype Option<+T> = None | Some(value: T) {
    function GetOr(default: T): T { if Some? then value else default }
  }

  const DECK_SIZE: nat := 21

  function Value(c: Card): (v: nat)
    ensures v <= 9
  {
    match c
    case Backdoor => 0
    case Ping => 1
    case Sniffer => 2
    case BufferOverflow => 3
    case Firewall => 4
    case Reboot => 5
    case Debugger => 6
    case Swap => 7
    case EncryptedKey => 8
    case Root => 9
  }

  /** The cards of values 0 to 3. */
  function LowCards(): (cards: seq<Card>)
    ensures |cards| == 12
  {
    [Backdoor, Backdoor]
    + [Ping, Ping, Ping, Ping, Ping, Ping]
    + [Sniffer, Sniffer]
    + [BufferOverflow, BufferOverflow]
  }

  /** The cards of values 4 to 9. */
  function HighCards(): (cards: seq<Card>)
    ensures |cards| == 9
  {
    [Firewall, Firewall]
    + [Reboot, Reboot]
    + [Debugger, Debugger]
    + [Swap, EncryptedKey, Root]
  }

  function Composition(): (cards: seq<Card>)
    ensures |cards| == DECK_SIZE
  {
    LowCards() + HighCards()
  }

  /** How often each card occurs in the deck. */
  function DeckCount(c: Card): nat {
    match c
    case Ping => 6
    case Backdoor | Sniffer | BufferOverflow | Firewall | Reboot | Debugger => 2
    case Swap | EncryptedKey | Root => 1
  }

  function Copies(cards: seq<Card>, c: Card): nat {
    if cards == [] then 0 else (if cards[0] == c then 1 else 0) + Copies(cards[1..], c)
  }

  /** `cards` is some shuffle of the full deck. */
  ghost predicate FullDeck(cards: seq<Card>) {
    |cards| == DECK_SIZE && forall c :: Copies(cards, c) == DeckCount(c)
  }

  lemma CopiesCons(x: Card, rest: seq<Card>, c: Card)
    ensures Copies([x] + rest, c) == (if x == c then 1 else 0) + Copies(rest, c)
    ensures Copies([x], c) == if x == c then 1 else 0
  {
    assert ([x] + rest)[1..] == rest;
  }

  lemma {:induction false} CopiesConcat(a: seq<Card>, b: seq<Card>, c: Card)
    ensures Copies(a + b, c) == Copies(a, c) + Copies(b, c)
  {
    if a == [] {
      assert a + b == b;
    } else {
      assert (a + b)[1..] == a[1..] + b;
      CopiesConcat(a[1..], b, c);
    }
  }

  lemma {:induction false} CopiesIsMultiplicity(cards: seq<Card>, c: Card)
    ensures Copies(cards, c) == multiset(cards)[c]
  {
    if cards != [] {
      CopiesIsMultiplicity(cards[1..], c);
      assert cards == [cards[0]] + cards[1..];
    }
  }

  lemma SameCopies(a: seq<Card>, b: seq<Card>)
    requires forall c :: Copies(a, c) == Copies(b, c)
    ensures multiset(a) == multiset(b)
  {
    forall c ensures multiset(a)[c] == multiset(b)[c] {
      CopiesIsMultiplicity(a, c);
      CopiesIsMultiplicity(b, c);
    }
  }

  lemma Concat3(a: seq<Card>, b: seq<Card>, d: seq<Card>, c: Card)
    ensures Copies(a + b + d, c) == Copies(a, c) + Copies(b, c) + Copies(d, c)
  {
    CopiesConcat(a + b, d, c);
    CopiesConcat(a, b, c);
  }

  lemma SixPings(c: Card)
    ensures Copies([Ping, Ping, Ping, Ping, Ping, Ping], c) == if c == Ping then 6 else 0
  {
    Pair(Ping, c);
    Concat3([Ping, Ping], [Ping, Ping], [Ping, Ping], c);
    assert [Ping, Ping, Ping, Ping, Ping, Ping] == [Ping, Ping] + [Ping, Ping] + [Ping, Ping];
  }

  lemma LowCounts(c: Card)
    ensures Copies(LowCards(), c) == if Value(c) <= 3 then DeckCount(c) else 0
  {
    var first := [Backdoor, Backdoor] + [Ping, Ping, Ping, Ping, Ping, Ping];
    CopiesConcat([Backdoor, Backdoor], [Ping, Ping, Ping, Ping, Ping, Ping], c);
    Concat3(first, [Sniffer, Sniffer], [BufferOverflow, BufferOverflow], c);
    SixPings(c);
    Pair(Backdoor, c);
    Pair(Sniffer, c);
    Pair(BufferOverflow, c);
  }

  lemma HighCounts(c: Card)
    ensures Copies(HighCards(), c) == if Value(c) <= 3 then 0 else DeckCount(c)
  {
    var first := [Firewall, Firewall] + [Reboot, Reboot];
    CopiesConcat([Firewall, Firewall], [Reboot, Reboot], c);
    Concat3(first, [Debugger, Debugger], [Swap, EncryptedKey, Root], c);
    Pair(Firewall, c);
    Pair(Reboot, c);
    Pair(Debugger, c);
    Singles(c);
  }

  lemma CompositionCounts(c: Card)
    ensures Copies(Composition(), c) == DeckCount(c)
  {
    CopiesConcat(LowCards(), HighCards(), c);
    LowCounts(c);
    HighCounts(c);
  }

  lemma Pair(x: Card, c: Card)
    ensures Copies([x, x], c) == if x == c then 2 else 0
  {
    assert [x, x] == [x] + [x];
    CopiesCons(x, [x], c);
  }

  lemma Singles(c: Card)
    ensures Copies([Swap, EncryptedKey, Root], c) == if c in {Swap, EncryptedKey, Root} then 1 else 0
  {
    assert [Swap, EncryptedKey, Root] == [Swap] + ([EncryptedKey] + [Root]);
    CopiesCons(Swap, [EncryptedKey] + [Root], c);
    CopiesCons(EncryptedKey, [Root], c);
    CopiesCons(Root, [], c);
  }

  /** A full deck is a permutation of the 21-card composition, and nothing else. */
  lemma FullDeckIsComposition(cards: seq<Card>)
    ensures FullDeck(cards) <==> multiset(cards) == multiset(Composition())
  {
    forall c ensures Copies(Composition(), c) == DeckCount(c) { CompositionCounts(c); }
    if FullDeck(cards) {
      SameCopies(cards, Composition());
    }
    if multiset(cards) == multiset(Composition()) {
      assert |multiset(cards)| == |multiset(Composition())|;
      forall c ensures Copies(cards, c) == DeckCount(c) {
        CopiesIsMultiplicity(cards, c);
        CopiesIsMultiplicity(Composition(), c);
      }
    }
  }

  function NonPingCards(): seq<Card> {
    [Backdoor, Sniffer, BufferOverflow, Firewall, Reboot, Debugger, Swap, EncryptedKey, Root]
  }

  function TokensToWin(playerCount: nat): nat {
    match playerCount
    case 2 => 7
    case 3 => 5
    case 4 => 4
    case _ => 3
  }

  // ---------------------------------------------------------------------------
  // The order of the cards
  // ---------------------------------------------------------------------------

  /** The ten cards from the lowest to the highest. */
  const RANKING: seq<Card> :=
    [Backdoor, Ping, Sniffer, BufferOverflow, Firewall, Reboot, Debugger, Swap, EncryptedKey, Root]

  /** Where a card stands in the ranking. */
  ghost function Place(c: Card): (i: nat)
    ensures i < |RANKING| && RANKING[i] == c
  {
    assert RANKING[Value(c)] == c;
    var i: nat :| i < |RANKING| && RANKING[i] == c;
    i
  }

  /** The ranking is strict: a card has one place, and its value is that place. */
  lemma ValueIsPlace(c: Card)
    ensures Value(c) == Place(c)
    ensures forall i: nat :: i < |RANKING| && RANKING[i] == c ==> i == Value(c)
  {
    forall i: nat | i < |RANKING| && RANKING[i] == c ensures i == Value(c) {
      assert i in {0, 1, 2, 3, 4, 5, 6, 7, 8, 9};
    }
  }

  /** What a pile is worth: the sum of its cards' places. */
  ghost function Worth(cards: seq<Card>): nat {
    if cards == [] then 0 else Place(cards[0]) + Worth(cards[1..])
  }
}
