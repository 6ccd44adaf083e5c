/** What holds in every state of a Root Access game, and the proof that a move keeps it
    exactly when the move is benign. */
module RootAccessInvariant {
  import opened RootAccessCards
  import opened RootAccessEngine

  // ---------------------------------------------------------------------------
  // Counting cards and tokens
  // ---------------------------------------------------------------------------

  ghost predicate Distinct(ps: seq<PlayerId>) {
    forall i, j :: 0 <= i < j < |ps| ==> ps[i] != ps[j]
  }

  /** How many copies of `c` the players `ps` own together in `m`. */
  ghost function Tally(m: map<PlayerId, seq<Card>>, ps: seq<PlayerId>, c: Card): nat {
    if ps == [] then 0 else Copies(CardsAt(m, ps[0]), c) + Tally(m, ps[1..], c)
  }

  /** How many cards the players `ps` own together in `m`. */
  ghost function Volume(m: map<PlayerId, seq<Card>>, ps: seq<PlayerId>): nat {
    if ps == [] then 0 else |CardsAt(m, ps[0])| + Volume(m, ps[1..])
  }

  ghost function Sum(tokens: map<PlayerId, nat>, ps: seq<PlayerId>): nat
    requires forall p :: p in ps ==> p in tokens
  {
    if ps == [] then 0 else tokens[ps[0]] + Sum(tokens, ps[1..])
  }

  function FaceDown(s: State): seq<Card> {
    if s.faceDown.Some? then [s.faceDown.value] else []
  }

  /** Copies of `c` in the whole game, wherever they lie. */
  ghost function CountOf(s: State, c: Card): nat {
    Copies(s.deck, c) + Tally(s.hands, s.players, c) + Tally(s.piles, s.players, c)
    + Copies(s.faceUp, c) + Copies(FaceDown(s), c) + Copies(s.choices, c)
  }

  /** All cards of the game, wherever they lie. */
  ghost function SizeOf(s: State): nat {
    |s.deck| + Volume(s.hands, s.players) + Volume(s.piles, s.players)
    + |s.faceUp| + |FaceDown(s)| + |s.choices|
  }

  /** The discards of one player in the chronological log. */
  ghost function LoggedBy(log: seq<Discard>, p: PlayerId): seq<Card> {
    if log == [] then []
    else
      var rest := LoggedBy(log[..|log| - 1], p);
      if log[|log| - 1].player == p then rest + [log[|log| - 1].card] else rest
  }

  // ---------------------------------------------------------------------------
  // The invariant
  // ---------------------------------------------------------------------------

  ghost predicate Seats(s: State) {
    && 2 <= |s.players| <= 5
    && Distinct(s.players)
    && s.toWin == TokensToWin(|s.players|)
    && (forall p :: p in s.players <==> p in s.tokens)
    && 1 <= s.round
  }

  /** The most tokens that can be out while nobody has won. */
  function Cap(n: nat): nat { n * (TokensToWin(n) - 1) }

  /** Nobody has won yet, and each finished round has paid one or two tokens. */
  ghost predicate OpenScore(s: State)
    requires Seats(s)
  {
    && (forall p :: p in s.players ==> s.tokens[p] < s.toWin)
    && s.round - 1 <= Sum(s.tokens, s.players) <= 2 * (s.round - 1)
  }

  ghost predicate FinalScore(s: State)
    requires Seats(s)
  {
    && s.gameWinner.Some? && s.gameWinner.value in s.players
    && s.current == s.gameWinner.value
    && s.toWin <= s.tokens[s.gameWinner.value] <= s.toWin + 1
    && s.round <= Sum(s.tokens, s.players) <= 2 * s.round
    && s.round <= Cap(|s.players|) + 1
  }

  /** No card is lost or made. */
  ghost predicate AllThere(s: State) {
    && (forall c :: CountOf(s, c) == DeckCount(c))
    && SizeOf(s) == DECK_SIZE
  }

  /** The log and the piles agree, and every recorded Backdoor player has one in the pile. */
  ghost predicate Books(s: State) {
    && |s.log| == Volume(s.piles, s.players)
    && (forall p :: p in s.piles ==> p in s.players)
    && (forall p {:trigger LoggedBy(s.log, p)} :: LoggedBy(s.log, p) == Pile(s, p))
    && (forall p :: p in s.backdoor ==> p in s.players && Backdoor in Pile(s, p))
  }

  ghost predicate Ledger(s: State) { AllThere(s) && Books(s) }

  ghost predicate Roles(s: State) {
    && (forall p :: p in s.players <==> p in s.hands)
    && s.current in s.players
    && (forall p :: p in s.eliminated ==> p in s.players)
    && (forall p :: p in s.protected ==> p in s.players && p !in s.eliminated)
  }

  /** How many cards each seat holds while somebody is on turn. */
  function Due(s: State, p: PlayerId): nat {
    if p in s.eliminated then 0
    else if p != s.current then 1
    else if s.phase == Playing then 2
    else 0
  }

  ghost predicate OnTurn(s: State) {
    && Seats(s) && OpenScore(s) && Ledger(s) && Roles(s)
    && 2 <= |Active(s)|
    && s.current !in s.eliminated && s.current !in s.protected
    && s.faceDown.Some?
    && (forall p :: p in s.players ==> |Hand(s, p)| == Due(s, p))
    && (s.phase == Playing ==> s.choices == [])
    && (s.phase == DebuggerPending ==> 1 <= |s.choices| <= 3 && (|s.choices| < 3 ==> s.deck == []))
  }

  ghost predicate Over(s: State) {
    Seats(s) && FinalScore(s) && Ledger(s) && s.choices == []
  }

  /** The invariant of the game. */
  ghost predicate Inv(s: State) {
    if s.phase == GameOver then Over(s) else OnTurn(s)
  }

  /** Between a move's effect and the passing of the turn: everyone still in holds exactly
      one card, and the face-down card is gone only if the deck is. */
  ghost predicate Settled(s: State) {
    && Seats(s) && OpenScore(s) && Ledger(s) && Roles(s)
    && s.phase == Playing && s.choices == []
    && 1 <= |Active(s)|
    && (forall p :: p in s.players ==> |Hand(s, p)| == (if p in s.eliminated then 0 else 1))
    && (s.faceDown.None? ==> s.deck == [])
  }

  /** What paying out a round needs of the state it scores. */
  ghost predicate Payable(s: State) {
    && Seats(s) && OpenScore(s) && s.choices == [] && 1 <= |Active(s)|
    && forall p :: p in s.backdoor ==> p in s.players
  }

  /** What `resolveRound` needs of the state it scores. */
  ghost predicate Scorable(s: State) {
    && Seats(s) && OpenScore(s) && Ledger(s)
    && s.choices == []
    && 1 <= |Active(s)|
  }

  /** All cards of the game in one sequence. */
  ghost function AllCards(s: State): seq<Card> {
    s.deck + Gather(s.hands, s.players) + Gather(s.piles, s.players) + s.faceUp + FaceDown(s) + s.choices
  }

  ghost function Gather(m: map<PlayerId, seq<Card>>, ps: seq<PlayerId>): seq<Card> {
    if ps == [] then [] else CardsAt(m, ps[0]) + Gather(m, ps[1..])
  }

  // ---------------------------------------------------------------------------
  // Sequences of players
  // ---------------------------------------------------------------------------

  lemma {:induction false} WithoutMembers(ps: seq<PlayerId>, gone: seq<PlayerId>, p: PlayerId)
    ensures p in Without(ps, gone) <==> p in ps && p !in gone
  {
    if ps != [] {
      WithoutMembers(ps[1..], gone, p);
      assert p in ps <==> p == ps[0] || p in ps[1..];
    }
  }

  lemma WithoutAllMembers(ps: seq<PlayerId>, gone: seq<PlayerId>)
    ensures forall p :: p in Without(ps, gone) <==> p in ps && p !in gone
  {
    forall p ensures p in Without(ps, gone) <==> p in ps && p !in gone { WithoutMembers(ps, gone, p); }
  }

  /** Removing a set that agrees on `ps` changes nothing. */
  lemma {:induction false} WithoutAgrees(ps: seq<PlayerId>, gone: seq<PlayerId>, gone': seq<PlayerId>)
    requires forall p :: p in ps ==> (p in gone <==> p in gone')
    ensures Without(ps, gone) == Without(ps, gone')
  {
    if ps != [] {
      assert ps[0] in ps;
      forall p | p in ps[1..] ensures p in gone <==> p in gone' { assert p in ps; }
      WithoutAgrees(ps[1..], gone, gone');
    }
  }

  /** One more player out of the round is one fewer active player. */
  lemma {:induction false} WithoutOneMore(ps: seq<PlayerId>, gone: seq<PlayerId>, x: PlayerId)
    requires Distinct(ps) && x !in gone
    ensures x in ps ==> |Without(ps, gone + [x])| == |Without(ps, gone)| - 1
    ensures x !in ps ==> Without(ps, gone + [x]) == Without(ps, gone)
  {
    if ps == [] {
    } else if ps[0] == x {
      assert x !in ps[1..];
      WithoutOneMore(ps[1..], gone, x);
    } else {
      assert x in ps <==> x in ps[1..];
      WithoutOneMore(ps[1..], gone, x);
    }
  }

  lemma {:induction false} WithoutLength(ps: seq<PlayerId>, gone: seq<PlayerId>)
    ensures |Without(ps, gone)| <= |ps|
    ensures gone == [] ==> Without(ps, gone) == ps
  {
    if ps != [] { WithoutLength(ps[1..], gone); }
  }

  lemma {:induction false} WithoutDistinct(ps: seq<PlayerId>, gone: seq<PlayerId>)
    requires Distinct(ps)
    ensures Distinct(Without(ps, gone))
  {
    if ps != [] {
      WithoutDistinct(ps[1..], gone);
      WithoutAllMembers(ps[1..], gone);
      assert ps[0] !in ps[1..];
    }
  }

  /** Two active players can be named whenever at least two are left. */
  lemma AnotherActive(players: seq<PlayerId>, gone: seq<PlayerId>, p: PlayerId) returns (q: PlayerId)
    requires Distinct(players) && 2 <= |Without(players, gone)|
    ensures q != p && q in players && q !in gone
  {
    WithoutAllMembers(players, gone);
    WithoutDistinct(players, gone);
    var active := Without(players, gone);
    q := if active[0] != p then active[0] else active[1];
    assert q in active;
  }

  lemma {:induction false} RemoveFirstLength(hand: seq<Card>, c: Card)
    requires c in hand
    ensures |RemoveFirst(hand, c)| == |hand| - 1
  {
    if hand[0] != c { RemoveFirstLength(hand[1..], c); }
  }

  lemma {:induction false} RemoveFirstPlays(hand: seq<Card>, c: Card, d: Card)
    requires c in hand
    ensures Copies(RemoveFirst(hand, c), d) + (if c == d then 1 else 0) == Copies(hand, d)
  {
    if hand[0] != c {
      RemoveFirstPlays(hand[1..], c, d);
      CopiesCons(hand[0], RemoveFirst(hand[1..], c), d);
    }
  }

  // ---------------------------------------------------------------------------
  // The walk around the table
  // ---------------------------------------------------------------------------

  /** The player `i` places after `seat`. */
  function At(players: seq<PlayerId>, seat: nat, i: nat): PlayerId
    requires 0 < |players|
  {
    players[(seat + i) % |players|]
  }

  lemma Wrap(a: nat, n: nat)
    requires 0 < n && a < 2 * n
    ensures a % n == if a < n then a else a - n
  {
    if n <= a { ModPlus(a - n, n); }
  }

  lemma ModPlus(b: nat, n: nat)
    requires 0 < n && b < n
    ensures (b + n) % n == b
  {
    assert (b + n) / n == 1;
  }

  /** The walk stops at the nearest active seat: `j` places on, with nobody active in between. */
  lemma {:induction false} WalkFinds(players: seq<PlayerId>, gone: seq<PlayerId>, seat: nat, i: nat) returns (j: nat)
    requires 0 < |players|
    requires 1 <= i
    requires exists k: nat :: i <= k <= |players| && At(players, seat, k) !in gone
    ensures i <= j <= |players|
    ensures Walk(players, gone, seat, i) == Some(At(players, seat, j))
    ensures At(players, seat, j) !in gone
    ensures forall k: nat :: i <= k < j ==> At(players, seat, k) in gone
    decreases |players| - i
  {
    if At(players, seat, i) !in gone {
      j := i;
    } else {
      j := WalkFinds(players, gone, seat, i + 1);
    }
  }

  /** How far `q` sits after `p`, counting round the table. */
  function Offset(players: seq<PlayerId>, p: PlayerId, q: PlayerId): nat
    requires p in players && q in players
  {
    (FirstSeat(players, q) + |players| - FirstSeat(players, p)) % |players|
  }

  lemma OffsetReaches(players: seq<PlayerId>, p: PlayerId, q: PlayerId)
    requires Distinct(players) && p in players && q in players
    ensures Offset(players, p, q) < |players|
    ensures At(players, FirstSeat(players, p), Offset(players, p, q)) == q
    ensures Offset(players, p, q) == 0 <==> p == q
    ensures forall k: nat :: k < |players| && At(players, FirstSeat(players, p), k) == q ==> k == Offset(players, p, q)
  {
    var n, a, b := |players|, FirstSeat(players, p), FirstSeat(players, q);
    Wrap(b + n - a, n);
    var d := Offset(players, p, q);
    Wrap(a + d, n);
    forall k: nat | k < n && At(players, a, k) == q ensures k == d {
      Wrap(a + k, n);
    }
  }

  /** The walk from `from` ends `j` places on, having passed only players who are out. */
  lemma NextIsFound(players: seq<PlayerId>, gone: seq<PlayerId>, from: PlayerId) returns (j: nat)
    requires Distinct(players) && from in players && 1 <= |Without(players, gone)|
    ensures 1 <= j <= |players|
    ensures NextSeat(players, gone, from) == At(players, FirstSeat(players, from), j)
    ensures At(players, FirstSeat(players, from), j) !in gone
    ensures forall k: nat :: 1 <= k < j ==> At(players, FirstSeat(players, from), k) in gone
  {
    var seat, n := FirstSeat(players, from), |players|;
    var a := Without(players, gone)[0];
    WithoutMembers(players, gone, a);
    OffsetReaches(players, from, a);
    Wrap(seat + n, n);
    var k0 := if a == from then n else Offset(players, from, a);
    assert At(players, seat, k0) == a;
    j := WalkFinds(players, gone, seat, 1);
  }

  /** The next player is the nearest one, other than `from`, who is still in. */
  lemma NextIsNearestSeat(players: seq<PlayerId>, gone: seq<PlayerId>, from: PlayerId, next: PlayerId)
    requires Distinct(players) && from in players && 1 <= |Without(players, gone)|
    requires next == NextSeat(players, gone, from)
    ensures next in players && next !in gone
    ensures 2 <= |Without(players, gone)| ==> next != from
    ensures forall q :: q in players && q != from && q !in gone && next != from ==>
              Offset(players, from, next) <= Offset(players, from, q)
  {
    var j := NextIsFound(players, gone, from);
    forall q | q in players && q != from && q !in gone
      ensures next != from && Offset(players, from, next) <= Offset(players, from, q)
    {
      OffsetReaches(players, from, q);
      assert j <= Offset(players, from, q);
      OffsetReaches(players, from, next);
    }
    if 2 <= |Without(players, gone)| { var q := AnotherActive(players, gone, from); }
  }

  lemma NextIsNearest(s: State, from: PlayerId)
    requires Seats(s) && from in s.players && 1 <= |Active(s)|
    ensures NextActive(s, from) in s.players && NextActive(s, from) !in s.eliminated
    ensures 2 <= |Active(s)| ==> NextActive(s, from) != from
  {
    NextIsNearestSeat(s.players, s.eliminated, from, NextActive(s, from));
  }

  // ---------------------------------------------------------------------------
  // Conservation, one primitive at a time
  // ---------------------------------------------------------------------------

  lemma {:induction false} TallyUpdate(m: map<PlayerId, seq<Card>>, ps: seq<PlayerId>, p: PlayerId, cards: seq<Card>, c: Card)
    requires Distinct(ps)
    ensures Tally(m[p := cards], ps, c)
            == Tally(m, ps, c) + (if p in ps then Copies(cards, c) - Copies(CardsAt(m, p), c) else 0)
  {
    if ps != [] {
      TallyUpdate(m, ps[1..], p, cards, c);
      if ps[0] == p { assert p !in ps[1..]; }
      assert p in ps <==> p == ps[0] || p in ps[1..];
    }
  }

  lemma {:induction false} VolumeUpdate(m: map<PlayerId, seq<Card>>, ps: seq<PlayerId>, p: PlayerId, cards: seq<Card>)
    requires Distinct(ps)
    ensures Volume(m[p := cards], ps)
            == Volume(m, ps) + (if p in ps then |cards| - |CardsAt(m, p)| else 0)
  {
    if ps != [] {
      VolumeUpdate(m, ps[1..], p, cards);
      if ps[0] == p { assert p !in ps[1..]; }
      assert p in ps <==> p == ps[0] || p in ps[1..];
    }
  }

  lemma {:induction false} NothingOwned(ps: seq<PlayerId>, c: Card)
    ensures Tally(map[], ps, c) == 0 && Volume(map[], ps) == 0
  {
    if ps != [] { NothingOwned(ps[1..], c); }
  }

  /** Counting looks at six fields only. */
  lemma CountAgree(s: State, t: State, c: Card)
    requires t.players == s.players && t.deck == s.deck && t.hands == s.hands && t.piles == s.piles
    requires t.faceUp == s.faceUp && t.faceDown == s.faceDown && t.choices == s.choices
    ensures CountOf(t, c) == CountOf(s, c) && SizeOf(t) == SizeOf(s)
  {
  }

  lemma SetHandCards(s: State, p: PlayerId, hand: seq<Card>, c: Card)
    requires Distinct(s.players) && p in s.players
    ensures CountOf(SetHand(s, p, hand), c) == CountOf(s, c) + Copies(hand, c) - Copies(Hand(s, p), c)
    ensures SizeOf(SetHand(s, p, hand)) == SizeOf(s) + |hand| - |Hand(s, p)|
  {
    VolumeUpdate(s.hands, s.players, p, hand);
    TallyUpdate(s.hands, s.players, p, hand, c);
    var t := SetHand(s, p, hand);
    assert t.hands == s.hands[p := hand] && t.players == s.players && t.deck == s.deck && t.piles == s.piles;
    assert t.faceUp == s.faceUp && FaceDown(t) == FaceDown(s) && t.choices == s.choices;
  }

  lemma SetHandBooks(s: State, p: PlayerId, hand: seq<Card>)
    requires Books(s)
    ensures Books(SetHand(s, p, hand))
  {
    var t := SetHand(s, p, hand);
    forall q ensures LoggedBy(t.log, q) == Pile(t, q) { assert LoggedBy(s.log, q) == Pile(s, q); }
    forall q | q in t.backdoor ensures q in t.players && Backdoor in Pile(t, q) { assert Pile(t, q) == Pile(s, q); }
  }

  lemma AppendDiscardCards(s: State, p: PlayerId, c: Card, d: Card)
    requires Distinct(s.players) && p in s.players
    ensures CountOf(AppendDiscard(s, p, c), d) == CountOf(s, d) + Copies([c], d)
    ensures SizeOf(AppendDiscard(s, p, c)) == SizeOf(s) + 1
    ensures Volume(AppendDiscard(s, p, c).piles, s.players) == Volume(s.piles, s.players) + 1
  {
    VolumeUpdate(s.piles, s.players, p, Pile(s, p) + [c]);
    TallyUpdate(s.piles, s.players, p, Pile(s, p) + [c], d);
    CopiesConcat(Pile(s, p), [c], d);
  }

  lemma AppendDiscardBooks(s: State, p: PlayerId, c: Card)
    requires Distinct(s.players) && p in s.players && Books(s)
    ensures Books(AppendDiscard(s, p, c))
  {
    var t := AppendDiscard(s, p, c);
    AppendDiscardCards(s, p, c, c);
    assert t.log[..|t.log| - 1] == s.log;
    forall q ensures LoggedBy(t.log, q) == Pile(t, q) {
      assert LoggedBy(s.log, q) == Pile(s, q);
    }
    forall q | q in t.backdoor ensures q in t.players && Backdoor in Pile(t, q) {
      assert Backdoor in Pile(s, q);
    }
  }

  lemma {:induction false} DiscardAllCards(s: State, p: PlayerId, cards: seq<Card>, c: Card)
    requires Distinct(s.players) && p in s.players
    ensures CountOf(DiscardAll(s, p, cards), c) == CountOf(s, c) + Copies(cards, c)
    ensures SizeOf(DiscardAll(s, p, cards)) == SizeOf(s) + |cards|
    decreases |cards|
  {
    if cards != [] {
      AppendDiscardCards(s, p, cards[0], c);
      DiscardAllCards(AppendDiscard(s, p, cards[0]), p, cards[1..], c);
      assert cards == [cards[0]] + cards[1..];
    }
  }

  lemma {:induction false} DiscardAllBooks(s: State, p: PlayerId, cards: seq<Card>)
    requires Distinct(s.players) && p in s.players && Books(s)
    ensures Books(DiscardAll(s, p, cards))
    decreases |cards|
  {
    if cards != [] {
      AppendDiscardBooks(s, p, cards[0]);
      DiscardAllBooks(AppendDiscard(s, p, cards[0]), p, cards[1..]);
    }
  }

  lemma {:induction false} DiscardAllPiles(s: State, p: PlayerId, cards: seq<Card>)
    ensures Pile(DiscardAll(s, p, cards), p) == Pile(s, p) + cards
    ensures |DiscardAll(s, p, cards).log| == |s.log| + |cards|
    decreases |cards|
  {
    if cards != [] { DiscardAllPiles(AppendDiscard(s, p, cards[0]), p, cards[1..]); }
  }

  /** Eliminating a seated player moves the hand to the pile and no other card. */
  lemma EliminateCards(s: State, p: PlayerId, c: Card)
    requires Distinct(s.players) && p in s.players
    ensures CountOf(Eliminate(s, p), c) == CountOf(s, c)
    ensures SizeOf(Eliminate(s, p)) == SizeOf(s)
  {
    var hand := Hand(s, p);
    var s0 := s.(eliminated := AppendUnique(s.eliminated, p));
    var s1 := DiscardAll(s0, p, hand);
    assert Hand(s1, p) == hand && s1.players == s.players;
    assert CountOf(s1, c) == CountOf(s, c) + Copies(hand, c) && SizeOf(s1) == SizeOf(s) + |hand| by {
      DiscardAllCards(s0, p, hand, c);
      CountAgree(s, s0, c);
    }
    var s2 := SetHand(s1, p, []);
    assert CountOf(s2, c) == CountOf(s1, c) + Copies([], c) - Copies(hand, c) && SizeOf(s2) == SizeOf(s1) - |hand| by {
      SetHandCards(s1, p, [], c);
    }
    assert CountOf(Eliminate(s, p), c) == CountOf(s2, c) && SizeOf(Eliminate(s, p)) == SizeOf(s2) by {
      CountAgree(s2, Eliminate(s, p), c);
    }
  }

  lemma EliminateLog(s: State, p: PlayerId)
    ensures |Eliminate(s, p).log| == |s.log| + |Hand(s, p)|
  {
    DiscardAllPiles(s.(eliminated := AppendUnique(s.eliminated, p)), p, Hand(s, p));
  }

  lemma EliminateBooks(s: State, p: PlayerId)
    requires Distinct(s.players) && p in s.players && Books(s)
    ensures Books(Eliminate(s, p))
  {
    var hand := Hand(s, p);
    var s0 := s.(eliminated := AppendUnique(s.eliminated, p));
    BooksAgree(s, s0);
    DiscardAllBooks(s0, p, hand);
    DiscardAllPiles(s0, p, hand);
    var s1 := DiscardAll(s0, p, hand);
    SetHandBooks(s1, p, []);
    BooksAgree(SetHand(s1, p, []), Eliminate(s, p));
  }

  lemma EliminateLedger(s: State, p: PlayerId)
    requires Distinct(s.players) && p in s.players && Ledger(s)
    ensures Ledger(Eliminate(s, p))
  {
    EliminateBooks(s, p);
    forall c ensures CountOf(Eliminate(s, p), c) == DeckCount(c) { EliminateCards(s, p, c); }
    EliminateCards(s, p, Ping);
  }

  /** Books are about piles, log and Backdoor list alone. */
  lemma BooksAgree(s: State, t: State)
    requires Books(s)
    requires t.players == s.players && t.piles == s.piles && t.log == s.log
    requires forall p :: p in t.backdoor ==> p in s.backdoor || (p in s.players && Backdoor in Pile(s, p))
    ensures Books(t)
  {
    forall q ensures LoggedBy(t.log, q) == Pile(t, q) { assert LoggedBy(s.log, q) == Pile(s, q); }
    forall q | q in t.backdoor ensures q in t.players && Backdoor in Pile(t, q) { assert Pile(t, q) == Pile(s, q); }
  }

  lemma LedgerAgree(s: State, t: State)
    requires Ledger(s)
    requires t.players == s.players && t.deck == s.deck && t.hands == s.hands && t.piles == s.piles
    requires t.faceUp == s.faceUp && t.faceDown == s.faceDown && t.choices == s.choices && t.log == s.log
    requires forall p :: p in t.backdoor ==> p in s.backdoor || (p in s.players && Backdoor in Pile(s, p))
    ensures Ledger(t)
  {
    BooksAgree(s, t);
    forall c ensures CountOf(t, c) == DeckCount(c) { CountAgree(s, t, c); }
    CountAgree(s, t, Ping);
  }

  /** Eliminating touches the elimination list, one hand and the books only. */
  lemma EliminateFrame(s: State, p: PlayerId, t: State)
    requires t == Eliminate(s, p)
    ensures SameTable(s, t) && t.phase == s.phase && t.choices == s.choices
    ensures t.deck == s.deck && t.faceDown == s.faceDown && t.protected == s.protected
    ensures t.eliminated == AppendUnique(s.eliminated, p)
    ensures t.hands == s.hands[p := []]
  {
  }

  /** Someone without a seat holds nothing, so eliminating them moves no card. */
  lemma EliminateStranger(s: State, p: PlayerId)
    requires p !in s.hands
    ensures Eliminate(s, p) == s.(eliminated := AppendUnique(s.eliminated, p), hands := s.hands[p := []])
  {
  }

  /** Fewer active players by exactly the one eliminated. */
  lemma EliminateActive(s: State, p: PlayerId)
    requires Distinct(s.players)
    ensures |Without(s.players, AppendUnique(s.eliminated, p))|
            == |Active(s)| - (if p in s.players && p !in s.eliminated then 1 else 0)
  {
    if p !in s.eliminated { WithoutOneMore(s.players, s.eliminated, p); }
  }

  // ---------------------------------------------------------------------------
  // What the invariant says about the cards
  // ---------------------------------------------------------------------------

  lemma {:induction false} GatherCounts(m: map<PlayerId, seq<Card>>, ps: seq<PlayerId>, c: Card)
    ensures Copies(Gather(m, ps), c) == Tally(m, ps, c)
  {
    if ps != [] {
      GatherCounts(m, ps[1..], c);
      CopiesConcat(CardsAt(m, ps[0]), Gather(m, ps[1..]), c);
    }
  }

  lemma AllCardsCounts(s: State, c: Card)
    ensures Copies(AllCards(s), c) == CountOf(s, c)
  {
    GatherCounts(s.hands, s.players, c);
    GatherCounts(s.piles, s.players, c);
    var hands, piles := Gather(s.hands, s.players), Gather(s.piles, s.players);
    CopiesConcat(s.deck, hands, c);
    CopiesConcat(s.deck + hands, piles, c);
    CopiesConcat(s.deck + hands + piles, s.faceUp, c);
    CopiesConcat(s.deck + hands + piles + s.faceUp, FaceDown(s), c);
    CopiesConcat(s.deck + hands + piles + s.faceUp + FaceDown(s), s.choices, c);
  }

  lemma {:induction false} GatherSize(m: map<PlayerId, seq<Card>>, ps: seq<PlayerId>)
    ensures |Gather(m, ps)| == Volume(m, ps)
  {
    if ps != [] { GatherSize(m, ps[1..]); }
  }

  lemma AllCardsSize(s: State)
    ensures |AllCards(s)| == SizeOf(s)
  {
    GatherSize(s.hands, s.players);
    GatherSize(s.piles, s.players);
  }

  /** Deck, hands, piles, set-asides and shown choices are exactly the 21-card deck. */
  lemma CardsConserved(s: State)
    requires AllThere(s)
    ensures FullDeck(AllCards(s))
  {
    forall c ensures Copies(AllCards(s), c) == DeckCount(c) { AllCardsCounts(s, c); }
    AllCardsSize(s);
  }

  /** Open tokens never exceed the cap. */
  lemma {:induction false} SumBelow(tokens: map<PlayerId, nat>, ps: seq<PlayerId>, bound: nat)
    requires forall p :: p in ps ==> p in tokens && tokens[p] <= bound
    ensures Sum(tokens, ps) <= |ps| * bound
  {
    if ps != [] {
      SumBelow(tokens, ps[1..], bound);
      assert |ps| * bound == |ps[1..]| * bound + bound;
    }
  }

  lemma OpenSumCapped(s: State)
    requires Seats(s) && OpenScore(s)
    ensures Sum(s.tokens, s.players) <= Cap(|s.players|) <= 12
  {
    SumBelow(s.tokens, s.players, TokensToWin(|s.players|) - 1);
  }
}
