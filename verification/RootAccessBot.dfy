/** The bot's view of Root Access: sampling a world that fits what the bot sees, listing
    moves, and scoring positions. */
module RootAccessBot {
  import Shuffle
  import opened RootAccessCards
  import opened RootAccessEngine
  import opened RootAccessInvariant

  // ---------------------------------------------------------------------------
  // What the bot sees
  // ---------------------------------------------------------------------------

  /** The sum of `Copies` over the piles of the players in `ps`. */
  ghost function PileCopies(piles: map<PlayerId, seq<Card>>, ps: set<PlayerId>, c: Card): nat
    requires ps <= piles.Keys
  {
    if ps == {} then 0
    else
      var p :| p in ps;
      Copies(piles[p], c) + PileCopies(piles, ps - {p}, c)
  }

  /** The sum does not depend on the order in which the piles are visited. */
  lemma {:induction false} PileCopiesRemove(piles: map<PlayerId, seq<Card>>, ps: set<PlayerId>, q: PlayerId, c: Card)
    requires ps <= piles.Keys && q in ps
    ensures PileCopies(piles, ps, c) == Copies(piles[q], c) + PileCopies(piles, ps - {q}, c)
    decreases |ps|
  {
    var p :| p in ps && PileCopies(piles, ps, c) == Copies(piles[p], c) + PileCopies(piles, ps - {p}, c);
    if p != q {
      PileCopiesRemove(piles, ps - {p}, q, c);
      PileCopiesRemove(piles, ps - {q}, p, c);
      assert ps - {p} - {q} == ps - {q} - {p};
    }
  }

  /** Visiting every pile counts what the seats own together. */
  lemma {:induction false} PileCopiesIsTally(piles: map<PlayerId, seq<Card>>, players: seq<PlayerId>, ps: set<PlayerId>, c: Card)
    requires ps <= piles.Keys && Distinct(players)
    requires forall p :: p in ps <==> p in piles && p in players
    ensures PileCopies(piles, ps, c) == Tally(piles, players, c)
    decreases |players|
  {
    if players == [] {
      assert ps == {};
    } else {
      var p := players[0];
      assert p !in players[1..];
      if p in piles {
        PileCopiesRemove(piles, ps, p, c);
        PileCopiesIsTally(piles, players[1..], ps - {p}, c);
      } else {
        PileCopiesIsTally(piles, players[1..], ps, c);
      }
    }
  }

  /** How many copies of `c` the observer sees. */
  ghost function SeenCopies(s: State, me: PlayerId, c: Card): nat {
    Copies(Hand(s, me), c) + PileCopies(s.piles, s.piles.Keys, c) + Copies(s.faceUp, c)
    + if s.current == me then Copies(s.choices, c) else 0
  }

  /** Own hand, all piles (in any order), the face-up cards, and the choices if on turn. */
  method CollectVisible(s: State, me: PlayerId) returns (visible: seq<Card>)
    ensures forall c :: Copies(visible, c) == SeenCopies(s, me, c)
  {
    visible := Hand(s, me);
    var left := s.piles.Keys;
    while left != {}
      invariant left <= s.piles.Keys
      invariant forall c :: Copies(visible, c) + PileCopies(s.piles, left, c)
                            == Copies(Hand(s, me), c) + PileCopies(s.piles, s.piles.Keys, c)
      decreases |left|
    {
      var p :| p in left;
      forall c ensures Copies(visible + s.piles[p], c) + PileCopies(s.piles, left - {p}, c)
                       == Copies(Hand(s, me), c) + PileCopies(s.piles, s.piles.Keys, c) {
        PileCopiesRemove(s.piles, left, p, c);
        CopiesConcat(visible, s.piles[p], c);
      }
      visible := visible + s.piles[p];
      left := left - {p};
    }
    ghost var base := visible;
    forall c ensures Copies(base + s.faceUp, c) == Copies(base, c) + Copies(s.faceUp, c) { CopiesConcat(base, s.faceUp, c); }
    visible := visible + s.faceUp;
    if s.current == me {
      ghost var more := visible;
      forall c ensures Copies(more + s.choices, c) == Copies(more, c) + Copies(s.choices, c) { CopiesConcat(more, s.choices, c); }
      visible := visible + s.choices;
    }
  }

  // ---------------------------------------------------------------------------
  // The unknown cards
  // ---------------------------------------------------------------------------

  function Max0(x: int): nat { if x < 0 then 0 else x }

  function Min(x: nat, y: nat): nat { if x < y then x else y }

  lemma CopiesSnoc(cards: seq<Card>, i: nat)
    requires i < |cards|
    ensures forall c :: Copies(cards[..i + 1], c) == Copies(cards[..i], c) + if cards[i] == c then 1 else 0
  {
    forall c ensures Copies(cards[..i + 1], c) == Copies(cards[..i], c) + if cards[i] == c then 1 else 0 {
      assert cards[..i + 1] == cards[..i] + [cards[i]];
      CopiesConcat(cards[..i], [cards[i]], c);
      CopiesCons(cards[i], [], c);
    }
  }

  /** A Go map lookup: a missing key counts as zero. */
  function Count(counts: map<Card, nat>, c: Card): nat { if c in counts then counts[c] else 0 }

  method CountCards(cards: seq<Card>) returns (counts: map<Card, nat>)
    ensures forall c :: Count(counts, c) == Copies(cards, c)
  {
    counts := map[];
    for i := 0 to |cards|
      invariant forall c :: Count(counts, c) == Copies(cards[..i], c)
    {
      CopiesSnoc(cards, i);
      ghost var before := counts;
      counts := counts[cards[i] := Count(counts, cards[i]) + 1];
      assert forall c :: Count(counts, c) == Count(before, c) + if c == cards[i] then 1 else 0;
    }
    assert cards[..|cards|] == cards;
  }

  method Discount(all: map<Card, nat>, visible: seq<Card>) returns (counts: map<Card, nat>)
    ensures forall c :: Count(counts, c) == Max0(Count(all, c) - Copies(visible, c))
  {
    counts := all;
    for i := 0 to |visible|
      invariant forall c :: Count(counts, c) == Max0(Count(all, c) - Copies(visible[..i], c))
    {
      CopiesSnoc(visible, i);
      if Count(counts, visible[i]) > 0 { counts := counts[visible[i] := counts[visible[i]] - 1]; }
    }
    assert visible[..|visible|] == visible;
  }

  /** The cards of `deck` in order, as long as `all` still has some of them to give. */
  method Take(deck: seq<Card>, all: map<Card, nat>) returns (pool: seq<Card>)
    ensures forall c :: Copies(pool, c) == Min(Count(all, c), Copies(deck, c))
    ensures |pool| <= |deck|
  {
    var counts := all;
    pool := [];
    for i := 0 to |deck|
      invariant forall c :: Copies(pool, c) == Min(Count(all, c), Copies(deck[..i], c))
      invariant forall c :: Count(counts, c) == Count(all, c) - Copies(pool, c)
      invariant |pool| <= i
    {
      CopiesSnoc(deck, i);
      if Count(counts, deck[i]) > 0 {
        ghost var longer := pool + [deck[i]];
        CopiesSnoc(longer, |pool|);
        assert longer[..|pool|] == pool && longer[..|pool| + 1] == longer;
        counts := counts[deck[i] := counts[deck[i]] - 1];
        pool := pool + [deck[i]];
      }
    }
    assert deck[..|deck|] == deck;
  }

  /** `buildUnknownPool` is multiset subtraction from the full deck. */
  method BuildUnknownPool(visible: seq<Card>) returns (pool: seq<Card>)
    ensures forall c :: Copies(pool, c) == Max0(DeckCount(c) - Copies(visible, c))
    ensures |pool| <= DECK_SIZE
  {
    var deck := BuildDeck();
    var all := CountCards(deck);
    var counts := Discount(all, visible);
    pool := Take(deck, counts);
  }

  method BuildDeck() returns (deck: seq<Card>)
    ensures FullDeck(deck)
  {
    deck := Composition();
    FullDeckIsComposition(deck);
  }

  // ---------------------------------------------------------------------------
  // Determinization
  // ---------------------------------------------------------------------------

  /** Whom the sampling gives a card. */
  predicate Opponent(me: PlayerId, out: seq<PlayerId>, p: PlayerId) { p != me && p !in out }

  /** One unknown card to each opponent among `ps`, as long as there are any. */
  function Sample(ps: seq<PlayerId>, me: PlayerId, out: seq<PlayerId>, hands: map<PlayerId, seq<Card>>, pool: seq<Card>)
    : (map<PlayerId, seq<Card>>, seq<Card>)
  {
    if ps == [] then (hands, pool)
    else if Opponent(me, out, ps[0]) && pool != [] then
      Sample(ps[1..], me, out, hands[ps[0] := [pool[0]]], pool[1..])
    else Sample(ps[1..], me, out, hands, pool)
  }

  /** The sampled world for a given order of the unknown cards. */
  function Sampled(s: State, me: PlayerId, pool: seq<Card>): State {
    var (hands, left) := Sample(s.players, me, s.eliminated, s.hands, pool);
    s.(hands := hands, deck := left)
  }

  /** `pool` is the shuffled unknown pool, in whatever order it came out. */
  method Determinize(s: State, me: PlayerId, pool: seq<Card>) returns (world: State)
    ensures world == Sampled(s, me, pool)
  {
    var left := pool;
    var hands := s.hands;
    var i := 0;
    while i < |s.players| && left != []
      invariant 0 <= i <= |s.players|
      invariant Sample(s.players[i..], me, s.eliminated, hands, left) == Sample(s.players, me, s.eliminated, s.hands, pool)
    {
      var p := s.players[i];
      assert s.players[i..][1..] == s.players[i + 1..];
      if p != me && p !in s.eliminated {
        hands := hands[p := [left[0]]];
        left := left[1..];
      }
      i := i + 1;
    }
    SampleOfNothing(s.players[i..], me, s.eliminated, hands, left);
    world := s.(hands := hands, deck := left);
  }

  lemma {:induction false} SampleOfNothing(ps: seq<PlayerId>, me: PlayerId, out: seq<PlayerId>,
                                           hands: map<PlayerId, seq<Card>>, pool: seq<Card>)
    requires ps == [] || pool == []
    ensures Sample(ps, me, out, hands, pool) == (hands, pool)
  {
    if ps != [] { SampleOfNothing(ps[1..], me, out, hands, pool); }
  }

  function Opponents(ps: seq<PlayerId>, me: PlayerId, out: seq<PlayerId>): nat {
    if ps == [] then 0 else (if Opponent(me, out, ps[0]) then 1 else 0) + Opponents(ps[1..], me, out)
  }

  /** With enough unknown cards, every opponent gets exactly one and nobody else is touched. */
  lemma {:induction false} SampleEach(ps: seq<PlayerId>, me: PlayerId, out: seq<PlayerId>,
                                      hands: map<PlayerId, seq<Card>>, pool: seq<Card>, p: PlayerId)
    requires Distinct(ps) && Opponents(ps, me, out) <= |pool|
    ensures p in ps && Opponent(me, out, p) ==> |CardsAt(Sample(ps, me, out, hands, pool).0, p)| == 1
    ensures p !in ps || !Opponent(me, out, p) ==>
              CardsAt(Sample(ps, me, out, hands, pool).0, p) == CardsAt(hands, p)
  {
    if ps != [] {
      assert ps[0] !in ps[1..];
      if Opponent(me, out, ps[0]) {
        SampleEach(ps[1..], me, out, hands[ps[0] := [pool[0]]], pool[1..], p);
      } else {
        SampleEach(ps[1..], me, out, hands, pool, p);
      }
    }
  }

  /** The copies of `c` among `ps` that sampling leaves where they are. */
  ghost function Kept(ps: seq<PlayerId>, me: PlayerId, out: seq<PlayerId>, hands: map<PlayerId, seq<Card>>, c: Card): nat {
    if ps == [] then 0
    else (if Opponent(me, out, ps[0]) then 0 else Copies(CardsAt(hands, ps[0]), c)) + Kept(ps[1..], me, out, hands, c)
  }

  lemma {:induction false} KeptFrame(ps: seq<PlayerId>, me: PlayerId, out: seq<PlayerId>,
                                     hands: map<PlayerId, seq<Card>>, p: PlayerId, cards: seq<Card>, c: Card)
    requires Opponent(me, out, p)
    ensures Kept(ps, me, out, hands[p := cards], c) == Kept(ps, me, out, hands, c)
  {
    if ps != [] { KeptFrame(ps[1..], me, out, hands, p, cards, c); }
  }

  /** Sampled hands and sampled deck are made of the kept hands and the pool. */
  lemma {:induction false} SampleCounts(ps: seq<PlayerId>, me: PlayerId, out: seq<PlayerId>,
                                        hands: map<PlayerId, seq<Card>>, pool: seq<Card>, c: Card)
    requires Distinct(ps) && Opponents(ps, me, out) <= |pool|
    ensures var (hands', left) := Sample(ps, me, out, hands, pool);
            Tally(hands', ps, c) + Copies(left, c) == Kept(ps, me, out, hands, c) + Copies(pool, c)
  {
    if ps != [] {
      var p := ps[0];
      assert p !in ps[1..];
      if Opponent(me, out, p) {
        SampleCounts(ps[1..], me, out, hands[p := [pool[0]]], pool[1..], c);
        SampleEach(ps[1..], me, out, hands[p := [pool[0]]], pool[1..], p);
        KeptFrame(ps[1..], me, out, hands, p, [pool[0]], c);
        CopiesCons(pool[0], pool[1..], c);
      } else {
        SampleCounts(ps[1..], me, out, hands, pool, c);
        SampleEach(ps[1..], me, out, hands, pool, p);
      }
    }
  }

  /** Sampling uses up one card per opponent. */
  lemma {:induction false} SampleSize(ps: seq<PlayerId>, me: PlayerId, out: seq<PlayerId>,
                                      hands: map<PlayerId, seq<Card>>, pool: seq<Card>)
    requires Distinct(ps) && Opponents(ps, me, out) <= |pool|
    ensures |Sample(ps, me, out, hands, pool).1| == |pool| - Opponents(ps, me, out)
  {
    if ps != [] {
      if Opponent(me, out, ps[0]) {
        SampleSize(ps[1..], me, out, hands[ps[0] := [pool[0]]], pool[1..]);
      } else {
        SampleSize(ps[1..], me, out, hands, pool);
      }
    }
  }

  // ---------------------------------------------------------------------------
  // The sampled world fits the observations
  // ---------------------------------------------------------------------------

  /** The opponents' real hands. */
  ghost function HiddenHands(ps: seq<PlayerId>, me: PlayerId, out: seq<PlayerId>, hands: map<PlayerId, seq<Card>>): seq<Card> {
    if ps == [] then []
    else (if Opponent(me, out, ps[0]) then CardsAt(hands, ps[0]) else []) + HiddenHands(ps[1..], me, out, hands)
  }

  lemma {:induction false} HiddenCounts(ps: seq<PlayerId>, me: PlayerId, out: seq<PlayerId>,
                                        hands: map<PlayerId, seq<Card>>, c: Card)
    ensures Tally(hands, ps, c) == Kept(ps, me, out, hands, c) + Copies(HiddenHands(ps, me, out, hands), c)
  {
    if ps != [] {
      HiddenCounts(ps[1..], me, out, hands, c);
      CopiesConcat(if Opponent(me, out, ps[0]) then CardsAt(hands, ps[0]) else [], HiddenHands(ps[1..], me, out, hands), c);
    }
  }

  lemma {:induction false} HiddenSize(ps: seq<PlayerId>, me: PlayerId, out: seq<PlayerId>, hands: map<PlayerId, seq<Card>>)
    requires forall p :: p in ps && Opponent(me, out, p) ==> |CardsAt(hands, p)| == 1
    ensures |HiddenHands(ps, me, out, hands)| == Opponents(ps, me, out)
  {
    if ps != [] {
      assert ps[0] in ps;
      HiddenSize(ps[1..], me, out, hands);
    }
  }

  /** Only the observer's own hand is kept. */
  lemma {:induction false} KeptIsOwn(ps: seq<PlayerId>, me: PlayerId, out: seq<PlayerId>,
                                     hands: map<PlayerId, seq<Card>>, c: Card)
    requires Distinct(ps) && forall p :: p in ps && p != me && p in out ==> CardsAt(hands, p) == []
    ensures Kept(ps, me, out, hands, c) == if me in ps then Copies(CardsAt(hands, me), c) else 0
  {
    if ps != [] {
      assert ps[0] in ps && ps[0] !in ps[1..];
      KeptIsOwn(ps[1..], me, out, hands, c);
      assert me in ps <==> me == ps[0] || me in ps[1..];
    }
  }

  /** What the observer on turn does not see. */
  ghost function Hidden(s: State): seq<Card> {
    s.deck + HiddenHands(s.players, s.current, s.eliminated, s.hands) + FaceDown(s)
  }

  lemma HandsSplit(s: State, c: Card)
    requires OnTurn(s)
    ensures Tally(s.hands, s.players, c)
            == Copies(Hand(s, s.current), c) + Copies(HiddenHands(s.players, s.current, s.eliminated, s.hands), c)
    ensures Kept(s.players, s.current, s.eliminated, s.hands, c) == Copies(Hand(s, s.current), c)
  {
    forall p | p in s.players && p != s.current && p in s.eliminated ensures CardsAt(s.hands, p) == [] {
      assert |Hand(s, p)| == Due(s, p);
    }
    HiddenCounts(s.players, s.current, s.eliminated, s.hands, c);
    KeptIsOwn(s.players, s.current, s.eliminated, s.hands, c);
  }

  lemma SeenPlusHidden(s: State, c: Card)
    requires OnTurn(s)
    ensures SeenCopies(s, s.current, c) + Copies(Hidden(s), c) == DeckCount(c)
  {
    HandsSplit(s, c);
    PileCopiesIsTally(s.piles, s.players, s.piles.Keys, c);
    var theirs := HiddenHands(s.players, s.current, s.eliminated, s.hands);
    CopiesConcat(s.deck, theirs, c);
    CopiesConcat(s.deck + theirs, FaceDown(s), c);
  }

  /** The unknown pool of a bot on turn is exactly what it does not see, in some order. */
  ghost predicate IsUnknownPool(s: State, pool: seq<Card>) {
    forall c :: Copies(pool, c) == Max0(DeckCount(c) - SeenCopies(s, s.current, c))
  }

  lemma PoolIsHidden(s: State, pool: seq<Card>)
    requires OnTurn(s) && IsUnknownPool(s, pool)
    ensures forall c :: Copies(pool, c) == Copies(Hidden(s), c)
    ensures |pool| == |s.deck| + Opponents(s.players, s.current, s.eliminated) + 1
  {
    forall c ensures Copies(pool, c) == Copies(Hidden(s), c) { SeenPlusHidden(s, c); }
    SameCopies(pool, Hidden(s));
    assert |multiset(pool)| == |multiset(Hidden(s))|;
    forall p | p in s.players && Opponent(s.current, s.eliminated, p) ensures |CardsAt(s.hands, p)| == 1 {
      assert |Hand(s, p)| == Due(s, p);
    }
    HiddenSize(s.players, s.current, s.eliminated, s.hands);
  }

  /** Determinizing on turn keeps what the bot sees and gives every active opponent exactly
      one card. */
  lemma SampledHands(s: State, pool: seq<Card>, world: State, p: PlayerId)
    requires OnTurn(s) && IsUnknownPool(s, pool) && world == Sampled(s, s.current, pool)
    ensures world == s.(hands := world.hands, deck := world.deck)
    ensures Hand(world, s.current) == Hand(s, s.current)
    ensures p in s.players && p != s.current ==> |Hand(world, p)| == if p in s.eliminated then 0 else 1
    ensures |world.deck| == |s.deck| + 1
  {
    PoolIsHidden(s, pool);
    SampleEach(s.players, s.current, s.eliminated, s.hands, pool, p);
    SampleEach(s.players, s.current, s.eliminated, s.hands, pool, s.current);
    SampleSize(s.players, s.current, s.eliminated, s.hands, pool);
    if p in s.players { assert |Hand(s, p)| == Due(s, p); }
  }

  /** Seen cards, sampled opponents' hands and sampled deck are exactly the 21 cards. */
  lemma SampledWorldFits(s: State, pool: seq<Card>, world: State, c: Card)
    requires OnTurn(s) && IsUnknownPool(s, pool) && world == Sampled(s, s.current, pool)
    ensures SeenCopies(s, s.current, c)
            + (Tally(world.hands, s.players, c) - Copies(Hand(world, s.current), c))
            + Copies(world.deck, c) == DeckCount(c)
  {
    PoolIsHidden(s, pool);
    SampledHands(s, pool, world, s.current);
    SampleCounts(s.players, s.current, s.eliminated, s.hands, pool, c);
    HandsSplit(s, c);
    SeenPlusHidden(s, c);
  }

  /** The face-down card is sampled into the deck but also stays set aside, so the world the
      search plays on holds 22 cards and is never a position of a legal game. */
  lemma SampledWorldHasOneTooMany(s: State, pool: seq<Card>, world: State)
    requires OnTurn(s) && IsUnknownPool(s, pool) && world == Sampled(s, s.current, pool)
    ensures SizeOf(world) == DECK_SIZE + 1 && !Inv(world)
  {
    SampledHands(s, pool, world, s.current);
    forall p | p in s.players ensures |Hand(world, p)| == |Hand(s, p)| {
      SampledHands(s, pool, world, p);
      assert |Hand(s, p)| == Due(s, p);
    }
    SameVolume(s.hands, world.hands, s.players);
  }

  lemma {:induction false} SameVolume(m: map<PlayerId, seq<Card>>, m': map<PlayerId, seq<Card>>, ps: seq<PlayerId>)
    requires forall p :: p in ps ==> |CardsAt(m', p)| == |CardsAt(m, p)|
    ensures Volume(m', ps) == Volume(m, ps)
  {
    if ps != [] {
      assert ps[0] in ps;
      SameVolume(m, m', ps[1..]);
    }
  }

  // ---------------------------------------------------------------------------
  // The whole of it
  // ---------------------------------------------------------------------------

  /** What a sampled world for the player on turn must satisfy: it keeps what the player sees,
      gives each active opponent one card, and uses the 21 cards exactly. */
  ghost predicate Consistent(s: State, world: State) {
    && world == s.(hands := world.hands, deck := world.deck)
    && Hand(world, s.current) == Hand(s, s.current)
    && (forall p :: p in s.players && p != s.current ==> |Hand(world, p)| == if p in s.eliminated then 0 else 1)
    && forall c :: SeenCopies(s, s.current, c) + (Tally(world.hands, s.players, c) - Copies(Hand(world, s.current), c))
                   + Copies(world.deck, c) == DeckCount(c)
  }

  lemma SampledIsConsistent(s: State, pool: seq<Card>, world: State)
    requires OnTurn(s) && IsUnknownPool(s, pool) && world == Sampled(s, s.current, pool)
    ensures Consistent(s, world)
  {
    SampledHands(s, pool, world, s.current);
    forall p | p in s.players && p != s.current ensures |Hand(world, p)| == if p in s.eliminated then 0 else 1 {
      SampledHands(s, pool, world, p);
    }
    forall c ensures SeenCopies(s, s.current, c) + (Tally(world.hands, s.players, c) - Copies(Hand(world, s.current), c))
                     + Copies(world.deck, c) == DeckCount(c) {
      SampledWorldFits(s, pool, world, c);
    }
  }

  /** Collecting, subtracting, shuffling and sampling: for any random draws the bot on turn gets
      a consistent world. */
  method SampleWorld(s: State, me: PlayerId, draws: seq<nat>) returns (world: State)
    requires |draws| == DECK_SIZE && forall i :: 0 <= i < |draws| ==> draws[i] <= i
    ensures OnTurn(s) && me == s.current ==> Consistent(s, world)
  {
    var visible := CollectVisible(s, me);
    var pool := BuildUnknownPool(visible);
    var shuffled := Shuffle.ShuffleWith(pool, draws[..|pool|]);
    world := Determinize(s, me, shuffled);
    if OnTurn(s) && me == s.current {
      forall c ensures Copies(shuffled, c) == Max0(DeckCount(c) - SeenCopies(s, me, c)) {
        CopiesIsMultiplicity(shuffled, c);
        CopiesIsMultiplicity(pool, c);
      }
      SampledIsConsistent(s, shuffled, world);
    }
  }
}
