/** The rules of Root Access as the table sees them: who holds, sheds and loses what when a
    card is played, a Debugger is resolved or a player is timed out. The rules speak of hands,
    piles and places only; every legal move of every game obeys them. */
module RootAccessCardLaws {
  import opened RootAccessCards
  import opened RootAccessEngine
  import opened RootAccessInvariant
  import opened RootAccessEffects
  import opened RootAccessStep
  import opened RootAccessRuns
  import opened RootAccessSafety

  // ---------------------------------------------------------------------------
  // What the table sees
  // ---------------------------------------------------------------------------

  /** One player's hand and pile, and whether the player is out of the round. */
  datatype Seat = Seat(hand: seq<Card>, pile: seq<Card>, out: bool)

  function SeatAt(s: State, p: PlayerId): Seat { Seat(Hand(s, p), Pile(s, p), p in s.eliminated) }

  /** Still in, with `hand`, after shedding `shed` onto the pile. */
  function Stays(s: State, p: PlayerId, hand: seq<Card>, shed: seq<Card>): Seat {
    Seat(hand, Pile(s, p) + shed, false)
  }

  /** Out, with the last cards on the pile. */
  function Falls(s: State, p: PlayerId, shed: seq<Card>): Seat { Seat([], Pile(s, p) + shed, true) }

  /** The players in `changed` end up as it says, everybody else is as before. */
  ghost predicate SeatsBecome(s: State, b: State, changed: map<PlayerId, Seat>) {
    forall q :: SeatAt(b, q) == if q in changed then changed[q] else SeatAt(s, q)
  }

  /** Nothing off the seats has moved. */
  predicate TableRests(s: State, b: State) {
    && SameTable(s, b) && b.phase == s.phase && b.choices == s.choices
    && b.deck == s.deck && b.faceDown == s.faceDown
  }

  /** `p` is on the list now, once, behind those who were on it. */
  predicate Listed(before: seq<PlayerId>, after: seq<PlayerId>, p: PlayerId) {
    if p in before then after == before else after == before + [p]
  }

  /** The Backdoor list after `p` fell holding `hand`. */
  predicate BackdoorBooked(s: State, b: State, p: PlayerId, hand: seq<Card>) {
    if Backdoor in hand then Listed(s.backdoor, b.backdoor, p) else b.backdoor == s.backdoor
  }

  predicate MarksStay(s: State, b: State) { b.backdoor == s.backdoor && b.protected == s.protected }

  /** The card left of two when `c` is played. */
  function Kept(hand: seq<Card>, c: Card): Card
    requires |hand| == 2
  {
    if hand[0] == c then hand[1] else hand[0]
  }

  /** The log gains `entries`, in that order. */
  predicate Logs(s: State, b: State, entries: seq<Discard>) { b.log == s.log + entries }

  /** `p` sheds `cards` in order. */
  function Entries(p: PlayerId, cards: seq<Card>): seq<Discard> {
    seq(|cards|, i requires 0 <= i < |cards| => Discard(p, cards[i]))
  }

  // ---------------------------------------------------------------------------
  // The rules
  // ---------------------------------------------------------------------------

  /** Nothing but the discard of the card played. */
  ghost predicate PlainRule(s: State, c: Card, k: Card, b: State) {
    && SeatsBecome(s, b, map[s.current := Stays(s, s.current, [k], [c])])
    && TableRests(s, b) && Logs(s, b, [Discard(s.current, c)])
  }

  /** Both show their card: whoever has the lower one is out, on equal cards nobody. */
  ghost predicate OverflowRule(s: State, q: PlayerId, k: Card, d: Card, b: State) {
    var p := s.current;
    && TableRests(s, b) && b.protected == s.protected && b.privateReveals == map[]
    && if Place(k) < Place(d) then
         && SeatsBecome(s, b, map[p := Falls(s, p, [BufferOverflow, k])])
         && BackdoorBooked(s, b, p, [k]) && Logs(s, b, [Discard(p, BufferOverflow), Discard(p, k)])
       else if Place(d) < Place(k) then
         && SeatsBecome(s, b, map[p := Stays(s, p, [k], [BufferOverflow]), q := Falls(s, q, [d])])
         && BackdoorBooked(s, b, q, [d]) && Logs(s, b, [Discard(p, BufferOverflow), Discard(q, d)])
       else
         && SeatsBecome(s, b, map[p := Stays(s, p, [k], [BufferOverflow])])
         && b.backdoor == s.backdoor && Logs(s, b, [Discard(p, BufferOverflow)])
  }

  /** The target is out exactly if the guess names their card. */
  ghost predicate PingRule(s: State, q: PlayerId, guess: CardName, k: Card, d: Card, b: State) {
    var p := s.current;
    && TableRests(s, b) && b.protected == s.protected && b.privateReveals == map[]
    && if guess == Known(d) then
         && SeatsBecome(s, b, map[p := Stays(s, p, [k], [Ping]), q := Falls(s, q, [d])])
         && BackdoorBooked(s, b, q, [d]) && Logs(s, b, [Discard(p, Ping), Discard(q, d)])
       else
         && SeatsBecome(s, b, map[p := Stays(s, p, [k], [Ping])])
         && b.backdoor == s.backdoor && Logs(s, b, [Discard(p, Ping)])
  }

  /** The two hands change places. */
  ghost predicate SwapRule(s: State, q: PlayerId, k: Card, d: Card, b: State) {
    && SeatsBecome(s, b, map[s.current := Stays(s, s.current, [d], [Swap]), q := Stays(s, q, [k], [])])
    && TableRests(s, b) && MarksStay(s, b) && b.privateReveals == map[]
    && Logs(s, b, [Discard(s.current, Swap)])
  }

  /** Where the replacement for a rebooted card comes from: the top of the deck, or, once the deck
      is empty, the face-down card. */
  predicate Supplies(s: State, card: Card, b: State) {
    if s.deck != [] then s.deck == [card] + b.deck && b.faceDown == s.faceDown
    else b.deck == [] && s.faceDown == Some(card) && b.faceDown == None
  }

  /** `q` sheds `d` and draws `card`; shedding the Root is the end. A Backdoor shed this way is
      not recorded. */
  ghost predicate RebootRule(s: State, q: PlayerId, k: Card, d: Card, card: Card, b: State) {
    var p := s.current;
    var shed := if q == p then [Reboot, d] else [d];
    && SameTable(s, b) && b.phase == s.phase && b.choices == s.choices
    && MarksStay(s, b) && b.privateReveals == map[] && Logs(s, b, [Discard(p, Reboot), Discard(q, d)])
    && SeatsBecome(s, b, map[p := Stays(s, p, [k], [Reboot]),
                             q := if d == Root then Falls(s, q, shed) else Stays(s, q, [card], shed)])
    && if d == Root then b.deck == s.deck && b.faceDown == s.faceDown else Supplies(s, card, b)
  }

  /** The player on turn is out, by the card played. */
  ghost predicate RootRule(s: State, k: Card, b: State) {
    && SeatsBecome(s, b, map[s.current := Falls(s, s.current, [Root, k])])
    && TableRests(s, b) && BackdoorBooked(s, b, s.current, [k])
    && b.protected == s.protected && b.privateReveals == map[]
    && Logs(s, b, [Discard(s.current, Root), Discard(s.current, k)])
  }

  /** The kept card and the next two, or what the deck has, are shown; the hand is empty. */
  ghost predicate DebuggerRule(s: State, k: Card, b: State) {
    && SeatsBecome(s, b, map[s.current := Stays(s, s.current, [], [Debugger])])
    && SameTable(s, b) && MarksStay(s, b) && b.privateReveals == map[] && b.faceDown == s.faceDown
    && b.phase == DebuggerPending && Logs(s, b, [Discard(s.current, Debugger)])
    && b.choices + b.deck == [k] + s.deck
    && (if |s.deck| < 2 then b.deck == [] else |b.choices| == 3)
  }

  /** The card kept is the new hand, the two given back go under the deck, in that order. */
  ghost predicate ResolveRule(s: State, keep: Card, back0: Card, back1: Card, b: State) {
    && SeatsBecome(s, b, map[s.current := Stays(s, s.current, [keep], [])])
    && SameTable(s, b) && MarksStay(s, b) && b.faceDown == s.faceDown
    && b.privateReveals == s.privateReveals && Logs(s, b, [])
    && b.phase == Playing && b.choices == []
    && b.deck == s.deck + [back0, back1]
  }

  /** The player timed out is out with everything they hold. */
  ghost predicate PenaltyRule(s: State, p: PlayerId, b: State) {
    && SeatsBecome(s, b, map[p := Falls(s, p, Hand(s, p))])
    && TableRests(s, b) && BackdoorBooked(s, b, p, Hand(s, p))
    && b.protected == s.protected && b.privateReveals == s.privateReveals
    && Logs(s, b, Entries(p, Hand(s, p)))
  }

  /** The cards whose effect is a mark. */
  ghost predicate MarkRule(s: State, c: Card, k: Card, b: State) {
    && PlainRule(s, c, k, b) && b.privateReveals == map[]
    && (if c == Backdoor then Listed(s.backdoor, b.backdoor, s.current) else b.backdoor == s.backdoor)
    && (if c == Firewall then Listed(s.protected, b.protected, s.current) else b.protected == s.protected)
  }

  /** The player on turn, and nobody else, is told the target's card. */
  ghost predicate SnifferRule(s: State, k: Card, d: Card, b: State) {
    && PlainRule(s, Sniffer, k, b) && MarksStay(s, b)
    && b.privateReveals == map[s.current := Some(d)]
  }

  /** The rule for a card played against `q`. */
  ghost predicate TargetRule(s: State, m: Move, c: Card, q: PlayerId, k: Card, d: Card, b: State) {
    match c
    case BufferOverflow => OverflowRule(s, q, k, d, b)
    case Ping => PingRule(s, q, m.guess, k, d, b)
    case Sniffer => SnifferRule(s, k, d, b)
    case Swap => SwapRule(s, q, k, d, b)
    case _ => MarkRule(s, c, k, b)
  }

  /** The rule for a card played, `k` being the card kept. */
  ghost predicate PlayRule(s: State, m: Move, c: Card, k: Card, b: State) {
    match c
    case Root => RootRule(s, k, b)
    case Debugger => DebuggerRule(s, k, b)
    case Reboot =>
      var q := m.target.GetOr(s.current);
      var d := if q == s.current then k else First(s, q);
      exists card :: RebootRule(s, q, k, d, card, b)
    case Backdoor | Firewall | EncryptedKey => MarkRule(s, c, k, b)
    case _ => if m.target.Some? then TargetRule(s, m, c, m.target.value, k, First(s, m.target.value), b)
              else MarkRule(s, c, k, b)
  }

  /** The first card of a hand. */
  function First(s: State, p: PlayerId): Card { if Hand(s, p) == [] then Backdoor else Hand(s, p)[0] }

  /** The rule for any accepted move. */
  ghost predicate ByTheRules(s: State, m: Move, b: State)
    requires Accepted(s, m) && s.phase != GameOver && (s.phase == Playing ==> |Hand(s, s.current)| == 2)
  {
    if m.card == PenaltyLose then PenaltyRule(s, m.player, b)
    else if s.phase == DebuggerPending then ResolveRule(s, m.keep.card, m.ret[0].card, m.ret[1].card, b)
    else PlayRule(s, m, m.card.card, Kept(Hand(s, s.current), m.card.card), b)
  }

  // ---------------------------------------------------------------------------
  // One card at a time
  // ---------------------------------------------------------------------------

  /** The player on turn plays `c` of two cards and keeps `k`. */
  predicate Plays(s: State, m: Move, c: Card, k: Card) {
    && s.phase == Playing && Accepted(s, m) && m.card == Known(c)
    && |Hand(s, s.current)| == 2 && k == Kept(Hand(s, s.current), c)
  }

  lemma CardLeavesHand(s: State, m: Move, c: Card, k: Card, mid: State)
    requires Plays(s, m, c, k) && mid == PlayCard(s, s.current, c)
    ensures m.player == s.current && s.current !in s.eliminated
    ensures PlainRule(s, c, k, mid) && MarksStay(s, mid) && mid.privateReveals == map[]
  {
    var hand := Hand(s, s.current);
    assert hand == [hand[0], hand[1]] && hand[1..] == [hand[1]];
    assert RemoveFirst(hand, c) == [k];
  }

  lemma OneFalls(s: State, p: PlayerId, d: Card, b: State)
    requires Hand(s, p) == [d] && b == Eliminate(s, p)
    ensures SeatsBecome(s, b, map[p := Falls(s, p, [d])])
    ensures TableRests(s, b) && BackdoorBooked(s, b, p, [d])
    ensures b.protected == s.protected && b.privateReveals == s.privateReveals
    ensures Logs(s, b, [Discard(p, d)])
  {
    PenaltyObeys(s, p, b);
    assert Entries(p, [d]) == [Discard(p, d)];
  }

  /** Shedding a hand card by card touches one pile only. */
  lemma {:induction false} DiscardAllSeats(s: State, p: PlayerId, cards: seq<Card>, t: State, q: PlayerId)
    requires t == DiscardAll(s, p, cards)
    ensures Pile(t, q) == if q == p then Pile(s, p) + cards else Pile(s, q)
    ensures Logs(s, t, Entries(p, cards))
    decreases |cards|
  {
    if cards != [] {
      DiscardAllSeats(AppendDiscard(s, p, cards[0]), p, cards[1..], t, q);
      assert Entries(p, cards) == [Discard(p, cards[0])] + Entries(p, cards[1..]);
    }
  }

  lemma PenaltyObeys(s: State, p: PlayerId, b: State)
    requires b == Eliminate(s, p)
    ensures PenaltyRule(s, p, b)
  {
    EliminateFrame(s, p, b);
    var listed := s.(eliminated := AppendUnique(s.eliminated, p));
    DiscardAllSeats(listed, p, Hand(s, p), DiscardAll(listed, p, Hand(s, p)), p);
    forall q ensures SeatAt(b, q) == if q == p then Falls(s, p, Hand(s, p)) else SeatAt(s, q) {
      DiscardAllSeats(listed, p, Hand(s, p), DiscardAll(listed, p, Hand(s, p)), q);
    }
  }

  /** The card is played, then its player falls with the card kept. */
  lemma ThenActorFalls(s: State, c: Card, k: Card, mid: State, b: State)
    requires PlainRule(s, c, k, mid) && MarksStay(s, mid) && mid.privateReveals == map[]
    requires b == Eliminate(mid, s.current)
    ensures SeatsBecome(s, b, map[s.current := Falls(s, s.current, [c, k])])
    ensures TableRests(s, b) && BackdoorBooked(s, b, s.current, [k])
    ensures b.protected == s.protected && b.privateReveals == map[]
    ensures Logs(s, b, [Discard(s.current, c), Discard(s.current, k)])
  {
    assert SeatAt(mid, s.current).hand == [k];
    OneFalls(mid, s.current, k, b);
  }

  /** The card is played, then its target falls. */
  lemma ThenTargetFalls(s: State, c: Card, k: Card, mid: State, q: PlayerId, d: Card, b: State)
    requires PlainRule(s, c, k, mid) && MarksStay(s, mid) && mid.privateReveals == map[]
    requires q != s.current && Hand(s, q) == [d] && b == Eliminate(mid, q)
    ensures SeatsBecome(s, b, map[s.current := Stays(s, s.current, [k], [c]), q := Falls(s, q, [d])])
    ensures TableRests(s, b) && BackdoorBooked(s, b, q, [d])
    ensures b.protected == s.protected && b.privateReveals == map[]
    ensures Logs(s, b, [Discard(s.current, c), Discard(q, d)])
  {
    assert SeatAt(mid, q) == SeatAt(s, q);
    OneFalls(mid, q, d, b);
  }

  lemma OverflowCompares(s: State, p: PlayerId, q: PlayerId, k: Card, d: Card, b: State)
    requires Hand(s, p) == [k] && Hand(s, q) == [d] && b == ApplyBufferOverflow(s, p, Some(q))
    ensures Place(k) < Place(d) ==> b == Eliminate(s, p)
    ensures Place(d) < Place(k) ==> b == Eliminate(s, q)
    ensures Place(d) == Place(k) ==> b == s
  {
    ValueIsPlace(k);
    ValueIsPlace(d);
  }

  lemma OverflowObeys(s: State, m: Move, q: PlayerId, k: Card, d: Card, b: State)
    requires Plays(s, m, BufferOverflow, k) && m.target == Some(q) && Hand(s, q) == [d] && b == Handed(s, m)
    ensures OverflowRule(s, q, k, d, b)
  {
    var mid := PlayCard(s, s.current, BufferOverflow);
    CardLeavesHand(s, m, BufferOverflow, k, mid);
    assert SeatAt(mid, q) == SeatAt(s, q) && SeatAt(mid, s.current).hand == [k];
    OverflowCompares(mid, s.current, q, k, d, b);
    if Place(k) < Place(d) {
      ThenActorFalls(s, BufferOverflow, k, mid, b);
    } else if Place(d) < Place(k) {
      ThenTargetFalls(s, BufferOverflow, k, mid, q, d, b);
    }
  }

  lemma PingObeys(s: State, m: Move, q: PlayerId, k: Card, d: Card, b: State)
    requires Plays(s, m, Ping, k) && m.target == Some(q) && Hand(s, q) == [d] && b == Handed(s, m)
    ensures PingRule(s, q, m.guess, k, d, b)
  {
    var mid := PlayCard(s, s.current, Ping);
    CardLeavesHand(s, m, Ping, k, mid);
    assert SeatAt(mid, q) == SeatAt(s, q);
    if m.guess == Known(d) {
      ThenTargetFalls(s, Ping, k, mid, q, d, b);
    }
  }

  lemma SnifferObeys(s: State, m: Move, q: PlayerId, k: Card, d: Card, b: State)
    requires Plays(s, m, Sniffer, k) && m.target == Some(q) && Hand(s, q) == [d] && b == Handed(s, m)
    ensures SnifferRule(s, k, d, b)
  {
    var mid := PlayCard(s, s.current, Sniffer);
    CardLeavesHand(s, m, Sniffer, k, mid);
    assert SeatAt(mid, q) == SeatAt(s, q);
    forall x ensures SeatAt(b, x) == SeatAt(mid, x) { }
  }

  lemma SwapObeys(s: State, m: Move, q: PlayerId, k: Card, d: Card, b: State)
    requires Plays(s, m, Swap, k) && m.target == Some(q) && Hand(s, q) == [d] && b == Handed(s, m)
    ensures SwapRule(s, q, k, d, b)
  {
    var mid := PlayCard(s, s.current, Swap);
    CardLeavesHand(s, m, Swap, k, mid);
    assert SeatAt(mid, q) == SeatAt(s, q) && SeatAt(mid, s.current).hand == [k];
  }

  lemma RootObeys(s: State, m: Move, k: Card, b: State)
    requires Plays(s, m, Root, k) && b == Handed(s, m)
    ensures RootRule(s, k, b)
  {
    var mid := PlayCard(s, s.current, Root);
    CardLeavesHand(s, m, Root, k, mid);
    ThenActorFalls(s, Root, k, mid, b);
  }

  /** The cards that leave a mark, and any other that finds no target. */
  lemma MarkObeys(s: State, m: Move, c: Card, k: Card, b: State)
    requires Plays(s, m, c, k) && b == Handed(s, m)
    requires c in {Backdoor, Firewall, EncryptedKey} || (m.target.None? && c in {Ping, Sniffer, BufferOverflow, Swap})
    ensures MarkRule(s, c, k, b)
  {
    var mid := PlayCard(s, s.current, c);
    CardLeavesHand(s, m, c, k, mid);
    forall x ensures SeatAt(b, x) == SeatAt(mid, x) { }
  }

  lemma DebuggerObeys(s: State, m: Move, k: Card, b: State)
    requires Plays(s, m, Debugger, k) && b == Handed(s, m)
    ensures DebuggerRule(s, k, b)
  {
    var mid := PlayCard(s, s.current, Debugger);
    CardLeavesHand(s, m, Debugger, k, mid);
    assert SeatAt(mid, s.current).hand == [k];
    forall x ensures SeatAt(b, x) == if x == s.current then Stays(s, x, [], [Debugger]) else SeatAt(s, x) {
      assert SeatAt(mid, x).pile == SeatAt(b, x).pile;
    }
  }

  /** The target's card after a Reboot. */
  function Supplied(s: State): Card
    requires s.faceDown.Some?
  {
    if s.deck != [] then s.deck[0] else s.faceDown.value
  }

  lemma RebootFalls(s: State, q: PlayerId, b: State)
    requires Hand(s, q) == [Root] && b == ApplyReboot(s, q)
    ensures SeatsBecome(s, b, map[q := Falls(s, q, [Root])])
    ensures TableRests(s, b) && MarksStay(s, b) && b.privateReveals == s.privateReveals
    ensures Logs(s, b, [Discard(q, Root)])
  {
    var dumped := Dumped(s, q);
    DumpedFrame(s, q, dumped);
    PenaltyObeys(dumped, q, b);
    assert Entries(q, []) == [];
  }

  lemma RebootReplaces(s: State, q: PlayerId, d: Card, b: State)
    requires Hand(s, q) == [d] && d != Root && q !in s.eliminated && s.faceDown.Some? && b == ApplyReboot(s, q)
    ensures SeatsBecome(s, b, map[q := Stays(s, q, [Supplied(s)], [d])])
    ensures SameTable(s, b) && b.phase == s.phase && b.choices == s.choices
    ensures MarksStay(s, b) && b.privateReveals == s.privateReveals
    ensures Logs(s, b, [Discard(q, d)]) && Supplies(s, Supplied(s), b)
  {
    RebootCases(s, q, b);
  }

  lemma SelfReboots(s: State, k: Card, mid: State, b: State)
    requires PlainRule(s, Reboot, k, mid) && MarksStay(s, mid) && mid.privateReveals == map[]
    requires s.current !in s.eliminated && s.faceDown.Some? && b == ApplyReboot(mid, s.current)
    ensures RebootRule(s, s.current, k, k, Supplied(s), b)
  {
    assert SeatAt(mid, s.current) == Stays(s, s.current, [k], [Reboot]);
    assert Pile(s, s.current) + [Reboot] + [k] == Pile(s, s.current) + [Reboot, k];
    if k == Root {
      RebootFalls(mid, s.current, b);
    } else {
      RebootReplaces(mid, s.current, k, b);
    }
  }

  lemma TargetReboots(s: State, q: PlayerId, k: Card, d: Card, mid: State, b: State)
    requires PlainRule(s, Reboot, k, mid) && MarksStay(s, mid) && mid.privateReveals == map[]
    requires q != s.current && q !in s.eliminated && Hand(s, q) == [d] && s.faceDown.Some? && b == ApplyReboot(mid, q)
    ensures RebootRule(s, q, k, d, Supplied(s), b)
  {
    assert SeatAt(mid, q) == SeatAt(s, q);
    if d == Root {
      RebootFalls(mid, q, b);
    } else {
      RebootReplaces(mid, q, d, b);
      ThenTargetDraws(s, k, mid, q, d, b);
    }
  }

  lemma ThenTargetDraws(s: State, k: Card, mid: State, q: PlayerId, d: Card, b: State)
    requires PlainRule(s, Reboot, k, mid) && MarksStay(s, mid) && mid.privateReveals == map[]
    requires q != s.current && d != Root && s.faceDown.Some?
    requires SeatsBecome(mid, b, map[q := Stays(mid, q, [Supplied(s)], [d])])
    requires SameTable(mid, b) && b.phase == mid.phase && b.choices == mid.choices
    requires MarksStay(mid, b) && b.privateReveals == mid.privateReveals
    requires Logs(mid, b, [Discard(q, d)]) && Supplies(mid, Supplied(s), b)
    ensures RebootRule(s, q, k, d, Supplied(s), b)
  {
    assert SeatAt(mid, q) == SeatAt(s, q);
  }

  lemma RebootObeys(s: State, m: Move, q: PlayerId, k: Card, d: Card, b: State)
    requires Plays(s, m, Reboot, k) && q == m.target.GetOr(s.current) && b == Handed(s, m) && s.faceDown.Some?
    requires if q == s.current then d == k else Hand(s, q) == [d]
    ensures RebootRule(s, q, k, d, Supplied(s), b)
  {
    var mid := PlayCard(s, s.current, Reboot);
    CardLeavesHand(s, m, Reboot, k, mid);
    assert SeatAt(mid, q) == if q == s.current then Stays(s, q, [k], [Reboot]) else SeatAt(s, q);
    if q == s.current {
      SelfReboots(s, k, mid, b);
    } else {
      TargetReboots(s, q, k, d, mid, b);
    }
  }

  lemma ResolveObeys(s: State, m: Move, b: State)
    requires s.phase == DebuggerPending && Accepted(s, m) && m.card != PenaltyLose && b == Handed(s, m)
    ensures ResolveRule(s, m.keep.card, m.ret[0].card, m.ret[1].card, b)
  {
    forall x ensures SeatAt(b, x) == if x == s.current then Stays(s, x, [m.keep.card], []) else SeatAt(s, x) { }
  }

  // ---------------------------------------------------------------------------
  // Every move of every game
  // ---------------------------------------------------------------------------

  /** On turn, an opponent who can be a target holds one card. */
  lemma TargetHolds(s: State, m: Move, c: Card, q: PlayerId)
    requires OnTurn(s) && s.phase == Playing && Accepted(s, m) && m.card == Known(c) && m.target == Some(q)
    requires c in {Ping, Sniffer, BufferOverflow, Swap} || (c == Reboot && q != s.current)
    ensures q in s.players && q != s.current && q !in s.eliminated && q !in s.protected
    ensures Hand(s, q) == [First(s, q)]
  {
    AcceptedPlay(s, m);
    assert |Hand(s, q)| == Due(s, q);
  }

  lemma RebootPlayObeys(s: State, m: Move, k: Card, b: State)
    requires OnTurn(s) && Plays(s, m, Reboot, k) && b == Handed(s, m)
    ensures PlayRule(s, m, Reboot, k, b)
  {
    var q := m.target.GetOr(s.current);
    if q != s.current { TargetHolds(s, m, Reboot, q); }
    RebootObeys(s, m, q, k, if q == s.current then k else First(s, q), b);
  }

  lemma TargetPlayObeys(s: State, m: Move, c: Card, k: Card, q: PlayerId, b: State)
    requires OnTurn(s) && Plays(s, m, c, k) && b == Handed(s, m) && m.target == Some(q)
    requires c in {Ping, Sniffer, BufferOverflow, Swap}
    ensures TargetRule(s, m, c, q, k, First(s, q), b)
  {
    TargetHolds(s, m, c, q);
    var d := First(s, q);
    match c {
      case Ping => PingObeys(s, m, q, k, d, b);
      case Sniffer => SnifferObeys(s, m, q, k, d, b);
      case BufferOverflow => OverflowObeys(s, m, q, k, d, b);
      case Swap => SwapObeys(s, m, q, k, d, b);
    }
  }

  lemma PlayObeys(s: State, m: Move, c: Card, k: Card, b: State)
    requires OnTurn(s) && Plays(s, m, c, k) && b == Handed(s, m)
    ensures PlayRule(s, m, c, k, b)
  {
    match c {
      case Root => RootObeys(s, m, k, b);
      case Debugger => DebuggerObeys(s, m, k, b);
      case Reboot => RebootPlayObeys(s, m, k, b);
      case Backdoor | Firewall | EncryptedKey => MarkObeys(s, m, c, k, b);
      case _ =>
        if m.target.Some? {
          TargetPlayObeys(s, m, c, k, m.target.value, b);
        } else {
          MarkObeys(s, m, c, k, b);
        }
    }
  }

  lemma HoldsTwo(s: State)
    requires OnTurn(s) && s.phase == Playing
    ensures |Hand(s, s.current)| == 2
  {
    assert |Hand(s, s.current)| == Due(s, s.current);
  }

  lemma HandedByPenalty(s: State, m: Move, b: State)
    requires m.card == PenaltyLose && b == Handed(s, m)
    ensures b == Eliminate(s, m.player)
  {
  }

  /** Every accepted move of a running game does to hands, piles and places what the rule for it
      says, and nothing else. */
  lemma MoveObeysRules(s: State, m: Move, b: State)
    requires Inv(s) && s.phase != GameOver && Accepted(s, m) && b == Handed(s, m)
    ensures s.phase == Playing ==> |Hand(s, s.current)| == 2
    ensures ByTheRules(s, m, b)
  {
    if s.phase == Playing { HoldsTwo(s); }
    if m.card == PenaltyLose {
      HandedByPenalty(s, m, b);
      PenaltyObeys(s, m.player, b);
    } else if s.phase == DebuggerPending {
      ResolveObeys(s, m, b);
    } else {
      PlayObeys(s, m, m.card.card, Kept(Hand(s, s.current), m.card.card), b);
    }
  }

  lemma StepIsLegal(r: Game, i: nat, s: State, turn: Turn, t: State)
    requires i < |r.ts| && s == r.ss[i] && turn == r.ts[i] && t == r.ss[i + 1]
    ensures LegalStep(s, turn, t)
  {
    assert LegalAt(r, i + 1);
  }

  /** The same at every move of every legal game. */
  lemma GameObeysRules(r: Game, i: nat, b: State)
    requires i < |r.ts| && b == Handed(r.ss[i], r.ts[i].move)
    ensures LegalStep(r.ss[i], r.ts[i], r.ss[i + 1])
    ensures r.ss[i].phase == Playing ==> |Hand(r.ss[i], r.ss[i].current)| == 2
    ensures ByTheRules(r.ss[i], r.ts[i].move, b)
  {
    RunKeeps(r, i);
    StepIsLegal(r, i, r.ss[i], r.ts[i], r.ss[i + 1]);
    MoveObeysRules(r.ss[i], r.ts[i].move, b);
  }

  /** `x` is put out by what leads from `s` to `b`. */
  predicate PutOut(s: State, b: State, x: PlayerId) { x in b.eliminated && x !in s.eliminated }

  lemma OverflowOuts(s: State, q: PlayerId, k: Card, d: Card, b: State, x: PlayerId)
    requires OverflowRule(s, q, k, d, b) && q != s.current && s.current !in s.eliminated && q !in s.eliminated
    ensures PutOut(s, b, x) <==> (x == s.current && Place(k) < Place(d)) || (x == q && Place(d) < Place(k))
  {
    assert SeatAt(b, x).out == (x in b.eliminated);
  }

  lemma PingOuts(s: State, q: PlayerId, guess: CardName, k: Card, d: Card, b: State, x: PlayerId)
    requires PingRule(s, q, guess, k, d, b) && q != s.current && s.current !in s.eliminated && q !in s.eliminated
    ensures PutOut(s, b, x) <==> x == q && guess == Known(d)
  {
    assert SeatAt(b, x).out == (x in b.eliminated);
  }

  /** A BufferOverflow puts out exactly the one who holds the strictly lower card. */
  lemma OverflowPutsOutTheLower(s: State, m: Move, q: PlayerId, k: Card, b: State, x: PlayerId)
    requires Inv(s) && Plays(s, m, BufferOverflow, k) && m.target == Some(q) && b == Handed(s, m)
    ensures Hand(s, q) == [First(s, q)] && q != s.current
    ensures PutOut(s, b, x) <==>
              (x == s.current && Place(k) < Place(First(s, q))) || (x == q && Place(First(s, q)) < Place(k))
  {
    TargetHolds(s, m, BufferOverflow, q);
    OverflowObeys(s, m, q, k, First(s, q), b);
    OverflowOuts(s, q, k, First(s, q), b, x);
  }

  /** A Ping puts out its target exactly if the guess is right, and nobody else. */
  lemma PingPutsOutIff(s: State, m: Move, q: PlayerId, k: Card, b: State, x: PlayerId)
    requires Inv(s) && Plays(s, m, Ping, k) && m.target == Some(q) && b == Handed(s, m)
    ensures Hand(s, q) == [First(s, q)] && q != s.current
    ensures PutOut(s, b, x) <==> x == q && m.guess == Known(First(s, q))
  {
    TargetHolds(s, m, Ping, q);
    PingObeys(s, m, q, k, First(s, q), b);
    PingOuts(s, q, m.guess, k, First(s, q), b, x);
  }

  /** A Backdoor that a Reboot forces onto the pile is not recorded for the bonus, unlike one that
      is played or shed on the way out. */
  lemma RebootedBackdoorIsNotBooked(s: State, m: Move, q: PlayerId, k: Card, b: State)
    requires Inv(s) && Plays(s, m, Reboot, k) && m.target == Some(q) && q != s.current && b == Handed(s, m)
    requires First(s, q) == Backdoor
    ensures b.backdoor == s.backdoor && Pile(b, q) == Pile(s, q) + [Backdoor]
  {
    TargetHolds(s, m, Reboot, q);
    RebootObeys(s, m, q, k, Backdoor, b);
    assert SeatAt(b, q).pile == Pile(b, q);
  }
}
