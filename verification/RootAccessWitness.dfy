/** Positions and games in which the accepted but harmful moves occur. */
module RootAccessWitness {
  import opened RootAccessCards
  import opened RootAccessEngine
  import opened RootAccessInvariant
  import opened RootAccessRounds
  import opened RootAccessStep
  import opened RootAccessRuns
  import opened RootAccessShowdown
  import opened RootAccessSafety

  // ---------------------------------------------------------------------------
  // A quiet game
  // ---------------------------------------------------------------------------

  const TRIO: seq<PlayerId> := [0, 1, 2]

  const LAST_FIVE: seq<Card> := [Swap, EncryptedKey, Firewall, Firewall, Root]

  /** A deck in which the three players are dealt a Debugger, a Reboot and a Debugger, then draw
      sixteen cards that do nothing when played without a target, and the Root comes last. */
  function QuietDeck(): (d: seq<Card>)
    ensures |d| == DECK_SIZE
    ensures d[0] == Reboot && d[1] == Debugger && d[2] == Reboot && d[3] == Debugger
    ensures d[18] == Firewall && d[19] == Firewall && d[20] == Root
  {
    [Reboot, Debugger, Reboot, Debugger] + LowCards() + LAST_FIVE
  }

  lemma QuietDeckIsFull()
    ensures FullDeck(QuietDeck())
  {
    forall c ensures Copies(QuietDeck(), c) == DeckCount(c) {
      Concat3([Reboot, Debugger, Reboot, Debugger], LowCards(), LAST_FIVE, c);
      LowCounts(c);
      FirstFourCount(c);
      LastFiveCount(c);
    }
  }

  lemma FirstFourCount(c: Card)
    ensures Copies([Reboot, Debugger, Reboot, Debugger], c) == if c == Reboot || c == Debugger then 2 else 0
  {
    CopiesConcat([Reboot, Debugger], [Reboot, Debugger], c);
    CopiesCons(Reboot, [Debugger], c);
    CopiesCons(Debugger, [], c);
    assert [Reboot, Debugger, Reboot, Debugger] == [Reboot, Debugger] + [Reboot, Debugger];
    assert [Reboot, Debugger] == [Reboot] + [Debugger];
  }

  lemma LastFiveCount(c: Card)
    ensures Copies(LAST_FIVE, c) == if c == Firewall then 2 else if Value(c) >= 7 then 1 else 0
  {
    assert LAST_FIVE == [Swap, EncryptedKey] + [Firewall, Firewall] + [Root];
    Concat3([Swap, EncryptedKey], [Firewall, Firewall], [Root], c);
    Pair(Firewall, c);
    CopiesCons(Swap, [EncryptedKey], c);
    CopiesCons(EncryptedKey, [], c);
    CopiesCons(Root, [], c);
    assert [Swap, EncryptedKey] == [Swap] + [EncryptedKey];
  }

  predicate Harmless(c: Card) { c != Root && c != Reboot && c != Debugger }

  /** What the game below needs of its deck. */
  ghost predicate QuietOrder(d: seq<Card>) {
    && FullDeck(d) && d[1] == Debugger && d[2] == Reboot && d[3] == Debugger
    && d[18] == Firewall && d[19] == Firewall && d[20] == Root
    && forall k :: 0 <= k < 16 ==> Harmless(Drawn(d, k))
  }

  /** The card drawn for turn `k`. */
  function Drawn(d: seq<Card>, k: nat): Card
    requires |d| == DECK_SIZE && k <= 16
  {
    d[4 + k]
  }

  lemma QuietDeckIsQuiet()
    ensures QuietOrder(QuietDeck())
  {
    QuietDeckIsFull();
    var d := QuietDeck();
    forall k | 0 <= k < 16 ensures Harmless(Drawn(d, k)) {
      if k < 12 {
        assert Drawn(d, k) == LowCards()[k];
      } else {
        assert Drawn(d, k) == LAST_FIVE[k - 12];
      }
    }
  }

  /** The card a player keeps throughout. */
  function Kept(p: PlayerId): Card { if p == 1 then Reboot else Debugger }

  /** Turn `k`: nobody is out, everyone holds the card they keep, and the player on turn has drawn
      another one. */
  ghost predicate Quiet(d: seq<Card>, s: State, k: nat) {
    && |d| == DECK_SIZE && k <= 16 && s.phase == Playing && s.players == TRIO && s.eliminated == [] && s.current == k % 3
    && s.deck == d[5 + k..]
    && Hand(s, s.current) == [Kept(s.current), Drawn(d, k)]
    && (forall p :: p in TRIO && p != s.current ==> Hand(s, p) == [Kept(p)])
    && (15 <= k ==> 2 in s.protected)
  }

  /** The drawn card, played without a target. */
  function QuietMove(d: seq<Card>, k: nat): Move
    requires |d| == DECK_SIZE && k <= 16
  {
    Move(k % 3, Known(Drawn(d, k)), None, Blank, Blank, [])
  }

  lemma QuietStart(d: seq<Card>, s: State)
    requires QuietOrder(d) && s == DealRound(NewGame(TRIO), 0, d)
    ensures Quiet(d, s, 0)
  {
    var rest := d[1..];
    assert DealHands(TRIO, rest, 0) == map[];
    assert DealHands(TRIO, rest, 1) == map[0 := [rest[0]]];
    assert DealHands(TRIO, rest, 2) == map[0 := [rest[0]], 1 := [rest[1]]];
    assert DealHands(TRIO, rest, 3) == map[0 := [rest[0]], 1 := [rest[1]], 2 := [rest[2]]];
    assert rest[3..] == d[4..] && d[4..][1..] == d[5..];
  }

  lemma QuietIsAccepted(d: seq<Card>, s: State, k: nat)
    requires Quiet(d, s, k) && Harmless(Drawn(d, k))
    ensures Accepted(s, QuietMove(d, k)) && Benign(s, QuietMove(d, k)) && !PlaysDebugger(s, QuietMove(d, k))
  {
  }

  /** Playing a harmless card without a target only moves it to the pile. */
  lemma HarmlessEffect(s: State, m: Move, c: Card, b: State)
    requires Harmless(c) && m.target.None? && b == CardEffect(s, m, c)
    ensures b.hands == s.hands && b.deck == s.deck && b.eliminated == s.eliminated && b.phase == s.phase
    ensures b.protected == if c == Firewall then AppendUnique(s.protected, m.player) else s.protected
  {
  }

  lemma QuietEffect(d: seq<Card>, s: State, k: nat, b: State)
    requires Quiet(d, s, k) && Harmless(Drawn(d, k)) && Accepted(s, QuietMove(d, k)) && !PlaysDebugger(s, QuietMove(d, k))
    requires b == BeforeAdvance(s, QuietMove(d, k))
    ensures b.hands == s.hands[s.current := [Kept(s.current)]] && b.deck == s.deck && b.eliminated == [] && b.phase == Playing
    ensures b.protected == if Drawn(d, k) == Firewall then AppendUnique(s.protected, s.current) else s.protected
    ensures b.players == TRIO && b.current == s.current
  {
    var c := Drawn(d, k);
    var mid := PlayCard(s, s.current, c);
    assert RemoveFirst([Kept(s.current), c], c) == [Kept(s.current)] by {
      assert RemoveFirst([c], c) == [];
      assert [Kept(s.current), c][1..] == [c];
    }
    HarmlessEffect(mid, QuietMove(d, k), c, b);
  }

  lemma AllActive(b: State)
    requires b.players == TRIO && b.eliminated == []
    ensures Active(b) == TRIO
  {
    assert TRIO[1..] == [1, 2] && [1, 2][1..] == [2] && [2][1..] == [];
    assert Without([2], []) == [2];
    assert Without([1, 2], []) == [1, 2];
  }

  lemma SeatIsId(p: PlayerId)
    requires p < 3
    ensures SeatOf(TRIO, p) == p
  {
    var i := FirstSeat(TRIO, p);
    assert TRIO[i] == p;
  }

  lemma NextOfThree(b: State, p: PlayerId)
    requires b.players == TRIO && b.eliminated == [] && p < 3
    ensures NextActive(b, p) == (p + 1) % 3
  {
    AllActive(b);
    SeatIsId(p);
    assert Walk(TRIO, [], p, 1) == Some(TRIO[(p + 1) % 3]);
  }

  lemma QuietAdvance(d: seq<Card>, b: State, next: PlayerId, t: State)
    requires b.players == TRIO && b.eliminated == [] && b.current < 3 && next == (b.current + 1) % 3
    requires |Hand(b, next)| == 1 && b.deck != [] && |d| == DECK_SIZE && t == AdvanceTurn(b, d)
    ensures t == DrawCard(PassTurn(b, next), next)
  {
    AllActive(b);
    NextOfThree(b, b.current);
  }

  lemma QuietDrawn(b: State, next: PlayerId, t: State)
    requires b.deck != [] && t == DrawCard(PassTurn(b, next), next)
    ensures t.players == b.players && t.eliminated == b.eliminated && t.phase == b.phase && t.current == next
    ensures t.deck == b.deck[1..] && t.hands == b.hands[next := Hand(b, next) + [b.deck[0]]]
    ensures forall p :: p in t.protected <==> p in b.protected && p != next
  {
    forall p ensures p in t.protected <==> p in b.protected && p != next { WithoutMembers(b.protected, [next], p); }
  }

  lemma NextDiffers(k: nat, next: nat)
    requires next == (k + 1) % 3
    ensures next < 3 && next != k % 3 && next == (k % 3 + 1) % 3
  {
  }

  lemma QuietCards(d: seq<Card>, s: State, k: nat, b: State, next: PlayerId, t: State)
    requires Quiet(d, s, k) && k < 16 && next == (k + 1) % 3
    requires b.hands == s.hands[s.current := [Kept(s.current)]] && b.deck == s.deck
    requires t.deck == b.deck[1..] && t.hands == b.hands[next := Hand(b, next) + [b.deck[0]]]
    ensures t.deck == d[5 + (k + 1)..]
    ensures Hand(t, next) == [Kept(next), Drawn(d, k + 1)]
    ensures forall p :: p in TRIO && p != next ==> Hand(t, p) == [Kept(p)]
  {
    NextDiffers(k, next);
    assert next in TRIO;
    assert Hand(s, next) == [Kept(next)];
  }

  lemma QuietHandOver(d: seq<Card>, s: State, k: nat, b: State, next: PlayerId)
    requires Quiet(d, s, k) && k < 16 && next == (k + 1) % 3
    requires b.hands == s.hands[s.current := [Kept(s.current)]] && b.deck == s.deck
    ensures s.current < 3 && next == (s.current + 1) % 3 && |Hand(b, next)| == 1 && b.deck != []
  {
    NextDiffers(k, next);
    assert next in TRIO && Hand(s, next) == [Kept(next)];
  }

  lemma QuietArrives(d: seq<Card>, s: State, k: nat, b: State, next: PlayerId, t: State)
    requires Quiet(d, s, k) && k < 16 && next == (k + 1) % 3 && next < 3
    requires b.players == TRIO && b.eliminated == [] && b.phase == Playing && b.deck == s.deck && b.deck != []
    requires b.hands == s.hands[s.current := [Kept(s.current)]] && (k >= 14 ==> 2 in b.protected)
    requires t == DrawCard(PassTurn(b, next), next)
    ensures Quiet(d, t, k + 1)
  {
    QuietDrawn(b, next, t);
    QuietCards(d, s, k, b, next, t);
  }

  lemma QuietPass(d: seq<Card>, s: State, k: nat, b: State, t: State)
    requires Quiet(d, s, k) && k < 16 && b.players == TRIO && b.current == s.current && b.eliminated == [] && b.phase == Playing
    requires b.hands == s.hands[s.current := [Kept(s.current)]] && b.deck == s.deck && t == AdvanceTurn(b, d)
    requires k >= 14 ==> 2 in b.protected
    ensures Quiet(d, t, k + 1)
  {
    var next := (k + 1) % 3;
    QuietHandOver(d, s, k, b, next);
    QuietAdvance(d, b, next, t);
    QuietArrives(d, s, k, b, next, t);
  }

  /** The Firewall of turn 14 protects player 2 until the end. */
  lemma QuietShield(d: seq<Card>, s: State, k: nat, b: State)
    requires Quiet(d, s, k) && 14 <= k && (k == 14 ==> Drawn(d, k) == Firewall)
    requires b.protected == if Drawn(d, k) == Firewall then AppendUnique(s.protected, s.current) else s.protected
    ensures 2 in b.protected
  {
  }

  lemma QuietStep(d: seq<Card>, s: State, k: nat, b: State, t: State)
    requires Quiet(d, s, k) && k < 16 && Accepted(s, QuietMove(d, k)) && !PlaysDebugger(s, QuietMove(d, k))
    requires Harmless(Drawn(d, k)) && (k == 14 ==> Drawn(d, k) == Firewall)
    requires b == BeforeAdvance(s, QuietMove(d, k)) && t == AdvanceTurn(b, d)
    ensures Quiet(d, t, k + 1)
  {
    QuietEffect(d, s, k, b);
    if k >= 14 { QuietShield(d, s, k, b); }
    QuietPass(d, s, k, b, t);
  }

  /** `longer` carries `r` on by one step. */
  ghost predicate CarriesOn(r: Run, longer: Run) {
    && longer.players == r.players && longer.deal == r.deal
    && |r.ss| == |r.ts| + 1 && |longer.ss| == |longer.ts| + 1 == |r.ss| + 1
    && (forall i :: 0 <= i < |r.ss| ==> longer.ss[i] == r.ss[i])
    && forall i :: 0 <= i < |r.ts| ==> longer.ts[i] == r.ts[i]
  }

  lemma LegalBefore(r: Run, longer: Run, i: nat)
    requires CarriesOn(r, longer) && i < |r.ss|
    ensures LegalAt(r, i) ==> LegalAt(longer, i)
  {
  }

  lemma LegalLast(longer: Run, s: State, turn: Turn, t: State)
    requires |longer.ss| == |longer.ts| + 1 && 0 < |longer.ts|
    requires longer.ss[|longer.ts| - 1] == s && longer.ts[|longer.ts| - 1] == turn && longer.ss[|longer.ts|] == t
    ensures LegalStep(s, turn, t) ==> LegalAt(longer, |longer.ts|)
  {
  }

  lemma CarriedOnIsLegal(r: Run, longer: Run)
    requires Legal(r) && CarriesOn(r, longer)
    ensures LegalAt(longer, |longer.ts|) ==> Legal(longer)
  {
    forall i: nat | i < |r.ss| ensures LegalAt(longer, i) {
      assert LegalAt(r, i);
      LegalBefore(r, longer, i);
    }
  }

  /** The run with one more step, legal if the run and the step are. */
  lemma OneMore(r: Run, s: State, turn: Turn, t: State) returns (longer: Run)
    requires Legal(r) && s == r.ss[|r.ts|]
    ensures longer.ts == r.ts + [turn] && longer.ss == r.ss + [t]
    ensures LegalStep(s, turn, t) ==> Legal(longer)
  {
    longer := Run(r.players, r.deal, r.ss + [t], r.ts + [turn]);
    LegalLast(longer, s, turn, t);
    CarriedOnIsLegal(r, longer);
  }

  lemma Longer(r: Run, s: State, turn: Turn, t: State) returns (longer: Run)
    requires Legal(r) && s == r.ss[|r.ts|] && LegalStep(s, turn, t)
    ensures Legal(longer) && longer.ts == r.ts + [turn] && longer.ss == r.ss + [t]
  {
    longer := OneMore(r, s, turn, t);
  }

  /** The quiet move of turn `k` is legal and leads to turn `k + 1`. */
  lemma QuietTurn(d: seq<Card>, s: State, k: nat) returns (t: State)
    requires Quiet(d, s, k) && k < 16 && FullDeck(d) && Harmless(Drawn(d, k)) && (k == 14 ==> Drawn(d, k) == Firewall)
    ensures LegalStep(s, Turn(QuietMove(d, k), d), t) && Quiet(d, t, k + 1)
  {
    QuietIsAccepted(d, s, k);
    t := ApplyMove(s, QuietMove(d, k), d);
    QuietStep(d, s, k, BeforeAdvance(s, QuietMove(d, k)), t);
  }

  lemma QuietOpening(d: seq<Card>) returns (r: Run)
    requires QuietOrder(d)
    ensures Legal(r) && r.ts == [] && Quiet(d, r.ss[0], 0)
  {
    var s := DealRound(NewGame(TRIO), 0, d);
    QuietStart(d, s);
    r := Run(TRIO, d, [s], []);
  }

  /** For every `k` up to 16 there is a legal game of `k` such moves. */
  lemma {:induction false} QuietGame(d: seq<Card>, k: nat) returns (r: Run)
    requires QuietOrder(d) && k <= 16
    ensures Legal(r) && |r.ts| == k && Quiet(d, r.ss[k], k)
  {
    if k == 0 {
      r := QuietOpening(d);
    } else {
      var before := QuietGame(d, k - 1);
      assert Harmless(Drawn(d, k - 1));
      var t := QuietTurn(d, before.ss[k - 1], k - 1);
      r := Longer(before, before.ss[k - 1], Turn(QuietMove(d, k - 1), d), t);
    }
  }

  // ---------------------------------------------------------------------------
  // A penalty on the empty deck
  // ---------------------------------------------------------------------------

  const PENALTY: Move := Move(2, PenaltyLose, None, Blank, Blank, [])

  lemma TwoLeft(b: State)
    requires b.players == TRIO && b.eliminated == [2]
    ensures Active(b) == [0, 1]
  {
    assert TRIO[1..] == [1, 2] && [1, 2][1..] == [2] && [2][1..] == [];
    assert Without([2], [2]) == [];
    assert Without([1, 2], [2]) == [1];
  }

  /** The position before the penalty and the one it leads to. */
  ghost predicate BeforeShowdown(s: State, b: State) {
    && Active(b) == [0, 1] && Hand(b, 1) == [Reboot, Root] && Hand(b, 0) == [Debugger]
    && HandValue(b, 1) < HandValue(b, 0)
    && 2 in s.protected && 2 in b.eliminated && 2 !in s.eliminated
  }

  lemma AfterPenalty(d: seq<Card>, s: State, b: State)
    requires Quiet(d, s, 16) && d[20] == Root && b == BeforeAdvance(s, PENALTY)
    ensures s.deck == [] && b.deck == [] && BeforeShowdown(s, b)
  {
    EliminateFrame(s, 2, b);
    TwoLeft(b);
    assert 0 in TRIO && Hand(s, 0) == [Kept(0)];
  }

  lemma FirstCardDecides(b: State, k: nat)
    requires Active(b) == [0, 1] && k < 2 && HandValue(b, 1) < HandValue(b, 0)
    requires forall i :: 0 <= i < |Active(b)| ==> !Outshines(b, Active(b)[i], Active(b)[k])
    ensures Active(b)[k] == 0
  {
    BeatsIsOutshining(b, 0, 1);
    assert !Outshines(b, Active(b)[0], Active(b)[k]);
  }

  lemma PenaltyIsLegal(d: seq<Card>, s: State, b: State, t: State)
    requires s.phase == Playing && s.players == TRIO && s.deck == [] && FullDeck(d)
    requires b == BeforeAdvance(s, PENALTY) && t == ApplyMove(s, PENALTY, d) && b.deck == [] && |Active(b)| == 2
    ensures LegalStep(s, Turn(PENALTY, d), t) && EndsInShowdown(s, PENALTY)
  {
  }

  lemma PenaltyStep(d: seq<Card>, s: State) returns (b: State, t: State)
    requires Quiet(d, s, 16) && d[20] == Root && FullDeck(d)
    ensures LegalStep(s, Turn(PENALTY, d), t) && EndsInShowdown(s, PENALTY)
    ensures b == BeforeAdvance(s, PENALTY) && BeforeShowdown(s, b)
  {
    b := BeforeAdvance(s, PENALTY);
    t := ApplyMove(s, PENALTY, d);
    AfterPenalty(d, s, b);
    PenaltyIsLegal(d, s, b, t);
  }

  /** A legal game in which a penalty against player 2 ends the round on an empty deck: player 2,
      protected by a Firewall, is put out, and player 1, who holds a Reboot and the Root, loses
      the showdown to the Debugger of player 0. */
  lemma BystanderShowdownIsUnfair() returns (r: Run, b: State)
    ensures Legal(r) && |r.ts| == 17 && r.ts[16].move == PENALTY && EndsInShowdown(r.ss[16], PENALTY)
    ensures b == BeforeAdvance(r.ss[16], PENALTY) && BeforeShowdown(r.ss[16], b) && r.ss[17].roundWinner == Some(0)
  {
    QuietDeckIsQuiet();
    r, b := PenaltyGame(QuietDeck());
    ShowdownGoesToFirst(r, b);
  }

  lemma PenaltyGame(d: seq<Card>) returns (r: Run, b: State)
    requires QuietOrder(d)
    ensures Legal(r) && |r.ts| == 17 && r.ts[16].move == PENALTY && EndsInShowdown(r.ss[16], PENALTY)
    ensures b == BeforeAdvance(r.ss[16], PENALTY) && BeforeShowdown(r.ss[16], b)
  {
    var quiet := QuietGame(d, 16);
    var t: State;
    b, t := PenaltyStep(d, quiet.ss[16]);
    r := Longer(quiet, quiet.ss[16], Turn(PENALTY, d), t);
    assert r.ss[16] == quiet.ss[16];
  }

  lemma ShowdownGoesToFirst(r: Game, b: State)
    requires |r.ts| == 17 && EndsInShowdown(r.ss[16], r.ts[16].move) && b == BeforeAdvance(r.ss[16], r.ts[16].move)
    requires Active(b) == [0, 1] && HandValue(b, 1) < HandValue(b, 0)
    ensures r.ss[17].roundWinner == Some(0)
  {
    var k := ShowdownInGame(r, 16, b);
    FirstCardDecides(b, k);
  }

  // ---------------------------------------------------------------------------
  // A Debugger on a deck of one card
  // ---------------------------------------------------------------------------

  const DEBUG: Move := Move(0, Known(Debugger), None, Blank, Blank, [])

  lemma DebugIsLegal(d: seq<Card>, s: State)
    requires Quiet(d, s, 15) && d[19] == Firewall
    ensures Accepted(s, DEBUG) && Benign(s, DEBUG) && PlaysDebugger(s, DEBUG) && |s.deck| == 1 && |s.players| == 3
  {
    assert Hand(s, 0) == [Debugger, Firewall];
  }

  lemma BeforeDebugger(d: seq<Card>) returns (r: Run, t: State)
    requires QuietOrder(d)
    ensures Legal(r) && |r.ts| == 15 && LegalStep(r.ss[15], Turn(DEBUG, d), t)
    ensures PlaysDebugger(r.ss[15], DEBUG) && |r.ss[15].deck| == 1
  {
    r := QuietGame(d, 15);
    DebugIsLegal(d, r.ss[15]);
    t := ApplyMove(r.ss[15], DEBUG, d);
  }

  lemma DebuggerSticks(quiet: Game, d: seq<Card>, t: State)
    requires |quiet.ts| == 15 && LegalStep(quiet.ss[15], Turn(DEBUG, d), t)
    requires PlaysDebugger(quiet.ss[15], DEBUG) && |quiet.ss[15].deck| == 1
    ensures t.phase == DebuggerPending && forall m: Move :: Accepted(t, m) ==> !Benign(t, m)
  {
    RunKeeps(quiet, 15);
    ShortDebuggerSticks(quiet.ss[15], Turn(DEBUG, d), t);
  }

  /** A legal game that ends in a position without any legal move: player 0 plays the Debugger
      when one card is left in the deck. */
  lemma ShortDebuggerGame() returns (r: Run)
    ensures Legal(r) && |r.ts| == 16 && r.ts[15].move == DEBUG && |r.ss[15].deck| == 1
    ensures r.ss[16].phase == DebuggerPending && forall m: Move :: Accepted(r.ss[16], m) ==> !Benign(r.ss[16], m)
  {
    QuietDeckIsQuiet();
    var d := QuietDeck();
    var quiet, t := BeforeDebugger(d);
    DebuggerSticks(quiet, d, t);
    r := Longer(quiet, quiet.ss[15], Turn(DEBUG, d), t);
  }

  // ---------------------------------------------------------------------------
  // Harmful moves in legal games
  // ---------------------------------------------------------------------------

  /** The deck of the box, cut so that a Debugger comes fifth. */
  function CutDeck(): (d: seq<Card>)
    ensures |d| == DECK_SIZE && d[4] == Debugger && d[6..9] == [EncryptedKey, Root, Backdoor]
  {
    var box := Composition();
    box[13..] + box[..13]
  }

  lemma CutDeckIsFull()
    ensures FullDeck(CutDeck())
  {
    var box := Composition();
    forall c ensures Copies(CutDeck(), c) == DeckCount(c) {
      CopiesConcat(box[13..], box[..13], c);
      CopiesConcat(box[..13], box[13..], c);
      assert box == box[..13] + box[13..];
      CompositionCounts(c);
    }
  }

  const PAIR: seq<PlayerId> := [0, 1]

  lemma CutDeckDealt(s: State)
    requires s == Dealt(NewGame(PAIR), 0, CutDeck())
    ensures s.players == PAIR && s.current == 0 && s.phase == Playing && s.eliminated == []
    ensures Hand(s, 0) == [Debugger] && s.deck[..3] == [EncryptedKey, Root, Backdoor]
  {
    var d := CutDeck();
    var rest := d[4..];
    assert DealHands(PAIR, rest, 1) == map[0 := [rest[0]]] by { assert DealHands(PAIR, rest, 0) == map[]; }
    assert s.hands == DealHands(PAIR, rest, 1)[1 := [rest[1]]];
    assert s.deck == rest[2..];
    assert s.deck[..3] == d[6..9];
  }

  lemma DebuggerOpens(s: State)
    requires s == DealRound(NewGame(PAIR), 0, CutDeck())
    ensures s.players == PAIR && s.current == 0 && s.phase == Playing && s.eliminated == []
    ensures Hand(s, 0) == [Debugger, EncryptedKey] && |s.deck| >= 2 && s.deck[..2] == [Root, Backdoor]
  {
    var before := Dealt(NewGame(PAIR), 0, CutDeck());
    CutDeckDealt(before);
    assert before.deck[..3][0] == before.deck[0] && before.deck[1..][..2] == before.deck[..3][1..];
  }

  lemma DebuggerShows(s: State, t: State)
    requires s.phase == Playing && s.current == 0 && s.eliminated == [] && |s.deck| >= 2
    requires Hand(s, 0) == [Debugger, EncryptedKey] && s.deck[..2] == [Root, Backdoor]
    requires t == ApplyDebugger(PlayCard(s, 0, Debugger), 0)
    ensures Accepted(s, DEBUG) && PlaysDebugger(s, DEBUG)
    ensures t.phase == DebuggerPending && t.choices == [EncryptedKey, Root, Backdoor]
  {
    assert RemoveFirst([Debugger, EncryptedKey], Debugger) == [EncryptedKey];
    assert Hand(PlayCard(s, 0, Debugger), 0) == [EncryptedKey];
  }

  /** Two players; the first opens with the Debugger and is shown three different cards. */
  lemma DebuggerGame(s: State, t: State, r: Run)
    requires s == DealRound(NewGame(PAIR), 0, CutDeck())
    requires t == ApplyDebugger(PlayCard(s, 0, Debugger), 0)
    requires r == Run(PAIR, CutDeck(), [s, t], [Turn(DEBUG, CutDeck())])
    ensures Legal(r) && r.ss[1].phase == DebuggerPending && r.ss[1].choices == [EncryptedKey, Root, Backdoor]
  {
    CutDeckIsFull();
    DebuggerOpens(s);
    DebuggerShows(s, t);
    assert LegalStep(s, Turn(DEBUG, CutDeck()), t);
  }

  /** In that game both harmful moves against a pending Debugger are accepted and break it:
      a penalty against anybody, and a resolve that names one shown card three times. */
  lemma PendingBreaksAreReachable(r: Game, deal: seq<Card>, penalty: Move, forged: Move)
    requires |r.ss| == 2 && r.ss[1].phase == DebuggerPending && r.ss[1].choices == [EncryptedKey, Root, Backdoor]
    requires |deal| == DECK_SIZE && 0 < |r.ss[1].players| <= 5 && penalty.card == PenaltyLose
    requires forged == Move(r.ss[1].current, DebuggerResolve, None, Blank, Known(EncryptedKey),
                            [Known(EncryptedKey), Known(EncryptedKey)])
    ensures Accepted(r.ss[1], penalty) && !Inv(ApplyMove(r.ss[1], penalty, deal))
    ensures Accepted(r.ss[1], forged) && !Inv(ApplyMove(r.ss[1], forged, deal))
  {
    var s := r.ss[1];
    RunKeeps(r, 1);
    PendingPenaltyBreaks(s, penalty.player, deal, ApplyMove(s, penalty, deal));
    ForgedIsAccepted(s, forged);
    TripledChoiceIsAccepted(s, forged, deal, ApplyMove(s, forged, deal));
  }

  lemma ForgedIsAccepted(s: State, forged: Move)
    requires Inv(s) && s.phase == DebuggerPending && s.choices == [EncryptedKey, Root, Backdoor]
    requires forged == Move(s.current, DebuggerResolve, None, Blank, Known(EncryptedKey),
                            [Known(EncryptedKey), Known(EncryptedKey)])
    ensures Accepted(s, forged)
  {
  }

  /** In the first position of every legal game of three or more players a penalty against any
      other player is accepted and breaks the game. */
  lemma BystanderBreaksAreReachable(r: Game, penalty: Move, deal: seq<Card>)
    requires 3 <= |r.players| && penalty.player in r.players && penalty.player != r.ss[0].current
    requires penalty.card == PenaltyLose && |deal| == DECK_SIZE && 0 < |r.ss[0].players| <= 5
    ensures Accepted(r.ss[0], penalty) && !Inv(ApplyMove(r.ss[0], penalty, deal))
  {
    FirstState(r);
    var s := r.ss[0];
    FirstDeck(r, s);
    EliminateActive(s, penalty.player);
    BystanderPenaltyBreaks(s, penalty.player, deal, ApplyMove(s, penalty, deal));
  }

  lemma FirstDeck(r: Game, s: State)
    requires s == r.ss[0] && 3 <= |r.players|
    ensures s.deck != [] && s.eliminated == [] && Active(s) == s.players == r.players
  {
    assert LegalAt(r, 0);
    DealtSeats(NewGame(r.players), r.players[0], r.deal);
  }
}
