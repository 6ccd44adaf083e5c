/** The Root Access rules as functions: every helper, card effect and turn step of the
    engine maps a state value to the next one. The engine deep-copies its state before a
    move, so seen from outside `ApplyMove` is exactly such a function. */
module RootAccessEngine {
  import opened RootAccessCards

  /** Player identifiers are opaque and never empty; the empty string is `None`. */
  type PlayerId = nat

  datatype Phase = Playing | DebuggerPending | GameOver

  datatype Discard = Discard(player: PlayerId, card: Card)

  datatype State = State(
    players: seq<PlayerId>,
    tokens: map<PlayerId, nat>,
    round: nat,
    phase: Phase,
    toWin: nat,
    current: PlayerId,
    deck: seq<Card>,
    hands: map<PlayerId, seq<Card>>,
    faceDown: Option<Card>,
    faceUp: seq<Card>,
    eliminated: seq<PlayerId>,
    protected: seq<PlayerId>,
    backdoor: seq<PlayerId>,
    piles: map<PlayerId, seq<Card>>,
    log: seq<Discard>,
    choices: seq<Card>,
    privateReveals: map<PlayerId, Option<Card>>,
    roundWinner: Option<PlayerId>,
    lastBonus: seq<PlayerId>,
    gameWinner: Option<PlayerId>)

  datatype Move = Move(
    player: PlayerId,
    card: CardName,
    target: Option<PlayerId>,
    guess: CardName,
    keep: CardName,
    ret: seq<CardName>)

  datatype Verdict =
    | Accept
    | NotYourTurn | YouAreEliminated | NoMovesInPhase
    | NoCard | EmptyHand | NotInHand | MustPlayKey
    | TargetUnknown | TargetSelf | TargetEliminated | TargetProtected
    | NoGuess | BadGuess
    | NotAResolve | NoKeep | WrongReturnCount | BadChoices | NotAChoice

  // ---------------------------------------------------------------------------
  // Lookups and sequence helpers
  // ---------------------------------------------------------------------------

  function CardsAt(m: map<PlayerId, seq<Card>>, p: PlayerId): seq<Card> {
    if p in m then m[p] else []
  }

  function Hand(s: State, p: PlayerId): seq<Card> { CardsAt(s.hands, p) }

  function Pile(s: State, p: PlayerId): seq<Card> { CardsAt(s.piles, p) }

  function AppendUnique(ps: seq<PlayerId>, p: PlayerId): seq<PlayerId> {
    if p in ps then ps else ps + [p]
  }

  /** The members of `ps` that are not in `gone`, in order. */
  function Without(ps: seq<PlayerId>, gone: seq<PlayerId>): seq<PlayerId> {
    if ps == [] then []
    else if ps[0] in gone then Without(ps[1..], gone)
    else [ps[0]] + Without(ps[1..], gone)
  }

  function RemoveFirst(hand: seq<Card>, c: Card): seq<Card> {
    if hand == [] then []
    else if hand[0] == c then hand[1..]
    else [hand[0]] + RemoveFirst(hand[1..], c)
  }

  function Active(s: State): seq<PlayerId> { Without(s.players, s.eliminated) }

  /** The seat of `p`, or 0 when `p` is not seated. */
  function SeatOf(players: seq<PlayerId>, p: PlayerId): nat
  {
    if p in players then FirstSeat(players, p) else 0
  }

  function FirstSeat(players: seq<PlayerId>, p: PlayerId): (i: nat)
    requires p in players
    ensures i < |players| && players[i] == p && p !in players[..i]
  {
    if players[0] == p then 0 else
      var rest := players[1..];
      var i := FirstSeat(rest, p);
      assert players[..i + 1] == [players[0]] + rest[..i];
      i + 1
  }

  /** Walk the table from seat `seat`, `i` places on, to the first seat still in the round. */
  function Walk(players: seq<PlayerId>, gone: seq<PlayerId>, seat: nat, i: nat): Option<PlayerId>
    requires 0 < |players|
    decreases |players| + 1 - i
  {
    if i > |players| then None
    else
      var candidate := players[(seat + i) % |players|];
      if candidate !in gone then Some(candidate) else Walk(players, gone, seat, i + 1)
  }

  function NextSeat(players: seq<PlayerId>, gone: seq<PlayerId>, from: PlayerId): PlayerId
    requires 0 < |players|
  {
    var active := Without(players, gone);
    if active == [] then from else Walk(players, gone, SeatOf(players, from), 1).GetOr(active[0])
  }

  function NextActive(s: State, from: PlayerId): PlayerId
    requires 0 < |s.players|
  {
    NextSeat(s.players, s.eliminated, from)
  }

  // ---------------------------------------------------------------------------
  // State helpers
  // ---------------------------------------------------------------------------

  /** What no move touches before the turn passes: seats, score, round, whose turn it is. */
  predicate SameTable(s: State, r: State) {
    && r.players == s.players && r.tokens == s.tokens && r.round == s.round
    && r.toWin == s.toWin && r.current == s.current && r.faceUp == s.faceUp
  }

  function SetHand(s: State, p: PlayerId, hand: seq<Card>): State {
    s.(hands := s.hands[p := hand])
  }

  function AppendDiscard(s: State, p: PlayerId, c: Card): State {
    s.(piles := s.piles[p := Pile(s, p) + [c]], log := s.log + [Discard(p, c)])
  }

  function DiscardAll(s: State, p: PlayerId, cards: seq<Card>): (r: State)
    ensures r == s.(piles := r.piles, log := r.log)
    decreases |cards|
  {
    if cards == [] then s else DiscardAll(AppendDiscard(s, p, cards[0]), p, cards[1..])
  }

  function Eliminate(s: State, p: PlayerId): (r: State)
    ensures SameTable(s, r)
  {
    var hand := Hand(s, p);
    var s1 := DiscardAll(s.(eliminated := AppendUnique(s.eliminated, p)), p, hand);
    var s2 := SetHand(s1, p, []);
    if Backdoor in hand then s2.(backdoor := AppendUnique(s2.backdoor, p)) else s2
  }

  function DrawCard(s: State, p: PlayerId): State {
    if s.deck == [] then s
    else SetHand(s, p, Hand(s, p) + [s.deck[0]]).(deck := s.deck[1..])
  }

  // ---------------------------------------------------------------------------
  // Rounds
  // ---------------------------------------------------------------------------

  /** One card to each of the first `n` seats, from the top of `cards`. */
  function DealHands(players: seq<PlayerId>, cards: seq<Card>, n: nat): map<PlayerId, seq<Card>>
    requires n <= |players| && n <= |cards|
  {
    if n == 0 then map[] else DealHands(players, cards, n - 1)[players[n - 1] := [cards[n - 1]]]
  }

  /** The dealt state before the first player draws. */
  function Dealt(s: State, first: PlayerId, deal: seq<Card>): State
    requires |deal| == DECK_SIZE && |s.players| <= 5
  {
    var faceUp := if |s.players| == 2 then deal[1..4] else [];
    var rest := deal[1 + |faceUp|..];
    s.(deck := rest[|s.players|..],
       hands := DealHands(s.players, rest, |s.players|),
       faceDown := Some(deal[0]),
       faceUp := faceUp,
       eliminated := [],
       protected := [],
       backdoor := [],
       piles := map[],
       log := [],
       phase := Playing,
       current := first)
  }

  function DealRound(s: State, first: PlayerId, deal: seq<Card>): State
    requires |deal| == DECK_SIZE && |s.players| <= 5
  {
    DrawCard(Dealt(s, first, deal), first)
  }

  function Init(players: seq<PlayerId>, deal: seq<Card>): Option<State>
    requires |deal| == DECK_SIZE
  {
    if |players| < 2 || |players| > 5 then None
    else Some(DealRound(NewGame(players), players[0], deal))
  }

  /** The score sheet of a game before its first deal. */
  function NewGame(players: seq<PlayerId>): State
    requires 0 < |players|
  {
    State(players, ZeroTokens(players), 1, Playing, TokensToWin(|players|), players[0],
          [], map[], None, [], [], [], [], map[], [], [], map[], None, [], None)
  }

  function ZeroTokens(players: seq<PlayerId>): map<PlayerId, nat> {
    map p | p in players :: 0
  }

  function PileValue(cards: seq<Card>): nat {
    if cards == [] then 0 else Value(cards[0]) + PileValue(cards[1..])
  }

  function HandValue(s: State, p: PlayerId): nat {
    if Hand(s, p) == [] then 0 else Value(Hand(s, p)[0])
  }

  /** `p` beats `q` at a showdown: a higher card, or the same card and a richer pile. */
  predicate Beats(s: State, p: PlayerId, q: PlayerId) {
    || HandValue(s, p) > HandValue(s, q)
    || (HandValue(s, p) == HandValue(s, q) && PileValue(Pile(s, p)) > PileValue(Pile(s, q)))
  }

  /** The showdown scan over the first `n` of `ps`: a later player takes over only by beating
      the best so far. */
  function BestOf(s: State, ps: seq<PlayerId>, n: nat): Option<PlayerId>
    requires n <= |ps|
  {
    if n == 0 then None
    else match BestOf(s, ps, n - 1)
      case None => Some(ps[n - 1])
      case Some(best) => if Beats(s, ps[n - 1], best) then Some(ps[n - 1]) else Some(best)
  }

  function Credit(tokens: map<PlayerId, nat>, p: PlayerId): map<PlayerId, nat> {
    tokens[p := (if p in tokens then tokens[p] else 0) + 1]
  }

  function FirstWith(players: seq<PlayerId>, tokens: map<PlayerId, nat>, target: nat): (r: Option<PlayerId>)
    ensures r.Some? ==> r.value in players && r.value in tokens && tokens[r.value] >= target
    ensures r.None? ==> forall p :: p in players && p in tokens ==> tokens[p] < target
  {
    if players == [] then None
    else if players[0] in tokens && tokens[players[0]] >= target then Some(players[0])
    else FirstWith(players[1..], tokens, target)
  }

  function RoundWinner(s: State): Option<PlayerId> {
    var active := Active(s);
    if |active| == 1 then Some(active[0]) else BestOf(s, active, |active|)
  }

  function RoundTokens(s: State): map<PlayerId, nat> {
    var bonus := if |s.backdoor| == 1 then Credit(s.tokens, s.backdoor[0]) else s.tokens;
    if RoundWinner(s).Some? then Credit(bonus, RoundWinner(s).value) else bonus
  }

  function Scored(s: State): State {
    s.(tokens := RoundTokens(s), roundWinner := RoundWinner(s), lastBonus := s.backdoor)
  }

  function Crown(s: State, champion: PlayerId): State {
    s.(gameWinner := Some(champion), phase := GameOver, current := champion)
  }

  /** The state the next round is dealt from, and who starts it. */
  function RoundScored(s: State): State { Scored(s).(round := s.round + 1) }

  function Starter(s: State): PlayerId
    requires 0 < |s.players|
  {
    RoundWinner(s).GetOr(s.players[0])
  }

  function NextRound(s: State, deal: seq<Card>): State
    requires |deal| == DECK_SIZE && 0 < |s.players| <= 5
  {
    DealRound(RoundScored(s), Starter(s), deal)
  }

  /** The token target, with the fallback for states that do not store one. */
  function Target(s: State): nat {
    if s.toWin == 0 then TokensToWin(|s.players|) else s.toWin
  }

  function ResolveRound(s: State, deal: seq<Card>): State
    requires |deal| == DECK_SIZE && 0 < |s.players| <= 5
  {
    var champion := FirstWith(s.players, RoundTokens(s), Target(s));
    if champion.Some? then Crown(Scored(s), champion.value) else NextRound(s, deal)
  }

  function PassTurn(s: State, next: PlayerId): State {
    s.(protected := Without(s.protected, [next]), current := next)
  }

  function AdvanceTurn(s: State, deal: seq<Card>): State
    requires |deal| == DECK_SIZE && 0 < |s.players| <= 5
  {
    if |Active(s)| <= 1 then ResolveRound(s, deal)
    else
      var next := NextActive(s, s.current);
      var passed := PassTurn(s, next);
      if |Hand(passed, next)| >= 2 then passed
      else if passed.deck == [] then ResolveRound(passed, deal)
      else DrawCard(passed, next)
  }

  // ---------------------------------------------------------------------------
  // Card effects
  // ---------------------------------------------------------------------------

  function ApplyPing(s: State, target: Option<PlayerId>, guess: CardName): (r: State)
    ensures SameTable(s, r)
  {
    if target.None? then s
    else
      var hand := Hand(s, target.value);
      if |hand| > 0 && guess == Known(hand[0]) then Eliminate(s, target.value) else s
  }

  function ApplySniffer(s: State, actor: PlayerId, target: Option<PlayerId>): State {
    if target.None? then s
    else
      var hand := Hand(s, target.value);
      s.(privateReveals := s.privateReveals[actor := if |hand| > 0 then Some(hand[0]) else None])
  }

  function ApplyBufferOverflow(s: State, actor: PlayerId, target: Option<PlayerId>): (r: State)
    ensures SameTable(s, r)
  {
    if target.None? || Hand(s, actor) == [] || Hand(s, target.value) == [] then s
    else if HandValue(s, actor) < HandValue(s, target.value) then Eliminate(s, actor)
    else if HandValue(s, target.value) < HandValue(s, actor) then Eliminate(s, target.value)
    else s
  }

  function ApplyReboot(s: State, target: PlayerId): (r: State)
    ensures SameTable(s, r)
  {
    var hand := Hand(s, target);
    if hand == [] then s
    else
      var s1 := SetHand(AppendDiscard(s, target, hand[0]), target, []);
      if hand[0] == Root then Eliminate(s1, target)
      else if s.deck != [] then SetHand(s1, target, [s.deck[0]]).(deck := s.deck[1..])
      else if s.faceDown.Some? then SetHand(s1, target, [s.faceDown.value]).(faceDown := None)
      else s1
  }

  function ApplyDebugger(s: State, p: PlayerId): State {
    var n := if |s.deck| < 2 then |s.deck| else 2;
    SetHand(s, p, []).(deck := s.deck[n..], choices := Hand(s, p) + s.deck[..n], phase := DebuggerPending)
  }

  function ApplySwap(s: State, actor: PlayerId, target: Option<PlayerId>): State {
    if target.None? then s
    else
      s.(hands := s.hands[actor := Hand(s, target.value)][target.value := Hand(s, actor)])
  }

  /** The played card leaves the hand for the player's pile; old private reveals lapse. */
  function PlayCard(s: State, p: PlayerId, c: Card): State {
    AppendDiscard(SetHand(s.(privateReveals := map[]), p, RemoveFirst(Hand(s, p), c)), p, c)
  }

  /** The effect of a card that hands the turn on (every card except Debugger). */
  function CardEffect(s: State, m: Move, c: Card): (r: State)
    requires c != Debugger
    ensures SameTable(s, r)
  {
    match c
    case Root => Eliminate(s, m.player)
    case Backdoor => s.(backdoor := AppendUnique(s.backdoor, m.player))
    case Ping => ApplyPing(s, m.target, m.guess)
    case Sniffer => ApplySniffer(s, m.player, m.target)
    case BufferOverflow => ApplyBufferOverflow(s, m.player, m.target)
    case Firewall => s.(protected := AppendUnique(s.protected, m.player))
    case Reboot => ApplyReboot(s, m.target.GetOr(m.player))
    case Swap => ApplySwap(s, m.player, m.target)
    case EncryptedKey => s
  }

  /** The state after a `debugger_resolve`, before the turn passes. */
  function TakeChoice(s: State, p: PlayerId, keep: Card, ret: seq<Card>): State {
    SetHand(s, p, [keep]).(deck := s.deck + ret, choices := [], phase := Playing)
  }

  // ---------------------------------------------------------------------------
  // ValidateMove and ApplyMove
  // ---------------------------------------------------------------------------

  function ValidateTarget(s: State, actor: PlayerId, target: Option<PlayerId>): Verdict {
    if target.None? then Accept
    else if target.value !in s.players then TargetUnknown
    else if target.value == actor then TargetSelf
    else if target.value in s.eliminated then TargetEliminated
    else if target.value in s.protected then TargetProtected
    else Accept
  }

  function ValidateStandard(s: State, m: Move): Verdict {
    var hand := Hand(s, m.player);
    if m.card == Blank then NoCard
    else if hand == [] then EmptyHand
    else if !(m.card.Known? && m.card.card in hand) then NotInHand
    else if m.card.card != EncryptedKey && EncryptedKey in hand && (Swap in hand || Reboot in hand) then MustPlayKey
    else match m.card.card
      case Ping =>
        var v := ValidateTarget(s, m.player, m.target);
        if v != Accept then v
        else if m.target.None? then Accept
        else if m.guess == Blank then NoGuess
        else if !(m.guess.Known? && m.guess.card in NonPingCards()) then BadGuess
        else Accept
      case Sniffer | BufferOverflow | Swap => ValidateTarget(s, m.player, m.target)
      case Reboot =>
        if m.target == None || m.target == Some(m.player) then Accept else ValidateTarget(s, m.player, m.target)
      case _ => Accept
  }

  predicate IsChoice(choices: seq<Card>, name: CardName) { name.Known? && name.card in choices }

  function ValidateResolve(s: State, m: Move): Verdict {
    if m.card != DebuggerResolve then NotAResolve
    else if m.keep == Blank then NoKeep
    else if |m.ret| != 2 then WrongReturnCount
    else if |s.choices| != 3 then BadChoices
    else if !IsChoice(s.choices, m.keep) || !IsChoice(s.choices, m.ret[0]) || !IsChoice(s.choices, m.ret[1]) then NotAChoice
    else Accept
  }

  function ValidateMove(s: State, m: Move): Verdict {
    if m.card == PenaltyLose then Accept
    else if m.player != s.current then NotYourTurn
    else if m.player in s.eliminated then YouAreEliminated
    else match s.phase
      case DebuggerPending => ValidateResolve(s, m)
      case Playing => ValidateStandard(s, m)
      case GameOver => NoMovesInPhase
  }

  predicate Accepted(s: State, m: Move) { ValidateMove(s, m) == Accept }

  /** The move plays a Debugger, the one move after which the turn does not pass. */
  predicate PlaysDebugger(s: State, m: Move) { s.phase == Playing && m.card == Known(Debugger) }

  /** The state a turn-passing move hands to `advanceTurn`. */
  function BeforeAdvance(s: State, m: Move): (r: State)
    requires Accepted(s, m) && !PlaysDebugger(s, m)
    ensures SameTable(s, r)
  {
    if m.card == PenaltyLose then Eliminate(s, m.player)
    else if s.phase == DebuggerPending then
      TakeChoice(s, m.player, m.keep.card, [m.ret[0].card, m.ret[1].card])
    else CardEffect(PlayCard(s, m.player, m.card.card), m, m.card.card)
  }

  /** `deal` is the shuffle a new round would be dealt from, should this move end the round. */
  function ApplyMove(s: State, m: Move, deal: seq<Card>): State
    requires Accepted(s, m)
    requires |deal| == DECK_SIZE && 0 < |s.players| <= 5
  {
    if PlaysDebugger(s, m) then ApplyDebugger(PlayCard(s, m.player, Debugger), m.player)
    else AdvanceTurn(BeforeAdvance(s, m), deal)
  }
}
