/** The bot's move generator agrees with the validator, and its position score stays in
    the unit interval. */
module RootAccessBotMoves {
  import opened RootAccessCards
  import opened RootAccessEngine
  import opened RootAccessInvariant
  import opened RootAccessStep

  // ---------------------------------------------------------------------------
  // Which moves are listed
  // ---------------------------------------------------------------------------

  predicate IsTarget(s: State, p: PlayerId) {
    p in s.players && p != s.current && p !in s.eliminated && p !in s.protected
  }

  predicate HasTarget(s: State) { exists p :: p in s.players && IsTarget(s, p) }

  predicate MustPlayKey(hand: seq<Card>) { EncryptedKey in hand && (Swap in hand || Reboot in hand) }

  function BotMove(s: State, c: Card, target: Option<PlayerId>, guess: CardName): Move {
    Move(s.current, Known(c), target, guess, Blank, [])
  }

  /** The target field a listed move of card `c` may carry. */
  predicate ListedTarget(s: State, c: Card, target: Option<PlayerId>) {
    match c
    case Ping | Sniffer | BufferOverflow | Swap =>
      if HasTarget(s) then target.Some? && IsTarget(s, target.value) else target.None?
    case Reboot => target.Some? && (target.value == s.current || IsTarget(s, target.value))
    case _ => target.None?
  }

  predicate ListedGuess(s: State, c: Card, guess: CardName) {
    if c == Ping && HasTarget(s) then guess.Known? && guess.card in NonPingCards() else guess == Blank
  }

  /** The moves the bot considers for a card in hand. */
  predicate ListedFor(s: State, c: Card, m: Move) {
    && m == BotMove(s, c, m.target, m.guess)
    && ListedTarget(s, c, m.target) && ListedGuess(s, c, m.guess)
  }

  /** The moves the bot considers in phase playing. */
  ghost predicate Listed(s: State, m: Move) {
    exists c :: c in Hand(s, s.current) && (MustPlayKey(Hand(s, s.current)) ==> c == EncryptedKey) && ListedFor(s, c, m)
  }

  // ---------------------------------------------------------------------------
  // The generator
  // ---------------------------------------------------------------------------

  method FindTargets(s: State) returns (targets: seq<PlayerId>)
    ensures forall p :: p in targets <==> IsTarget(s, p)
  {
    targets := [];
    for i := 0 to |s.players|
      invariant forall p :: p in targets <==> p in s.players[..i] && IsTarget(s, p)
    {
      var p := s.players[i];
      assert s.players[..i + 1] == s.players[..i] + [p];
      if p != s.current && p !in s.eliminated && p !in s.protected { targets := targets + [p]; }
    }
    assert s.players[..|s.players|] == s.players;
  }

  method GuessMoves(s: State, target: PlayerId) returns (moves: seq<Move>)
    ensures forall m :: m in moves <==>
              m == BotMove(s, Ping, Some(target), m.guess) && m.guess.Known? && m.guess.card in NonPingCards()
  {
    moves := [];
    var guesses := NonPingCards();
    for i := 0 to |guesses|
      invariant forall m :: m in moves <==>
                  m == BotMove(s, Ping, Some(target), m.guess) && m.guess.Known? && m.guess.card in guesses[..i]
    {
      assert guesses[..i + 1] == guesses[..i] + [guesses[i]];
      moves := moves + [BotMove(s, Ping, Some(target), Known(guesses[i]))];
    }
    assert guesses[..|guesses|] == guesses;
  }

  method TargetedMoves(s: State, c: Card, targets: seq<PlayerId>) returns (moves: seq<Move>)
    ensures forall m :: m in moves <==> m == BotMove(s, c, m.target, Blank) && m.target.Some? && m.target.value in targets
  {
    moves := [];
    for i := 0 to |targets|
      invariant forall m :: m in moves <==>
                  m == BotMove(s, c, m.target, Blank) && m.target.Some? && m.target.value in targets[..i]
    {
      assert targets[..i + 1] == targets[..i] + [targets[i]];
      moves := moves + [BotMove(s, c, Some(targets[i]), Blank)];
    }
    assert targets[..|targets|] == targets;
  }

  method PingMoves(s: State, targets: seq<PlayerId>) returns (moves: seq<Move>)
    ensures forall m :: m in moves <==>
              && m == BotMove(s, Ping, m.target, m.guess) && m.target.Some? && m.target.value in targets
              && m.guess.Known? && m.guess.card in NonPingCards()
  {
    moves := [];
    for i := 0 to |targets|
      invariant forall m :: m in moves <==>
                  && m == BotMove(s, Ping, m.target, m.guess) && m.target.Some? && m.target.value in targets[..i]
                  && m.guess.Known? && m.guess.card in NonPingCards()
    {
      assert targets[..i + 1] == targets[..i] + [targets[i]];
      var more := GuessMoves(s, targets[i]);
      moves := moves + more;
    }
    assert targets[..|targets|] == targets;
  }

  method CardMoves(s: State, c: Card, targets: seq<PlayerId>) returns (moves: seq<Move>)
    requires forall p :: p in targets <==> IsTarget(s, p)
    ensures forall m :: m in moves <==> ListedFor(s, c, m)
    ensures moves != []
  {
    assert targets != [] ==> IsTarget(s, targets[0]);
    match c {
      case Ping =>
        if targets == [] {
          moves := [BotMove(s, c, None, Blank)];
        } else {
          moves := PingMoves(s, targets);
          assert BotMove(s, c, Some(targets[0]), Known(Root)) in moves;
        }
      case Sniffer | BufferOverflow | Swap =>
        if targets == [] {
          moves := [BotMove(s, c, None, Blank)];
        } else {
          moves := TargetedMoves(s, c, targets);
          assert BotMove(s, c, Some(targets[0]), Blank) in moves;
        }
      case Reboot =>
        moves := TargetedMoves(s, c, [s.current] + targets);
        assert BotMove(s, c, Some(s.current), Blank) in moves;
      case _ =>
        moves := [BotMove(s, c, None, Blank)];
    }
  }

  /** `standardMoves`; its last-resort branch can never be taken. */
  method StandardMoves(s: State) returns (moves: seq<Move>)
    ensures forall m :: m in moves <==> Listed(s, m)
    ensures Hand(s, s.current) != [] ==> moves != []
  {
    var hand := Hand(s, s.current);
    var targets := FindTargets(s);
    moves := [];
    for i := 0 to |hand|
      invariant forall m :: m in moves <==>
                  exists c :: c in hand[..i] && (MustPlayKey(hand) ==> c == EncryptedKey) && ListedFor(s, c, m)
      invariant forall c :: c in hand[..i] && (MustPlayKey(hand) ==> c == EncryptedKey) ==> moves != []
    {
      assert hand[..i + 1] == hand[..i] + [hand[i]];
      if !(MustPlayKey(hand) && hand[i] != EncryptedKey) {
        var more := CardMoves(s, hand[i], targets);
        moves := moves + more;
      }
    }
    assert hand[..|hand|] == hand;
    if hand != [] {
      var c := if MustPlayKey(hand) then EncryptedKey else hand[0];
      assert c in hand;
    }
    if moves == [] && hand != [] {
      assert false;
    }
  }

  // ---------------------------------------------------------------------------
  // Agreement with the validator
  // ---------------------------------------------------------------------------

  /** Every listed move is accepted, and benign. */
  lemma ListedIsAccepted(s: State, m: Move)
    requires s.phase == Playing && s.current !in s.eliminated && Listed(s, m)
    ensures Accepted(s, m) && Benign(s, m)
  {
    var c :| c in Hand(s, s.current) && (MustPlayKey(Hand(s, s.current)) ==> c == EncryptedKey) && ListedFor(s, c, m);
  }

  /** What the engine reads of a card play: ignored fields dropped, Reboot's empty target
      made explicit. */
  function Canonical(s: State, m: Move): Move
    requires m.card.Known?
  {
    match m.card.card
    case Ping => BotMove(s, Ping, m.target, if m.target.Some? then m.guess else Blank)
    case Sniffer | BufferOverflow | Swap => BotMove(s, m.card.card, m.target, Blank)
    case Reboot => BotMove(s, Reboot, Some(m.target.GetOr(s.current)), Blank)
    case _ => BotMove(s, m.card.card, None, Blank)
  }

  /** The move leaves out a target although there is a legal one. */
  predicate SkipsTarget(s: State, m: Move) {
    m.card in {Known(Ping), Known(Sniffer), Known(BufferOverflow), Known(Swap)} && m.target.None? && HasTarget(s)
  }

  /** Every accepted card play is listed in its canonical form, unless it skips a target. */
  lemma AcceptedIsListed(s: State, m: Move)
    requires s.phase == Playing && Accepted(s, m) && m.card != PenaltyLose && !SkipsTarget(s, m)
    ensures m.card.Known? && Listed(s, Canonical(s, m))
  {
    var c := m.card.card;
    if m.target.Some? && c in {Ping, Sniffer, BufferOverflow, Swap} {
      assert IsTarget(s, m.target.value);
    }
    assert ListedFor(s, c, Canonical(s, m));
  }

  lemma CanonicalIsAccepted(s: State, m: Move, m': Move)
    requires s.phase == Playing && Accepted(s, m) && m.card.Known? && m' == Canonical(s, m)
    ensures Accepted(s, m')
  {
  }

  lemma CanonicalSameEffect(s: State, m: Move, c: Card)
    requires m.card == Known(c) && m.player == s.current && c != Debugger
    ensures CardEffect(PlayCard(s, s.current, c), Canonical(s, m), c) == CardEffect(PlayCard(s, s.current, c), m, c)
  {
  }

  lemma CanonicalSameState(s: State, m: Move, m': Move)
    requires s.phase == Playing && Accepted(s, m) && m.card.Known? && m.card.card != Debugger && m.player == s.current
    requires m' == Canonical(s, m) && Accepted(s, m')
    ensures BeforeAdvance(s, m') == BeforeAdvance(s, m)
  {
    CanonicalSameEffect(s, m, m.card.card);
  }

  lemma SameMove(s: State, m: Move, m': Move, deal: seq<Card>)
    requires Accepted(s, m) && Accepted(s, m') && m'.player == m.player && |deal| == DECK_SIZE && 0 < |s.players| <= 5
    requires PlaysDebugger(s, m) == PlaysDebugger(s, m')
    requires !PlaysDebugger(s, m) ==> BeforeAdvance(s, m') == BeforeAdvance(s, m)
    ensures ApplyMove(s, m', deal) == ApplyMove(s, m, deal)
  {
  }

  /** The canonical form of an accepted move has the same effect. */
  lemma CanonicalIsEquivalent(s: State, m: Move, m': Move, deal: seq<Card>)
    requires s.phase == Playing && Accepted(s, m) && m.card.Known? && m' == Canonical(s, m)
    requires |deal| == DECK_SIZE && 0 < |s.players| <= 5
    ensures Accepted(s, m') && ApplyMove(s, m', deal) == ApplyMove(s, m, deal)
  {
    CanonicalIsAccepted(s, m, m');
    if m.card.card != Debugger { CanonicalSameState(s, m, m'); }
    SameMove(s, m, m', deal);
  }

  // ---------------------------------------------------------------------------
  // Resolving a Debugger
  // ---------------------------------------------------------------------------

  /** One resolve move for each shown card, giving the other two back in order. */
  method DebuggerResolveMoves(s: State) returns (moves: seq<Move>)
    requires s.phase == DebuggerPending
    ensures |moves| == if |s.choices| == 3 then 3 else 0
    ensures forall m :: m in moves && s.current !in s.eliminated ==> Accepted(s, m) && Benign(s, m)
    ensures |s.choices| == 3 ==> forall i :: 0 <= i < 3 ==> moves[i].keep == Known(s.choices[i])
    ensures |s.choices| == 3 ==> forall i :: 0 <= i < 3 ==>
              moves[i].ret == [Known(KeepOne(s.choices, i)[1]), Known(KeepOne(s.choices, i)[2])]
  {
    moves := [];
    if |s.choices| != 3 { return; }
    for i := 0 to 3
      invariant |moves| == i
      invariant forall m :: m in moves && s.current !in s.eliminated ==> Accepted(s, m) && Benign(s, m)
      invariant forall k :: 0 <= k < i ==> moves[k].keep == Known(s.choices[k])
      invariant forall k :: 0 <= k < i ==> moves[k].ret == [Known(KeepOne(s.choices, k)[1]), Known(KeepOne(s.choices, k)[2])]
    {
      var ret := OtherChoices(s.choices, i);
      var m := Move(s.current, DebuggerResolve, None, Blank, Known(s.choices[i]), ret);
      ResolveIsBenign(s, i, m);
      moves := moves + [m];
    }
  }

  /** The inner loop: the choices other than the kept one, in order. */
  method OtherChoices(choices: seq<Card>, i: nat) returns (ret: seq<CardName>)
    requires |choices| == 3 && i < 3
    ensures |ret| == 2 && forall k :: 0 <= k < 2 ==> ret[k] == Known(choices[if k < i then k else k + 1])
  {
    ret := [];
    for j := 0 to 3
      invariant |ret| == j - if i < j then 1 else 0
      invariant forall k :: 0 <= k < |ret| ==> ret[k] == Known(choices[if k < i then k else k + 1])
    {
      if j != i { ret := ret + [Known(choices[j])]; }
    }
  }

  lemma ResolveIsBenign(s: State, i: nat, m: Move)
    requires s.phase == DebuggerPending && |s.choices| == 3 && i < 3 && |m.ret| == 2
    requires m == Move(s.current, DebuggerResolve, None, Blank, Known(s.choices[i]), m.ret)
    requires forall k :: 0 <= k < 2 ==> m.ret[k] == Known(s.choices[if k < i then k else k + 1])
    ensures m.ret == [Known(KeepOne(s.choices, i)[1]), Known(KeepOne(s.choices, i)[2])]
    ensures s.current !in s.eliminated ==> Accepted(s, m) && Benign(s, m)
  {
    var kept := KeepOne(s.choices, i);
    assert m.ret == [Known(kept[1]), Known(kept[2])];
    KeepOnePermutes(s.choices, i);
    KeepIsBenign(s, m, kept);
  }

  lemma KeepIsBenign(s: State, m: Move, kept: seq<Card>)
    requires s.phase == DebuggerPending && |s.choices| == 3 && |kept| == 3 && multiset(kept) == multiset(s.choices)
    requires m == Move(s.current, DebuggerResolve, None, Blank, Known(kept[0]), [Known(kept[1]), Known(kept[2])])
    ensures s.current !in s.eliminated ==> Accepted(s, m) && Benign(s, m)
  {
    forall k | 0 <= k < 3 ensures kept[k] in s.choices { assert kept[k] in multiset(kept); }
    if s.current !in s.eliminated { assert NamedCards(m) == kept; }
  }

  /** The kept card first, then the other two in order. */
  function KeepOne(choices: seq<Card>, i: nat): seq<Card>
    requires |choices| == 3 && i < 3
  {
    [choices[i], choices[if 0 < i then 0 else 1], choices[if 1 < i then 1 else 2]]
  }

  lemma ThreeCards(a: Card, b: Card, c: Card)
    ensures multiset([a, b, c]) == multiset{a, b, c}
  {
  }

  lemma KeepOnePermutes(choices: seq<Card>, i: nat)
    requires |choices| == 3 && i < 3
    ensures multiset(KeepOne(choices, i)) == multiset(choices)
  {
    var a, b, c := choices[0], choices[1], choices[2];
    assert choices == [a, b, c];
    ThreeCards(a, b, c);
    ThreeCards(b, a, c);
    ThreeCards(c, a, b);
  }

  // ---------------------------------------------------------------------------
  // Scoring a position
  // ---------------------------------------------------------------------------

  function TokensOf(s: State, p: PlayerId): nat { if p in s.tokens then s.tokens[p] else 0 }

  method BestValue(hand: seq<Card>) returns (best: nat)
    ensures best <= 9 && (forall c :: c in hand ==> Value(c) <= best)
    ensures hand != [] ==> exists c :: c in hand && Value(c) == best
  {
    best := 0;
    for i := 0 to |hand|
      invariant best <= 9 && (forall c :: c in hand[..i] ==> Value(c) <= best)
      invariant i == 0 ==> best == 0
      invariant 0 < i ==> exists c :: c in hand[..i] && Value(c) == best
    {
      assert hand[..i + 1] == hand[..i] + [hand[i]];
      if Value(hand[i]) > best {
        best := Value(hand[i]);
        assert hand[i] in hand[..i + 1] && Value(hand[i]) == best;
      } else if i == 0 {
        assert hand[i] in hand[..i + 1] && Value(hand[i]) == best;
      }
    }
    assert hand[..|hand|] == hand;
  }

  ghost predicate HighestOf(hand: seq<Card>, c: Card) {
    c in hand && forall d :: d in hand ==> Value(d) <= Value(c)
  }

  /** A position whose score sheet is in order. */
  ghost predicate Gradable(s: State) {
    Seats(s) && (s.phase != GameOver ==> OpenScore(s))
  }

  /** The score of a position for `p`. While the game runs it lies strictly below a win, and in
      the unit interval; a finished game scores 0 or 1, and one half without a winner. */
  method Result(s: State, p: PlayerId) returns (score: real)
    requires Gradable(s)
    ensures 0.0 <= score <= 1.0
    ensures s.phase == GameOver ==>
              score == if s.gameWinner.None? then 0.5 else if s.gameWinner == Some(p) then 1.0 else 0.0
    ensures s.phase != GameOver ==> score < 1.0
    ensures s.phase != GameOver && p in s.eliminated ==> score == TokensOf(s, p) as real / s.toWin as real * 0.7
    ensures s.phase != GameOver && p !in s.eliminated && Hand(s, p) == [] ==>
              score == TokensOf(s, p) as real / s.toWin as real * 0.7 + 0.1
    ensures s.phase != GameOver && p !in s.eliminated && Hand(s, p) != [] ==>
              exists c :: HighestOf(Hand(s, p), c)
                          && score == TokensOf(s, p) as real / s.toWin as real * 0.7 + 0.1 + Value(c) as real / 9.0 * 0.2
  {
    var target := TokensToWin(|s.players|);
    if s.phase == GameOver {
      if s.gameWinner.None? { return 0.5; }
      return if s.gameWinner.value == p then 1.0 else 0.0;
    }
    assert TokensOf(s, p) <= target - 1;
    var tokenPart := TokensOf(s, p) as real / target as real * 0.7;
    ShareBelowOne(TokensOf(s, p), target);
    if p in s.eliminated { return tokenPart; }
    score := tokenPart + 0.1;
    var hand := Hand(s, p);
    if hand != [] {
      var best := BestValue(hand);
      ghost var c :| c in hand && Value(c) == best;
      assert HighestOf(hand, c);
      score := score + best as real / 9.0 * 0.2;
    }
  }

  lemma ShareBelowOne(tokens: nat, target: nat)
    requires tokens < target
    ensures 0.0 <= tokens as real / target as real < 1.0
  {
  }
}
