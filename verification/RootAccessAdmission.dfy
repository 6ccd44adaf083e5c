/** Which moves are accepted in a game, as the rules put it. */
module RootAccessAdmission {
  import opened RootAccessCards
  import opened RootAccessEngine
  import opened RootAccessInvariant
  import opened RootAccessRuns

  /** Somebody whom a card can be played against. */
  predicate Exposed(s: State, q: PlayerId) {
    q in s.players && q != s.current && q !in s.eliminated && q !in s.protected
  }

  /** A Swap or a Reboot beside the Encrypted Key forces the Key out. */
  predicate KeyIsDue(hand: seq<Card>) {
    exists i, j :: 0 <= i < |hand| && 0 <= j < |hand| && hand[i] == EncryptedKey && hand[j] in {Swap, Reboot}
  }

  /** The four cards that hit an opponent may name nobody, or somebody exposed; a Reboot may also
      name its player; the others ignore the name. */
  predicate MayName(s: State, c: Card, target: Option<PlayerId>) {
    target.Some? ==>
      match c
      case Ping | Sniffer | BufferOverflow | Swap => Exposed(s, target.value)
      case Reboot => target.value == s.current || Exposed(s, target.value)
      case _ => true
  }

  /** A Ping with a target guesses one of the ten cards, but not the Ping. */
  predicate MayGuess(c: Card, target: Option<PlayerId>, guess: CardName) {
    c == Ping && target.Some? ==> guess.Known? && guess != Known(Ping)
  }

  ghost predicate MayPlay(s: State, m: Move) {
    && m.card.Known? && m.card.card in Hand(s, s.current)
    && (KeyIsDue(Hand(s, s.current)) ==> m.card.card == EncryptedKey)
    && MayName(s, m.card.card, m.target) && MayGuess(m.card.card, m.target, m.guess)
  }

  /** Three cards are shown and the move names three of them, not necessarily different ones. */
  predicate MayResolve(s: State, m: Move) {
    && m.card == DebuggerResolve && |s.choices| == 3 && |m.ret| == 2
    && forall name :: name in [m.keep] + m.ret ==> name.Known? && name.card in s.choices
  }

  lemma KeyIsDueIff(hand: seq<Card>)
    ensures KeyIsDue(hand) <==> EncryptedKey in hand && (Swap in hand || Reboot in hand)
  {
  }

  lemma GuessesAre(guess: CardName)
    ensures guess.Known? && guess.card in NonPingCards() <==> guess.Known? && guess != Known(Ping)
  {
    if guess.Known? {
      assert NonPingCards()[..] == NonPingCards();
      match guess.card {
        case Backdoor => assert NonPingCards()[0] == Backdoor;
        case Ping =>
        case Sniffer => assert NonPingCards()[1] == Sniffer;
        case BufferOverflow => assert NonPingCards()[2] == BufferOverflow;
        case Firewall => assert NonPingCards()[3] == Firewall;
        case Reboot => assert NonPingCards()[4] == Reboot;
        case Debugger => assert NonPingCards()[5] == Debugger;
        case Swap => assert NonPingCards()[6] == Swap;
        case EncryptedKey => assert NonPingCards()[7] == EncryptedKey;
        case Root => assert NonPingCards()[8] == Root;
      }
    }
  }

  lemma NamingIsChecked(s: State, m: Move, c: Card)
    requires m.player == s.current
    ensures c in {Ping, Sniffer, BufferOverflow, Swap} ==>
              (ValidateTarget(s, m.player, m.target) == Accept <==> MayName(s, c, m.target))
    ensures c == Reboot && m.target != Some(s.current) ==>
              (ValidateTarget(s, m.player, m.target) == Accept <==> MayName(s, c, m.target))
  {
  }

  lemma PlayIsChecked(s: State, m: Move)
    requires m.player == s.current
    ensures ValidateStandard(s, m) == Accept <==> MayPlay(s, m)
  {
    KeyIsDueIff(Hand(s, s.current));
    GuessesAre(m.guess);
    if m.card.Known? { NamingIsChecked(s, m, m.card.card); }
  }

  lemma ResolveIsChecked(s: State, m: Move)
    ensures ValidateResolve(s, m) == Accept <==> MayResolve(s, m)
  {
    if |m.ret| == 2 {
      var names := [m.keep] + m.ret;
      assert |names| == 3 && names[0] == m.keep && names[1] == m.ret[0] && names[2] == m.ret[1];
      assert m.keep in names && m.ret[0] in names && m.ret[1] in names;
      assert forall name :: name in names ==> name in {m.keep, m.ret[0], m.ret[1]};
    }
  }

  /** In every position of a game: a penalty is accepted always, any other move only of the player
      on turn, a card exactly if the rules let it be played, and a resolve exactly while a
      Debugger is pending. */
  lemma AcceptedIff(s: State, m: Move)
    requires Inv(s)
    ensures Accepted(s, m) <==>
              || m.card == PenaltyLose
              || (m.player == s.current && s.phase == Playing && MayPlay(s, m))
              || (m.player == s.current && s.phase == DebuggerPending && MayResolve(s, m))
  {
    if m.player == s.current {
      PlayIsChecked(s, m);
      ResolveIsChecked(s, m);
    }
  }

  /** The same at every point of every legal game. */
  lemma AcceptedInGameIff(r: Game, i: nat, m: Move, s: State)
    requires i < |r.ss| && s == r.ss[i]
    ensures Accepted(s, m) <==>
              || m.card == PenaltyLose
              || (m.player == s.current && s.phase == Playing && MayPlay(s, m))
              || (m.player == s.current && s.phase == DebuggerPending && MayResolve(s, m))
  {
    RunKeeps(r, i);
    AcceptedIff(s, m);
  }
}
