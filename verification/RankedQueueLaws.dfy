/** What holds of the ranked queue over every run of its service calls. */
module RankedQueueLaws {
  import opened QueuePenalty
  import opened RankedQueue

  // ---------------------------------------------------------------------------
  // Every step keeps the invariant
  // ---------------------------------------------------------------------------

  lemma PutKeeps(s: Store, t: Store, m: nat, k: Ticket)
    requires Inv(s) && TicketInv(k, s.now) && t.now == s.now && t.tickets == s.tickets[m := k]
    ensures Inv(t)
  {
    forall n | n in t.tickets ensures TicketInv(t.tickets[n], t.now) {
    }
  }

  lemma StepKeeps(s: Store, op: Op, t: Store)
    requires Inv(s) && t == Step(s, op)
    ensures Inv(t)
  {
    match op
    case Propose(m, a, b) =>
      if CanPropose(s, m, a, b) {
        NewTicketInv(a, b, s.now);
        PutKeeps(s, t, m, NewTicket(a, b, s.now));
      }
    case Accept(p, m) =>
      if m in s.tickets {
        AcceptKeeps(s.tickets[m], p, s.now);
        PutKeeps(s, t, m, AcceptTicket(s.tickets[m], p, s.now));
      }
    case Decline(p, m) =>
      if m in s.tickets {
        DeclineKeeps(s.tickets[m], p, s.now);
        PutKeeps(s, t, m, DeclineTicket(s.tickets[m], p, s.now));
      }
    case Expire(m) =>
      if CanExpire(s, m) {
        ExpireKeeps(s.tickets[m], s.now);
        PutKeeps(s, t, m, ExpireTicket(s.tickets[m], s.now));
      }
    case Tick(ms) =>
      forall m | m in t.tickets ensures TicketInv(t.tickets[m], t.now) {
        TickKeeps(s.tickets[m], s.now, t.now);
      }
    case Join(_) =>
    case Leave(_) =>
  }

  lemma {:induction false} RunKeeps(ops: seq<Op>)
    ensures Inv(Run(ops))
  {
    if ops != [] {
      RunKeeps(ops[..|ops| - 1]);
      StepKeeps(Run(ops[..|ops| - 1]), ops[|ops| - 1], Run(ops));
    }
  }

  // ---------------------------------------------------------------------------
  // Safety of the protocol
  // ---------------------------------------------------------------------------

  /** In every reachable state a live pending hash has a live shadow that agrees with it on
      players and acceptances, and never shows two acceptances. */
  lemma PendingHasShadow(ops: seq<Op>, m: nat)
    requires m in Run(ops).tickets && Live(Run(ops).tickets[m].pending, Run(ops).now)
    ensures var s := Run(ops); var k := s.tickets[m];
            && Live(k.shadow, s.now)
            && k.pending.hash.(expiry := Never) == k.shadow.hash.(expiry := Never)
            && k.pending.hash.playerA == k.a && k.pending.hash.playerB == k.b
            && !BothSaidYes(k.pending) && k.outcomes == []
  {
    RunKeeps(ops);
    var k := Run(ops).tickets[m];
    assert TicketInv(k, Run(ops).now);
    assert Truthful(k, k.pending.hash, CONFIRMATION_WINDOW);
    assert Truthful(k, k.shadow.hash, SHADOW_LIFE);
  }

  /** A match ends in at most one of started, declined and expired, and it is started only if
      both players said yes. */
  lemma ResolvedAtMostOnce(ops: seq<Op>, m: nat)
    requires m in Run(ops).tickets
    ensures |Run(ops).tickets[m].outcomes| <= 1
    ensures Run(ops).tickets[m].outcomes == [Started] ==>
              Run(ops).tickets[m].a in Run(ops).tickets[m].said && Run(ops).tickets[m].b in Run(ops).tickets[m].said
  {
    RunKeeps(ops);
    assert TicketInv(Run(ops).tickets[m], Run(ops).now);
  }

  lemma SettledTicket(k: Ticket, p: Player, now: nat)
    requires TicketInv(k, now) && k.outcomes != []
    ensures AcceptTicket(k, p, now) == k && Check(k, p, now) == NotFound && k.task.NoTask?
  {
  }

  lemma SettledStep(s: Store, op: Op, m: nat)
    requires Inv(s) && m in s.tickets && s.tickets[m].outcomes != []
    ensures m in Step(s, op).tickets && Step(s, op).tickets[m] == s.tickets[m]
  {
    assert TicketInv(s.tickets[m], s.now);
    match op
    case Accept(p, _) => SettledTicket(s.tickets[m], p, s.now);
    case Decline(p, _) => SettledTicket(s.tickets[m], p, s.now);
    case Expire(_) => SettledTicket(s.tickets[m], 1, s.now);
    case _ =>
  }

  /** Once resolved, a match is never touched again. */
  lemma {:induction false} ResolutionIsFinal(ops: seq<Op>, more: seq<Op>, m: nat)
    requires m in Run(ops).tickets && Run(ops).tickets[m].outcomes != []
    ensures m in Run(ops + more).tickets && Run(ops + more).tickets[m] == Run(ops).tickets[m]
  {
    if more == [] {
      assert ops + more == ops;
    } else {
      var front, last, all := more[..|more| - 1], more[|more| - 1], ops + more;
      assert all[..|all| - 1] == ops + front;
      ResolutionIsFinal(ops, front, m);
      RunKeeps(ops + front);
      SettledStep(Run(ops + front), last, m);
    }
  }

  // ---------------------------------------------------------------------------
  // What the calls do to the players
  // ---------------------------------------------------------------------------

  /** Nobody but `p` is charged, and `p` exactly once. */
  ghost predicate ChargedOnly(s: Store, t: Store, p: nat) {
    && t.charges == s.charges + [(p, s.now)]
    && PenaltyOf(t, p) == Record(PenaltyOf(s, p), s.now)
    && forall q :: q != p ==> PenaltyOf(t, q) == PenaltyOf(s, q)
  }

  ghost predicate NobodyCharged(s: Store, t: Store) {
    t.charges == s.charges && t.penalties == s.penalties
  }

  /** `p` can play on: in the queue again, unless serving a ban. */
  ghost predicate QueuedOrBanned(s: Store, t: Store, p: nat) {
    && (p in t.queue || IsBanned(t, p))
    && t.queue <= s.queue + {p} && s.queue <= t.queue
  }

  lemma PenaliseCharges(s: Store, p: nat)
    ensures ChargedOnly(s, Penalise(s, p), p)
  {
  }

  /** The second acceptance starts the match: both hashes are gone, the expiry is cancelled
      and nobody is charged. */
  lemma SecondYesStarts(s: Store, p: Player, m: nat)
    requires Inv(s) && m in s.tickets && Live(s.tickets[m].pending, s.now)
    requires (p == s.tickets[m].a && s.tickets[m].b in s.tickets[m].said)
          || (p == s.tickets[m].b && s.tickets[m].a in s.tickets[m].said)
    ensures var t := Step(s, Accept(p, m));
            && t.tickets[m].outcomes == [Started] && t.tickets[m].pending == Absent && t.tickets[m].shadow == Absent
            && t.tickets[m].task == NoTask && NobodyCharged(s, t) && t.queue == s.queue
  {
    var k := s.tickets[m];
    assert TicketInv(k, s.now);
    assert Truthful(k, k.pending.hash, CONFIRMATION_WINDOW);
    assert BothSaidYes(Mark(k, p, s.now).pending);
  }

  /** Only tickets differ. */
  ghost predicate SamePlayers(s: Store, t: Store) {
    t.now == s.now && t.queue == s.queue && NobodyCharged(s, t)
  }

  lemma EnqueueQueues(put: Store, yes: nat, q: Store)
    requires q == Enqueue(put, yes)
    ensures q == put.(queue := q.queue) && put.queue <= q.queue <= put.queue + {yes}
    ensures yes in q.queue || IsBanned(put, yes)
  {
  }

  lemma ChargeKeepsQueue(q: Store, yes: nat, no: nat, t: Store)
    requires yes != no && t == Penalise(q, no)
    ensures t.queue == q.queue && t.now == q.now && t.tickets == q.tickets && (IsBanned(t, yes) <==> IsBanned(q, yes))
  {
  }

  lemma RequeueAndCharge(s: Store, put: Store, yes: nat, no: nat, t: Store)
    requires SamePlayers(s, put) && yes != no && t == Penalise(Enqueue(put, yes), no)
    ensures ChargedOnly(s, t, no) && QueuedOrBanned(s, t, yes) && t.tickets == put.tickets && t.now == s.now
  {
    var q := Enqueue(put, yes);
    EnqueueQueues(put, yes, q);
    PenaliseCharges(q, no);
    ChargeKeepsQueue(q, yes, no, t);
  }

  lemma DeclineUnfolds(s: Store, p: Player, m: nat, other: Player, put: Store)
    requires Inv(s) && m in s.tickets && Live(s.tickets[m].pending, s.now)
    requires (p == s.tickets[m].a && other == s.tickets[m].b) || (p == s.tickets[m].b && other == s.tickets[m].a)
    requires put == Put(s, m, Close(s.tickets[m], Declined(p)))
    ensures SamePlayers(s, put) && s.tickets[m].outcomes == [] && p != other
    ensures Step(s, Decline(p, m)) == Penalise(if other in s.tickets[m].said then Enqueue(put, other) else put, p)
  {
    var k := s.tickets[m];
    assert TicketInv(k, s.now);
    assert Truthful(k, k.pending.hash, CONFIRMATION_WINDOW);
    assert Check(k, p, s.now) == Waiting;
  }

  /** A decline charges the decliner alone; the other is queued again exactly after accepting. */
  lemma DeclineCharges(s: Store, p: Player, m: nat, other: Player, t: Store)
    requires Inv(s) && m in s.tickets && Live(s.tickets[m].pending, s.now)
    requires (p == s.tickets[m].a && other == s.tickets[m].b) || (p == s.tickets[m].b && other == s.tickets[m].a)
    requires t == Step(s, Decline(p, m))
    ensures m in t.tickets && t.tickets[m].outcomes == [Declined(p)] && ChargedOnly(s, t, p) && t.now == s.now
    ensures if other in s.tickets[m].said then QueuedOrBanned(s, t, other) else t.queue == s.queue
  {
    var put := Put(s, m, Close(s.tickets[m], Declined(p)));
    DeclineUnfolds(s, p, m, other, put);
    if other in s.tickets[m].said {
      RequeueAndCharge(s, put, other, p, t);
    } else {
      PenaliseCharges(put, p);
    }
  }

  /** An expiry task that runs takes effect exactly if it runs within the shadow's life. */
  lemma ExpiryEffectiveIff(s: Store, m: nat)
    requires Inv(s) && CanExpire(s, m)
    ensures Step(s, Expire(m)).tickets[m].outcomes == [Expired] <==> s.now < s.tickets[m].bornAt + SHADOW_LIFE
    ensures s.now >= s.tickets[m].bornAt + SHADOW_LIFE ==>
              NobodyCharged(s, Step(s, Expire(m))) && Step(s, Expire(m)).queue == s.queue
  {
    var k := s.tickets[m];
    assert TicketInv(k, s.now);
    assert Live(k.shadow, s.now) <==> s.now < k.bornAt + SHADOW_LIFE;
  }

  /** An expiry within the shadow's life with one acceptor queues that player again unless
      banned and charges the other alone. */
  lemma ExpiryChargesTheOther(s: Store, m: nat, yes: Player, no: Player)
    requires Inv(s) && CanExpire(s, m) && s.now < s.tickets[m].bornAt + SHADOW_LIFE
    requires (s.tickets[m].a == yes && s.tickets[m].b == no) || (s.tickets[m].b == yes && s.tickets[m].a == no)
    requires yes in s.tickets[m].said && no !in s.tickets[m].said
    ensures ChargedOnly(s, Step(s, Expire(m)), no) && QueuedOrBanned(s, Step(s, Expire(m)), yes)
  {
    var k := s.tickets[m];
    assert TicketInv(k, s.now);
    assert Truthful(k, k.shadow.hash, SHADOW_LIFE);
    var put := Put(s, m, ExpireTicket(k, s.now));
    RequeueAndCharge(s, put, yes, no, Step(s, Expire(m)));
  }

  /** Without any acceptor an expiry charges and queues nobody. */
  lemma ExpiryWithoutAcceptor(s: Store, m: nat)
    requires Inv(s) && CanExpire(s, m)
    requires s.tickets[m].a !in s.tickets[m].said && s.tickets[m].b !in s.tickets[m].said
    ensures NobodyCharged(s, Step(s, Expire(m))) && Step(s, Expire(m)).queue == s.queue
  {
    assert TicketInv(s.tickets[m], s.now);
    if Live(s.tickets[m].shadow, s.now) {
      assert Truthful(s.tickets[m], s.tickets[m].shadow.hash, SHADOW_LIFE);
    }
  }

  // ---------------------------------------------------------------------------
  // The penalties of a whole run
  // ---------------------------------------------------------------------------

  /** When `p` was charged. */
  function ChargeTimes(charges: seq<(nat, nat)>, p: nat): seq<nat> {
    if charges == [] then []
    else
      var front, last := ChargeTimes(charges[..|charges| - 1], p), charges[|charges| - 1];
      if last.0 == p then front + [last.1] else front
  }

  ghost predicate PenaltyInv(s: Store, p: nat) {
    && PenaltyOf(s, p) == Replay(ChargeTimes(s.charges, p))
    && Ordered(ChargeTimes(s.charges, p))
    && Last(ChargeTimes(s.charges, p)) <= s.now
  }

  lemma ChargeTimesPush(charges: seq<(nat, nat)>, p: nat, q: nat, now: nat)
    ensures ChargeTimes(charges + [(p, now)], q) == if p == q then ChargeTimes(charges, q) + [now] else ChargeTimes(charges, q)
  {
    assert (charges + [(p, now)])[..|charges|] == charges;
  }

  lemma TimesPush(times: seq<nat>, now: nat)
    requires Ordered(times) && Last(times) <= now
    ensures Ordered(times + [now]) && Last(times + [now]) == now && Replay(times + [now]) == Record(Replay(times), now)
  {
    var more := times + [now];
    assert more[..|times|] == times;
    forall i, j | 0 <= i <= j < |more| ensures more[i] <= more[j] {
      if j == |times| && i < |times| { assert times[i] <= times[|times| - 1]; }
    }
  }

  lemma ChargeKeeps(s: Store, t: Store, p: nat, q: nat)
    requires PenaltyInv(s, q) && ChargedOnly(s, t, p) && t.now == s.now
    ensures PenaltyInv(t, q)
  {
    ChargeTimesPush(s.charges, p, q, s.now);
    if p == q { TimesPush(ChargeTimes(s.charges, q), s.now); }
  }

  /** A step charges nobody, or exactly one player once. */
  lemma StepCharges(s: Store, op: Op) returns (p: nat)
    requires Inv(s)
    ensures NobodyCharged(s, Step(s, op)) || (ChargedOnly(s, Step(s, op), p) && Step(s, op).now == s.now)
  {
    p := 0;
    match op
    case Decline(q, m) =>
      p := q;
      if m in s.tickets && Check(s.tickets[m], q, s.now) == Waiting {
        var k := s.tickets[m];
        assert TicketInv(k, s.now);
        DeclineCharges(s, q, m, if q == k.a then k.b else k.a, Step(s, op));
      }
    case Expire(m) =>
      if CanExpire(s, m) && Live(s.tickets[m].shadow, s.now) {
        var k := s.tickets[m];
        assert TicketInv(k, s.now);
        if k.a in k.said {
          p := k.b;
          ExpiryChargesTheOther(s, m, k.a, k.b);
        } else if k.b in k.said {
          p := k.a;
          ExpiryChargesTheOther(s, m, k.b, k.a);
        } else {
          ExpiryWithoutAcceptor(s, m);
        }
      }
    case _ =>
  }

  lemma StepKeepsPenalty(s: Store, op: Op, t: Store, q: nat)
    requires Inv(s) && PenaltyInv(s, q) && t == Step(s, op)
    ensures PenaltyInv(t, q)
  {
    var p := StepCharges(s, op);
    if NobodyCharged(s, t) {
      assert t.now >= s.now;
    } else {
      ChargeKeeps(s, t, p, q);
    }
  }

  /** In every run a player's stored penalty is that of the player's charges so far: hence
      bans are those of the plain rule, three charges within an hour, five minutes each. */
  lemma {:induction false} RunPenalties(ops: seq<Op>, p: nat)
    ensures PenaltyInv(Run(ops), p)
    ensures var s := Run(ops);
            var bans := Plain(ChargeTimes(s.charges, p)).bans;
            IsBanned(s, p) <==> bans != [] && s.now < Last(bans) + 5 * 60000
  {
    if ops != [] {
      RunPenalties(ops[..|ops| - 1], p);
      RunKeeps(ops[..|ops| - 1]);
      StepKeepsPenalty(Run(ops[..|ops| - 1]), ops[|ops| - 1], Run(ops), p);
    }
    ListAgreesWithPlainCount(ChargeTimes(Run(ops).charges, p));
  }

  // ---------------------------------------------------------------------------
  // An expiry that comes too late
  // ---------------------------------------------------------------------------

  const LATE: seq<Op> := [Join(1), Join(2), Propose(0, 1, 2), Accept(1, 0), Tick(60000), Expire(0)]

  lemma RunOneMore(ops: seq<Op>, k: nat)
    requires k < |ops|
    ensures Run(ops[..k + 1]) == Step(Run(ops[..k]), ops[k])
  {
    assert ops[..k + 1][..k] == ops[..k];
  }

  lemma LateProposal()
    ensures Run(LATE[..3]) == Store(0, {}, map[0 := NewTicket(1, 2, 0)], map[], [])
  {
    assert LATE[..0] == [];
    RunOneMore(LATE, 0);
    assert Run(LATE[..1]).queue == {1};
    RunOneMore(LATE, 1);
    assert Run(LATE[..2]).queue == {1, 2};
    RunOneMore(LATE, 2);
    assert {1, 2} - {1, 2} == {};
  }

  /** A minute after the proposal the expiry finds no shadow: player 1, who accepted, is neither
      queued again nor banned, and nobody is charged. */
  lemma LateExpiryForgets()
    ensures var s := Run(LATE);
            && 0 in s.tickets && s.tickets[0].said == {1} && s.tickets[0].outcomes == [] && s.tickets[0].task == NoTask
            && s.queue == {} && s.charges == [] && !IsBanned(s, 1)
  {
    LateProposal();
    RunOneMore(LATE, 3);
    RunOneMore(LATE, 4);
    RunOneMore(LATE, 5);
    assert LATE[..6] == LATE;
  }
}
