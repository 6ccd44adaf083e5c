/** What each single call of the ranked queue does to the whole store, in every state that a run
    can reach. */
module RankedQueueCalls {
  import opened QueuePenalty
  import opened RankedQueue
  import opened RankedQueueLaws

  /** The two players of a match. */
  predicate Between(k: Ticket, p: nat, q: nat) { (p == k.a && q == k.b) || (p == k.b && q == k.a) }

  /** At most match `m` has changed. */
  ghost predicate OnlyMatch(s: Store, t: Store, m: nat) {
    && t == s.(tickets := t.tickets) && t.tickets.Keys == s.tickets.Keys
    && forall n :: n in s.tickets && n != m ==> t.tickets[n] == s.tickets[n]
  }

  // ---------------------------------------------------------------------------
  // Acceptances
  // ---------------------------------------------------------------------------

  /** The hash `after` is `before` with the acceptance of `p` added, and lives as long. */
  predicate AcceptanceAdded(k: Ticket, before: Key, after: Key, p: nat) {
    && before.Present? && after.Present?
    && after.hash.playerA == k.a && after.hash.playerB == k.b && after.hash.expiry == before.hash.expiry
    && after.hash.acceptedA == (before.hash.acceptedA || p == k.a)
    && after.hash.acceptedB == (before.hash.acceptedB || p == k.b)
  }

  /** An acceptance by either player of a live match is recorded. If the other player has not
      accepted yet, both hashes show exactly this one more acceptance and the match stays open;
      nobody is queued or charged. */
  lemma AcceptIsRecorded(s: Store, p: Player, other: Player, m: nat, t: Store)
    requires Inv(s) && m in s.tickets && Live(s.tickets[m].pending, s.now) && Between(s.tickets[m], p, other)
    requires t == Step(s, Accept(p, m))
    ensures OnlyMatch(s, t, m) && t.tickets[m].said == s.tickets[m].said + {p}
    ensures other !in s.tickets[m].said ==>
              && AcceptanceAdded(s.tickets[m], s.tickets[m].pending, t.tickets[m].pending, p)
              && AcceptanceAdded(s.tickets[m], s.tickets[m].shadow, t.tickets[m].shadow, p)
              && t.tickets[m].outcomes == [] && t.tickets[m].task == s.tickets[m].task
              && Live(t.tickets[m].pending, t.now)
    ensures other in s.tickets[m].said ==> t.tickets[m].outcomes == [Started]
  {
    var k := s.tickets[m];
    assert TicketInv(k, s.now);
    assert Truthful(k, k.pending.hash, CONFIRMATION_WINDOW) && Truthful(k, k.shadow.hash, SHADOW_LIFE);
    if other in k.said { SecondYesStarts(s, p, m); }
  }

  /** The same at any point of any run. */
  lemma AcceptIsRecordedInRun(ops: seq<Op>, p: Player, other: Player, m: nat, s: Store, t: Store)
    requires s == Run(ops) && t == Run(ops + [Accept(p, m)])
    requires m in s.tickets && Live(s.tickets[m].pending, s.now) && Between(s.tickets[m], p, other)
    ensures m in t.tickets && t.tickets[m].said == s.tickets[m].said + {p}
    ensures other !in s.tickets[m].said ==>
              && AcceptanceAdded(s.tickets[m], s.tickets[m].pending, t.tickets[m].pending, p)
              && AcceptanceAdded(s.tickets[m], s.tickets[m].shadow, t.tickets[m].shadow, p)
              && t.tickets[m].outcomes == [] && t.queue == s.queue && NobodyCharged(s, t)
  {
    RunKeeps(ops);
    assert (ops + [Accept(p, m)])[..|ops|] == ops;
    AcceptIsRecorded(s, p, other, m, t);
  }

  lemma SecondCallFindsStart(s: Store, p: Player, m: nat)
    requires Inv(s) && m in s.tickets && s.tickets[m].outcomes == [Started]
    ensures Step(s, Accept(p, m)).tickets[m] == s.tickets[m]
  {
    SettledStep(s, Accept(p, m), m);
  }

  /** Two acceptances start the match, in whichever order they come and whoever else had accepted
      before. */
  lemma BothYesStart(s: Store, p: Player, other: Player, m: nat, mid: Store, t: Store)
    requires Inv(s) && m in s.tickets && Live(s.tickets[m].pending, s.now) && Between(s.tickets[m], p, other)
    requires mid == Step(s, Accept(p, m)) && t == Step(mid, Accept(other, m))
    ensures OnlyMatch(s, t, m) && t.tickets[m].outcomes == [Started]
    ensures t.tickets[m].pending == Absent && t.tickets[m].shadow == Absent && t.tickets[m].task == NoTask
  {
    StepKeeps(s, Accept(p, m), mid);
    AcceptIsRecorded(s, p, other, m, mid);
    if other in s.tickets[m].said {
      SecondYesStarts(s, p, m);
      SecondCallFindsStart(mid, other, m);
    } else {
      SecondYesStarts(mid, other, m);
      AcceptIsRecorded(mid, other, p, m, t);
    }
  }

  /** A call by a stranger, or on a match that is unknown, resolved or out of time, is refused and
      changes nothing. */
  lemma RefusedChangesNothing(s: Store, p: Player, m: nat)
    requires Inv(s)
    requires m in s.tickets && Live(s.tickets[m].pending, s.now) ==> p != s.tickets[m].a && p != s.tickets[m].b
    ensures Step(s, Accept(p, m)) == s && Step(s, Decline(p, m)) == s
  {
    if m in s.tickets {
      assert TicketInv(s.tickets[m], s.now);
      assert s.tickets[m := s.tickets[m]] == s.tickets;
    }
  }

  // ---------------------------------------------------------------------------
  // Joining, leaving, proposing
  // ---------------------------------------------------------------------------

  /** Joining queues exactly the players who are not banned, leaving removes exactly the caller. */
  lemma JoinAndLeave(s: Store, p: Player)
    ensures Step(s, Join(p)) == s.(queue := if IsBanned(s, p) then s.queue else s.queue + {p})
    ensures Step(s, Leave(p)) == s.(queue := s.queue - {p})
  {
    if p in s.queue { assert s.queue + {p} == s.queue; }
  }

  /** A proposal takes both players, and nobody else, out of the queue. Neither has accepted; the
      confirmation is open for exactly half a minute, the shadow lives exactly a minute, and the
      expiry is due when the confirmation closes. */
  lemma ProposalOpens(s: Store, m: nat, a: Player, b: Player, t: Store, later: nat)
    requires CanPropose(s, m, a, b) && t == Step(s, Propose(m, a, b)) && s.now <= later
    ensures t == s.(queue := s.queue - {a, b}, tickets := t.tickets)
    ensures m in t.tickets && t.tickets.Keys == s.tickets.Keys + {m}
    ensures forall n :: n in s.tickets ==> t.tickets[n] == s.tickets[n]
    ensures var k := t.tickets[m];
            && k.a == a && k.b == b && k.said == {} && k.outcomes == [] && k.task == Due(s.now + 30000)
            && (Live(k.pending, later) <==> later < s.now + 30000)
            && (Live(k.shadow, later) <==> later < s.now + 60000)
            && k.pending.hash.(expiry := Never) == Hash(a, b, false, false, Never) == k.shadow.hash.(expiry := Never)
  {
    assert t.tickets.Keys == s.tickets.Keys + {m};
  }
}
