/** Where a fault-free worker puts an entry: acknowledged once it is handled, retried while it
    fails, and moved to the dead-letter stream from its fifth delivery on. */
module StreamDeadLetter {
  import opened RatingLedger
  import opened StreamWorker
  import opened StreamDelivery

  /** A payload that does not decode, or a ranked session with an id that does not parse. */
  predicate Unhandleable(m: Message) {
    || m.Garbage?
    || (m.Finished? && m.evt.ranked && 2 <= |m.evt.players| && HasBadId(m.evt))
  }

  predicate HasBadId(evt: Event) {
    evt.session.Bad? || evt.result.Bad? || exists i :: 0 <= i < |evt.players| && evt.players[i].id.Bad?
  }

  // ---------------------------------------------------------------------------
  // Counting deliveries
  // ---------------------------------------------------------------------------

  /** A read hands out the next entry for the first time; claiming a pending entry hands it out
      once more. Nothing else counts. */
  lemma DeliveriesCount(eng: Engine, actions: seq<Action>, id: nat, w: World)
    requires w == Run(eng, actions)
    ensures w.next < |w.stream| ==>
              Step(eng, w, Read)
              == w.(next := w.next + 1, pending := w.pending + {w.next}, deliveries := w.deliveries[w.next := 1])
    ensures w.next == |w.stream| ==> Step(eng, w, Read) == w
    ensures id in w.pending ==>
              id in w.deliveries && Step(eng, w, Claim(id)) == w.(deliveries := w.deliveries[id := w.deliveries[id] + 1])
    ensures id !in w.pending ==> Step(eng, w, Claim(id)) == w
  {
    RunDelivers(eng, actions);
    if id in w.pending { assert w.pending + {id} == w.pending; }
  }

  // ---------------------------------------------------------------------------
  // Processing without faults
  // ---------------------------------------------------------------------------

  lemma UnhandleableFails(w: World, id: nat)
    requires id < |w.stream| && Unhandleable(w.stream[id])
    ensures !Accepts(w, id, NO_FAULT) && !CommitsNow(w, id, NO_FAULT) && !w.stream[id].NoPayload?
  {
  }

  /** A pending entry that the handler cannot handle goes to the dead-letter stream, and off the
      pending list, if and only if it has been delivered at least five times; otherwise nothing
      changes and it stays pending. */
  lemma FailedEntryMovesIff(eng: Engine, w: World, id: nat, t: World)
    requires id in w.pending && id in w.deliveries && id < w.next <= |w.stream| && Unhandleable(w.stream[id])
    requires t == Step(eng, w, Action.Process(id, NO_FAULT))
    ensures w.deliveries[id] >= 5 ==> t == w.(pending := w.pending - {id}, dlq := w.dlq + [id])
    ensures w.deliveries[id] < 5 ==> t == w
    ensures id !in t.pending <==> w.deliveries[id] >= 5
    ensures t.dlq == w.dlq + [id] <==> w.deliveries[id] >= 5
  {
    UnhandleableFails(w, id);
    assert |w.dlq + [id]| == |w.dlq| + 1;
  }

  /** The same in any schedule; a consumer that holds on to an entry no longer pending changes
      nothing. */
  lemma FailedEntryInRun(eng: Engine, actions: seq<Action>, id: nat, w: World, t: World)
    requires w == Run(eng, actions) && id < w.next && id < |w.stream| && Unhandleable(w.stream[id])
    requires t == Step(eng, w, Action.Process(id, NO_FAULT))
    ensures id in w.pending ==> id in w.deliveries
    ensures t == if id in w.pending && w.deliveries[id] >= 5 then w.(pending := w.pending - {id}, dlq := w.dlq + [id]) else w
  {
    RunDelivers(eng, actions);
    if id in w.pending {
      FailedEntryMovesIff(eng, w, id, t);
    } else {
      UnhandleableFails(w, id);
    }
  }

  /** Every other entry is acknowledged by one fault-free processing, without the dead-letter
      stream: a malformed one unseen, any other with its event in the store. */
  lemma OtherEntriesAreAcknowledged(eng: Engine, w: World, id: nat, t: World)
    requires id < w.next && id < |w.stream| && !Unhandleable(w.stream[id])
    requires t == Step(eng, w, Action.Process(id, NO_FAULT))
    ensures t.pending == w.pending - {id} && t.dlq == w.dlq && t.stream == w.stream && t.next == w.next
    ensures w.stream[id].NoPayload? ==> t.db == w.db && t.handled == w.handled
    ensures w.stream[id].Finished? ==> t.db == After(eng, w.db, w.stream[id].evt) && t.handled == w.handled + {id}
  {
    if w.stream[id].Finished? {
      assert Verdict(w.db, w.stream[id].evt) != Failed;
    }
  }

  /** A good event whose processing meets one fault stays pending, for another delivery: nothing
      has happened if the worker died early or the handler asked for no ack; its rating is in
      the store if the worker died late or the ack failed. */
  lemma FaultLeavesPending(eng: Engine, w: World, id: nat, f: Fault, t: World, changed: World)
    requires id in w.pending && id < w.next && id < |w.stream| && w.stream[id].Finished? && !Unhandleable(w.stream[id])
    requires t == Step(eng, w, Action.Process(id, f))
    requires changed == w.(db := After(eng, w.db, w.stream[id].evt), commits := t.commits)
    ensures f == NO_FAULT.(crashEarly := true) || f == NO_FAULT.(skip := true) ==> t == w
    ensures f == NO_FAULT.(crashLate := true) ==> t == changed
    ensures f == NO_FAULT.(ackFails := true) ==> t == changed.(handled := w.handled + {id})
  {
    assert Verdict(w.db, w.stream[id].evt) != Failed;
  }

  // ---------------------------------------------------------------------------
  // Until the dead-letter stream
  // ---------------------------------------------------------------------------

  /** The entry is claimed and processed `k` times. */
  function Retries(id: nat, k: nat): seq<Action> {
    if k == 0 then [] else Retries(id, k - 1) + [Claim(id), Action.Process(id, NO_FAULT)]
  }

  lemma RunTwoMore(eng: Engine, actions: seq<Action>, x: Action, y: Action)
    ensures Run(eng, actions + [x, y]) == Step(eng, Step(eng, Run(eng, actions), x), y)
  {
    var all := actions + [x, y];
    assert all[..|all| - 1] == actions + [x];
    assert (actions + [x])[..|actions|] == actions;
  }

  /** What `k` retries of a failing entry come to: with the delivery count below five it is still
      pending with `k` deliveries more, from five on it is off the list and in the dead-letter
      stream, once. */
  ghost predicate Retried(w: World, id: nat, k: nat, t: World)
    requires id in w.deliveries
  {
    if k == 0 || w.deliveries[id] + k < 5 then t == w.(deliveries := w.deliveries[id := w.deliveries[id] + k])
    else
      && id in t.deliveries
      && t == w.(pending := w.pending - {id}, dlq := w.dlq + [id], deliveries := w.deliveries[id := t.deliveries[id]])
  }

  lemma RetryOnce(eng: Engine, actions: seq<Action>, w: World, id: nat, k: nat, u: World, t: World)
    requires u == Run(eng, actions) && id in w.pending && id in w.deliveries && Retried(w, id, k, u)
    requires id < w.next <= |w.stream| && Unhandleable(w.stream[id])
    requires t == Step(eng, Step(eng, u, Claim(id)), Action.Process(id, NO_FAULT))
    ensures Retried(w, id, k + 1, t)
  {
    var claimed := Step(eng, u, Claim(id));
    DeliveriesCount(eng, actions, id, u);
    if id in u.pending {
      FailedEntryMovesIff(eng, claimed, id, t);
    } else {
      UnhandleableFails(claimed, id);
    }
  }

  lemma OneMoreRetry(eng: Engine, before: seq<Action>, w: World, id: nat, k: nat, t: World)
    requires id in w.pending && id in w.deliveries && Retried(w, id, k, Run(eng, before))
    requires id < w.next <= |w.stream| && Unhandleable(w.stream[id])
    requires t == Run(eng, before + [Claim(id), Action.Process(id, NO_FAULT)])
    ensures Retried(w, id, k + 1, t)
  {
    RunTwoMore(eng, before, Claim(id), Action.Process(id, NO_FAULT));
    RetryOnce(eng, before, w, id, k, Run(eng, before), t);
  }

  lemma RetriesGrow(actions: seq<Action>, id: nat, k: nat)
    requires 0 < k
    ensures actions + Retries(id, k) == actions + Retries(id, k - 1) + [Claim(id), Action.Process(id, NO_FAULT)]
  {
  }

  /** Claimed and processed again and again, an entry that always fails ends in the dead-letter
      stream: exactly at its fifth delivery, and only once. */
  lemma {:induction false} RetriesEndInDeadLetter(eng: Engine, actions: seq<Action>, id: nat, k: nat, w: World)
    requires w == Run(eng, actions) && id in w.pending && id < |w.stream| && Unhandleable(w.stream[id])
    ensures id in w.deliveries && id < w.next <= |w.stream|
    ensures Retried(w, id, k, Run(eng, actions + Retries(id, k)))
  {
    RunDelivers(eng, actions);
    if k == 0 {
      assert actions + Retries(id, 0) == actions;
    } else {
      RetriesEndInDeadLetter(eng, actions, id, k - 1, w);
      RetriesGrow(actions, id, k);
      OneMoreRetry(eng, actions + Retries(id, k - 1), w, id, k - 1, Run(eng, actions + Retries(id, k)));
    }
  }

  const POISONED: seq<Action> := [Publish(Garbage), Read]

  /** An entry that does not decode, read once and then retried: still pending after three
      retries, in the dead-letter stream after four. */
  lemma PoisonEndsInDeadLetter(eng: Engine)
    ensures Run(eng, POISONED + Retries(0, 3)).pending == {0} && Run(eng, POISONED + Retries(0, 3)).dlq == []
    ensures Run(eng, POISONED + Retries(0, 4)).pending == {} && Run(eng, POISONED + Retries(0, 4)).dlq == [0]
  {
    RunTwoMore(eng, [], Publish(Garbage), Read);
    assert [] + POISONED == POISONED;
    var w := Run(eng, POISONED);
    assert w == World([Garbage], 1, {0}, map[0 := 1], [], FRESH, [], {});
    RetriesEndInDeadLetter(eng, POISONED, 0, 3, w);
    RetriesEndInDeadLetter(eng, POISONED, 0, 4, w);
  }
}
