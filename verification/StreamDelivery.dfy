/** No entry is lost: one leaves the pending list only once it is handled, copied to the
    dead-letter stream, or found malformed. */
module StreamDelivery {
  import opened RatingLedger
  import opened RatingLedgerLaws
  import opened StreamWorker
  import opened StreamWorkerLaws

  // ---------------------------------------------------------------------------
  // Where the entries are
  // ---------------------------------------------------------------------------

  ghost predicate Accounted(w: World, id: nat)
    requires id < |w.stream|
  {
    id in w.pending || w.stream[id].NoPayload? || id in w.dlq || id in w.handled
  }

  ghost predicate DeliveryInv(w: World) {
    && w.next <= |w.stream|
    && (forall id :: 0 <= id < w.next ==> Accounted(w, id))
    && (forall id :: id in w.pending ==> id in w.deliveries)
    && (forall id :: id in w.deliveries ==> id < w.next)
    && (forall id :: id in w.dlq ==> id in w.deliveries && w.deliveries[id] >= MAX_RETRIES)
  }

  /** Processing an entry takes it off the pending list only for one of the three reasons. */
  lemma ProcessAccounts(eng: Engine, w: World, id: nat, f: Fault, t: World)
    requires id < |w.stream| && t == ProcessMessage(eng, w, id, f)
    ensures t.stream == w.stream && t.next == w.next && t.deliveries == w.deliveries
    ensures w.handled <= t.handled && w.pending - {id} <= t.pending <= w.pending
    ensures id in w.pending && id !in t.pending ==> w.stream[id].NoPayload? || id in t.dlq || id in t.handled
    ensures t.dlq == w.dlq || (t.dlq == w.dlq + [id] && id in w.deliveries && w.deliveries[id] >= MAX_RETRIES)
  {
    HandleOrNot(eng, w, id, f, t);
  }

  lemma ProcessKeeps(eng: Engine, w: World, id: nat, f: Fault, t: World)
    requires DeliveryInv(w) && id < w.next && t == ProcessMessage(eng, w, id, f)
    ensures DeliveryInv(t)
  {
    ProcessAccounts(eng, w, id, f, t);
    forall n | 0 <= n < t.next ensures Accounted(t, n) {
      assert Accounted(w, n);
    }
  }

  lemma ReadKeeps(w: World, t: World)
    requires DeliveryInv(w) && t == ReadNext(w)
    ensures DeliveryInv(t)
  {
    forall n | 0 <= n < t.next ensures Accounted(t, n) {
      assert n < w.next ==> Accounted(w, n);
    }
  }

  lemma StepKeepsDelivery(eng: Engine, w: World, a: Action, t: World)
    requires DeliveryInv(w) && t == Step(eng, w, a)
    ensures DeliveryInv(t)
  {
    match a
    case Publish(m) =>
      forall n | 0 <= n < t.next ensures Accounted(t, n) {
        assert Accounted(w, n);
      }
    case Read => ReadKeeps(w, t);
    case Claim(id) =>
      forall n | 0 <= n < t.next ensures Accounted(t, n) {
        assert Accounted(w, n);
      }
    case Process(id, f) =>
      if id < w.next {
        ProcessKeeps(eng, w, id, f, t);
      }
  }

  // ---------------------------------------------------------------------------
  // What handling an entry means
  // ---------------------------------------------------------------------------

  /** Nothing is left to do for the event: it is not to be rated, or it is in the ledger. */
  ghost predicate Settled(db: Db, evt: Event) {
    Verdict(db, evt) == Skipped || Verdict(db, evt) == Duplicate
  }

  lemma SettledStays(eng: Engine, db: Db, evt: Event, other: Event)
    requires Settled(db, evt)
    ensures Settled(After(eng, db, other), evt)
  {
    if Verdict(db, evt) == Duplicate && DistinctPlayers(evt) && Verdict(db, other) == Committed {
      var i :| 0 <= i < |evt.players| && Recorded(db.history, evt.session.value, PlayerId(evt, i));
      CommitRecords(eng, db, other, evt.session.value, PlayerId(evt, i));
    }
  }

  lemma CommittedIsSettled(eng: Engine, db: Db, evt: Event)
    requires Verdict(db, evt) == Committed
    ensures Settled(After(eng, db, evt), evt)
  {
    CommitRecords(eng, db, evt, evt.session.value, PlayerId(evt, 0));
    assert PlayerId(evt, 0) in PlayerIds(evt);
  }

  ghost predicate HandledOk(w: World, id: nat) {
    id < |w.stream| && w.stream[id].Finished? && Settled(w.db, w.stream[id].evt)
  }

  ghost predicate HandledInv(w: World) {
    forall id :: id in w.handled ==> HandledOk(w, id)
  }

  lemma HandledStays(eng: Engine, w: World, id: nat, f: Fault, t: World, n: nat)
    requires id < |w.stream| && t == ProcessMessage(eng, w, id, f) && HandledOk(w, n)
    ensures HandledOk(t, n)
  {
    HandleOrNot(eng, w, id, f, t);
    if t.db != w.db {
      SettledStays(eng, w.db, w.stream[n].evt, w.stream[id].evt);
    }
  }

  /** An entry becomes handled only if the handler accepted its event. */
  lemma HandledByAcceptance(eng: Engine, w: World, id: nat, f: Fault, t: World)
    requires id < |w.stream| && t == ProcessMessage(eng, w, id, f)
    ensures t.handled == w.handled || (t.handled == w.handled + {id} && Accepts(w, id, f) && t.db == Handle(eng, w, id, f).db)
  {
  }

  lemma AcceptedIsSettled(eng: Engine, w: World, id: nat, f: Fault)
    requires id < |w.stream| && Accepts(w, id, f)
    ensures Settled(Handle(eng, w, id, f).db, w.stream[id].evt)
  {
    if Verdict(w.db, w.stream[id].evt) == Committed {
      CommittedIsSettled(eng, w.db, w.stream[id].evt);
    }
  }

  lemma StepKeepsHandled(eng: Engine, w: World, a: Action, t: World)
    requires HandledInv(w) && t == Step(eng, w, a)
    ensures HandledInv(t)
  {
    match a
    case Process(id, f) =>
      if id < w.next && id < |w.stream| {
        HandledByAcceptance(eng, w, id, f, t);
        HandleOrNot(eng, w, id, f, t);
        forall n | n in t.handled ensures HandledOk(t, n) {
          if n in w.handled {
            HandledStays(eng, w, id, f, t, n);
          } else {
            AcceptedIsSettled(eng, w, id, f);
          }
        }
      }
    case _ =>
      forall n | n in t.handled ensures HandledOk(t, n) {
        assert HandledOk(w, n);
      }
  }

  // ---------------------------------------------------------------------------
  // Any schedule
  // ---------------------------------------------------------------------------

  lemma {:induction false} RunDelivers(eng: Engine, actions: seq<Action>)
    ensures DeliveryInv(Run(eng, actions)) && HandledInv(Run(eng, actions))
  {
    if actions != [] {
      var front, last := actions[..|actions| - 1], actions[|actions| - 1];
      RunDelivers(eng, front);
      StepKeepsDelivery(eng, Run(eng, front), last, Run(eng, actions));
      StepKeepsHandled(eng, Run(eng, front), last, Run(eng, actions));
    }
  }

  /** A published entry is not yet delivered, still pending, malformed, in the dead-letter
      stream after at least five deliveries, or handled with nothing left to do. */
  lemma NothingIsLost(eng: Engine, actions: seq<Action>, id: nat)
    requires id < |Run(eng, actions).stream|
    ensures var w := Run(eng, actions);
            || id >= w.next
            || id in w.pending
            || w.stream[id].NoPayload?
            || (id in w.dlq && id in w.deliveries && w.deliveries[id] >= 5)
            || (w.stream[id].Finished? && Settled(w.db, w.stream[id].evt))
  {
    RunDelivers(eng, actions);
    var w := Run(eng, actions);
    if id < w.next {
      assert Accounted(w, id);
    }
  }

  /** A ranked event of distinct players that left the pending list without going to the
      dead-letter stream is in the ledger: some committed entry rates one of its players for
      its session. */
  lemma HandledIsRated(eng: Engine, actions: seq<Action>, id: nat) returns (j: nat)
    requires var w := Run(eng, actions);
             && id < w.next && id < |w.stream| && id !in w.pending && id !in w.dlq && w.stream[id].Finished?
             && Rateable(w.stream[id].evt) && DistinctPlayers(w.stream[id].evt)
    ensures var w := Run(eng, actions);
            && j < |w.commits| && w.commits[j] < |w.stream| && w.stream[w.commits[j]].Finished?
            && exists p :: p in PlayerIds(w.stream[id].evt)
                 && Involves(w.stream[w.commits[j]].evt, w.stream[id].evt.session.value, p)
  {
    var w := Run(eng, actions);
    var evt, evts := w.stream[id].evt, Events(w.stream, w.commits);
    NothingIsLost(eng, actions, id);
    StoreIsReplay(eng, actions);
    var i :| 0 <= i < |evt.players| && Recorded(w.db.history, evt.session.value, PlayerId(evt, i));
    var p := PlayerId(evt, i);
    RecordedIffCommitted(eng, evts, evt.session.value, p);
    j := OneInvolves(evts, evt.session.value, p);
    EventsLength(w.stream, w.commits);
    EventsAt(w.stream, w.commits, j);
    assert p in PlayerIds(evt);
  }

  // ---------------------------------------------------------------------------
  // Every player once
  // ---------------------------------------------------------------------------

  /** The history never holds two rows of one player for one session. */
  ghost predicate UniqueKeys(history: seq<Row>) {
    forall i, j :: 0 <= i < j < |history| ==> history[i].session != history[j].session || history[i].player != history[j].player
  }

  lemma CommitKeepsKeys(eng: Engine, db: Db, evt: Event)
    requires UniqueKeys(db.history) && Rateable(evt) && Insertable(db, evt)
    ensures UniqueKeys(Commit(eng, db, evt).history)
  {
    var n, rows := |db.history|, NewRows(db, evt, Rated(eng, db, evt), |evt.players|);
    var all := db.history + rows;
    forall i, j | 0 <= i < j < |all| ensures all[i].session != all[j].session || all[i].player != all[j].player {
      if n <= i {
        assert PlayerId(evt, i - n) != PlayerId(evt, j - n);
      } else if n <= j {
        assert !Recorded(db.history, evt.session.value, PlayerId(evt, j - n));
      }
    }
  }

  lemma {:induction false} KeysStayUnique(eng: Engine, evts: seq<Event>)
    requires AllCommit(eng, evts)
    ensures UniqueKeys(Replay(eng, evts).history)
  {
    if evts != [] {
      KeysStayUnique(eng, evts[..|evts| - 1]);
      CommitKeepsKeys(eng, Replay(eng, evts[..|evts| - 1]), evts[|evts| - 1]);
    }
  }

  /** Committed entries of the session of `id` carry the players of `id`. */
  ghost predicate SamePlayersPerSession(w: World, id: nat) {
    && id < |w.stream| && w.stream[id].Finished? && Rateable(w.stream[id].evt)
    && forall j :: 0 <= j < |w.commits| ==> AgreesWith(w, w.commits[j], w.stream[id].evt)
  }

  ghost predicate AgreesWith(w: World, other: nat, evt: Event)
    requires Rateable(evt)
  {
    (other < |w.stream| && w.stream[other].Finished? && Rateable(w.stream[other].evt)
     && w.stream[other].evt.session == evt.session) ==> PlayerIds(w.stream[other].evt) == PlayerIds(evt)
  }

  /** If a session is always published with the same players, a handled event of distinct
      players has exactly one history row for each of them. */
  lemma HandledIsRatedOnce(eng: Engine, actions: seq<Action>, id: nat, p: nat) returns (k: nat)
    requires var w := Run(eng, actions);
             && id < w.next && id !in w.pending && id !in w.dlq && SamePlayersPerSession(w, id)
             && DistinctPlayers(w.stream[id].evt) && p in PlayerIds(w.stream[id].evt)
    ensures var h, session := Run(eng, actions).db.history, Run(eng, actions).stream[id].evt.session.value;
            && k < |h| && h[k].session == session && h[k].player == p
            && forall i :: 0 <= i < |h| && h[i].session == session && h[i].player == p ==> i == k
  {
    var w := Run(eng, actions);
    var evt, evts := w.stream[id].evt, Events(w.stream, w.commits);
    var j := HandledIsRated(eng, actions, id);
    assert AgreesWith(w, w.commits[j], evt);
    StoreIsReplay(eng, actions);
    EventsLength(w.stream, w.commits);
    EventsAt(w.stream, w.commits, j);
    InvolvedIsSome(evts, j, evt.session.value, p);
    RecordedIffCommitted(eng, evts, evt.session.value, p);
    KeysStayUnique(eng, evts);
    k :| 0 <= k < |w.db.history| && w.db.history[k].session == evt.session.value && w.db.history[k].player == p;
  }

  // ---------------------------------------------------------------------------
  // Which events commit
  // ---------------------------------------------------------------------------

  const NO_FAULT: Fault := Fault(false, false, false, false, false, false, false, false, false)

  /** A fault-free processing of a well-formed event commits exactly if its players are distinct
      and no committed event of its session involves any of them. */
  lemma CommitsIff(eng: Engine, actions: seq<Action>, id: nat)
    requires var w := Run(eng, actions);
             id < w.next && id < |w.stream| && w.stream[id].Finished? && Rateable(w.stream[id].evt)
    ensures var w := Run(eng, actions);
            var evt := w.stream[id].evt;
            Step(eng, w, Action.Process(id, NO_FAULT)).commits == w.commits + [id] <==>
              && DistinctPlayers(evt)
              && forall i :: 0 <= i < |evt.players| ==>
                   !SomeInvolves(Events(w.stream, w.commits), evt.session.value, PlayerId(evt, i))
  {
    var w := Run(eng, actions);
    var evt := w.stream[id].evt;
    StoreIsReplay(eng, actions);
    CommitsIfNow(eng, w, id);
    forall i | 0 <= i < |evt.players|
      ensures Recorded(w.db.history, evt.session.value, PlayerId(evt, i))
         <==> SomeInvolves(Events(w.stream, w.commits), evt.session.value, PlayerId(evt, i))
    {
      RecordedIffCommitted(eng, Events(w.stream, w.commits), evt.session.value, PlayerId(evt, i));
    }
  }

  lemma CommitsIfNow(eng: Engine, w: World, id: nat)
    requires id < w.next && id < |w.stream| && w.stream[id].Finished?
    ensures Step(eng, w, Action.Process(id, NO_FAULT)).commits == w.commits + [id]
           <==> Verdict(w.db, w.stream[id].evt) == Committed
  {
    var t := Step(eng, w, Action.Process(id, NO_FAULT));
    assert t.commits == if CommitsNow(w, id, NO_FAULT) then w.commits + [id] else w.commits;
    assert |w.commits + [id]| == |w.commits| + 1;
  }

  ghost predicate RepeatsPlayer(m: Message) {
    m.Finished? && Rateable(m.evt) && !DistinctPlayers(m.evt)
  }

  /** An event that lists a player twice never commits, in any schedule. */
  lemma RepeatedPlayerNeverCommits(eng: Engine, actions: seq<Action>, j: nat)
    requires j < |Run(eng, actions).commits|
    ensures Run(eng, actions).commits[j] < |Run(eng, actions).stream|
    ensures !RepeatsPlayer(Run(eng, actions).stream[Run(eng, actions).commits[j]])
  {
    var w := Run(eng, actions);
    StoreIsReplay(eng, actions);
    EventsLength(w.stream, w.commits);
    EventsAt(w.stream, w.commits, j);
    CommittedIsRateable(eng, Events(w.stream, w.commits), j);
  }

  /** And yet a fault-free processing handles and acknowledges it, leaving the store alone. */
  lemma RepeatedPlayerIsAcknowledged(eng: Engine, w: World, id: nat, t: World)
    requires id < w.next && id < |w.stream| && RepeatsPlayer(w.stream[id]) && t == Step(eng, w, Action.Process(id, NO_FAULT))
    ensures id in t.handled && id !in t.pending && t.db == w.db && t.commits == w.commits && t.dlq == w.dlq
  {
  }

  /** A session in which player 1 is listed as winner and as loser. */
  const TWICE: Event := Event(Id(1), Id(1), 0, true, [SessionPlayer(Id(1), Win), SessionPlayer(Id(1), Loss)])

  const DELIVERED_ONCE: seq<Action> := [Publish(Finished(TWICE)), Read, Action.Process(0, NO_FAULT)]

  /** Published, delivered and processed once, it is acknowledged without any rating. */
  lemma TwiceListedIsDropped(eng: Engine)
    ensures var w := Run(eng, DELIVERED_ONCE);
            0 in w.handled && 0 !in w.pending && w.db == FRESH && w.commits == [] && w.dlq == []
  {
    var all := DELIVERED_ONCE;
    assert all[..2] == [Publish(Finished(TWICE)), Read]
           && all[..2][..1] == [Publish(Finished(TWICE))] && all[..2][..1][..0] == [];
    assert Run(eng, all[..2][..1]) == START.(stream := [Finished(TWICE)]);
    var w := Run(eng, all[..2]);
    assert w.stream == [Finished(TWICE)] && w.next == 1;
    assert PlayerId(TWICE, 0) == PlayerId(TWICE, 1);
    RepeatedPlayerIsAcknowledged(eng, w, 0, Run(eng, all));
  }
}
