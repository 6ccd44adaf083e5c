/** At-least-once delivery becomes exactly-once rating: what holds after any schedule of
    deliveries, redeliveries, reclaims and faults. */
module StreamWorkerLaws {
  import opened RatingLedger
  import opened RatingLedgerLaws
  import opened StreamWorker

  // ---------------------------------------------------------------------------
  // The ratings are those of the committed events alone
  // ---------------------------------------------------------------------------

  /** The store after the given events, each processed once and without faults. */
  ghost function Replay(eng: Engine, evts: seq<Event>): Db {
    if evts == [] then FRESH else After(eng, Replay(eng, evts[..|evts| - 1]), evts[|evts| - 1])
  }

  /** The events of the committed entries, in order of commit. */
  ghost function Events(stream: seq<Message>, ids: seq<nat>): seq<Event> {
    if ids == [] then []
    else
      var last := ids[|ids| - 1];
      Events(stream, ids[..|ids| - 1]) +
      [if last < |stream| && stream[last].Finished? then stream[last].evt else Event(Bad, Bad, 0, false, [])]
  }

  lemma {:induction false} EventsStay(stream: seq<Message>, m: Message, ids: seq<nat>)
    requires forall i :: 0 <= i < |ids| ==> ids[i] < |stream|
    ensures Events(stream + [m], ids) == Events(stream, ids)
  {
    if ids != [] {
      EventsStay(stream, m, ids[..|ids| - 1]);
    }
  }

  /** Every event of the sequence commits when its turn comes. */
  ghost predicate AllCommit(eng: Engine, evts: seq<Event>) {
    evts == [] || (AllCommit(eng, evts[..|evts| - 1]) && Verdict(Replay(eng, evts[..|evts| - 1]), evts[|evts| - 1]) == Committed)
  }

  ghost predicate ReplayInv(eng: Engine, w: World) {
    && (forall i :: 0 <= i < |w.commits| ==> w.commits[i] < |w.stream|)
    && w.db == Replay(eng, Events(w.stream, w.commits))
    && AllCommit(eng, Events(w.stream, w.commits))
  }

  lemma ReplayOneMore(eng: Engine, evts: seq<Event>, evt: Event)
    ensures Replay(eng, evts + [evt]) == After(eng, Replay(eng, evts), evt)
    ensures AllCommit(eng, evts + [evt]) <==> AllCommit(eng, evts) && Verdict(Replay(eng, evts), evt) == Committed
  {
    assert (evts + [evt])[..|evts|] == evts;
  }

  /** Steps other than a commit leave store and commits alone. */
  lemma HandleOrNot(eng: Engine, w: World, id: nat, f: Fault, t: World)
    requires id < |w.stream| && t == ProcessMessage(eng, w, id, f)
    ensures t.stream == w.stream && t.next == w.next && t.deliveries == w.deliveries
    ensures (t.db == w.db && t.commits == w.commits)
         || (CommitsNow(w, id, f) && t.db == After(eng, w.db, w.stream[id].evt) && t.commits == w.commits + [id])
  {
  }

  /** One more commit is one more event of the replay. */
  lemma CommitKeepsReplay(eng: Engine, w: World, id: nat, evt: Event, t: World)
    requires ReplayInv(eng, w) && id < |w.stream| && w.stream[id] == Finished(evt) && Verdict(w.db, evt) == Committed
    requires t.stream == w.stream && t.db == After(eng, w.db, evt) && t.commits == w.commits + [id]
    ensures ReplayInv(eng, t)
  {
    assert t.commits[..|t.commits| - 1] == w.commits;
    ReplayOneMore(eng, Events(w.stream, w.commits), evt);
  }

  lemma StepKeepsReplay(eng: Engine, w: World, a: Action, t: World)
    requires ReplayInv(eng, w) && t == Step(eng, w, a)
    ensures ReplayInv(eng, t)
  {
    match a
    case Publish(m) => EventsStay(w.stream, m, w.commits);
    case Process(id, f) =>
      if id < w.next && id < |w.stream| {
        HandleOrNot(eng, w, id, f, t);
        if t.commits != w.commits {
          CommitKeepsReplay(eng, w, id, w.stream[id].evt, t);
        }
      }
    case _ =>
  }

  /** After any schedule the store is the fold of the engine over the committed events, each
      once and in order of first commit. */
  lemma {:induction false} StoreIsReplay(eng: Engine, actions: seq<Action>)
    ensures ReplayInv(eng, Run(eng, actions))
  {
    if actions != [] {
      var front := actions[..|actions| - 1];
      StoreIsReplay(eng, front);
      StepKeepsReplay(eng, Run(eng, front), actions[|actions| - 1], Run(eng, actions));
    }
  }

  // ---------------------------------------------------------------------------
  // Exactly once
  // ---------------------------------------------------------------------------

  ghost predicate Involves(evt: Event, session: nat, player: nat) {
    Rateable(evt) && evt.session.value == session && player in PlayerIds(evt)
  }

  ghost predicate SomeInvolves(evts: seq<Event>, session: nat, player: nat) {
    evts != [] && (SomeInvolves(evts[..|evts| - 1], session, player) || Involves(evts[|evts| - 1], session, player))
  }

  lemma {:induction false} OneInvolves(evts: seq<Event>, session: nat, player: nat) returns (i: nat)
    requires SomeInvolves(evts, session, player)
    ensures i < |evts| && Involves(evts[i], session, player)
  {
    i := |evts| - 1;
    if !Involves(evts[i], session, player) {
      i := OneInvolves(evts[..i], session, player);
    }
  }

  lemma {:induction false} InvolvedIsSome(evts: seq<Event>, i: nat, session: nat, player: nat)
    requires i < |evts| && Involves(evts[i], session, player)
    ensures SomeInvolves(evts, session, player)
  {
    if i < |evts| - 1 {
      InvolvedIsSome(evts[..|evts| - 1], i, session, player);
    }
  }

  /** What the history records is exactly what the committed events involve. */
  lemma {:induction false} RecordedIffCommitted(eng: Engine, evts: seq<Event>, session: nat, player: nat)
    requires AllCommit(eng, evts)
    ensures Recorded(Replay(eng, evts).history, session, player) <==> SomeInvolves(evts, session, player)
  {
    if evts != [] {
      var n := |evts| - 1;
      RecordedIffCommitted(eng, evts[..n], session, player);
      CommitRecords(eng, Replay(eng, evts[..n]), evts[n], session, player);
    }
  }

  lemma CommittedIsNew(eng: Engine, db: Db, evt: Event, session: nat, player: nat)
    requires Verdict(db, evt) == Committed && Recorded(db.history, session, player)
    ensures !Involves(evt, session, player)
  {
  }

  /** What an earlier event involves, the next one does not. */
  lemma LastIsNew(eng: Engine, front: seq<Event>, i: nat, last: Event, session: nat, player: nat)
    requires AllCommit(eng, front) && Verdict(Replay(eng, front), last) == Committed
    requires i < |front| && Involves(front[i], session, player)
    ensures !Involves(last, session, player)
  {
    InvolvedIsSome(front, i, session, player);
    RecordedIffCommitted(eng, front, session, player);
    CommittedIsNew(eng, Replay(eng, front), last, session, player);
  }

  /** No player of a session is rated twice for it. */
  lemma {:induction false} SessionsAreApart(eng: Engine, evts: seq<Event>, i: nat, j: nat, session: nat, player: nat)
    requires AllCommit(eng, evts) && i < j < |evts|
    requires Involves(evts[i], session, player)
    ensures !Involves(evts[j], session, player)
  {
    var n := |evts| - 1;
    if j < n {
      SessionsAreApart(eng, evts[..n], i, j, session, player);
    } else {
      LastIsNew(eng, evts[..n], i, evts[n], session, player);
    }
  }

  lemma {:induction false} EventsAt(stream: seq<Message>, ids: seq<nat>, i: nat)
    requires i < |ids| && ids[i] < |stream|
    ensures |Events(stream, ids)| == |ids|
    ensures stream[ids[i]].Finished? ==> Events(stream, ids)[i] == stream[ids[i]].evt
    ensures !stream[ids[i]].Finished? ==> Events(stream, ids)[i] == Event(Bad, Bad, 0, false, [])
  {
    EventsLength(stream, ids);
    if i < |ids| - 1 {
      EventsAt(stream, ids[..|ids| - 1], i);
      EventsLength(stream, ids[..|ids| - 1]);
    } else {
      EventsLength(stream, ids[..|ids| - 1]);
    }
  }

  lemma {:induction false} EventsLength(stream: seq<Message>, ids: seq<nat>)
    ensures |Events(stream, ids)| == |ids|
  {
    if ids != [] {
      EventsLength(stream, ids[..|ids| - 1]);
    }
  }

  lemma {:induction false} CommittedIsRateable(eng: Engine, evts: seq<Event>, i: nat)
    requires AllCommit(eng, evts) && i < |evts|
    ensures Rateable(evts[i]) && DistinctPlayers(evts[i])
  {
    if i < |evts| - 1 {
      CommittedIsRateable(eng, evts[..|evts| - 1], i);
    }
  }

  /** However often it is delivered and processed, an entry commits at most once, and two
      committed entries of one session have no player in common. */
  lemma CommitsOnce(eng: Engine, actions: seq<Action>, i: nat, j: nat)
    requires i < j < |Run(eng, actions).commits|
    ensures var w := Run(eng, actions);
            var a, b := w.commits[i], w.commits[j];
            && a < |w.stream| && b < |w.stream| && w.stream[a].Finished? && w.stream[b].Finished?
            && Rateable(w.stream[a].evt) && Rateable(w.stream[b].evt) && a != b
            && (w.stream[a].evt.session == w.stream[b].evt.session ==> PlayerIds(w.stream[a].evt) !! PlayerIds(w.stream[b].evt))
  {
    var w := Run(eng, actions);
    var evts := Events(w.stream, w.commits);
    StoreIsReplay(eng, actions);
    EventsAt(w.stream, w.commits, i);
    EventsAt(w.stream, w.commits, j);
    CommittedIsRateable(eng, evts, i);
    CommittedIsRateable(eng, evts, j);
    NoneInCommon(eng, evts, i, j);
    assert PlayerId(evts[i], 0) in PlayerIds(evts[i]);
  }

  lemma NoneInCommon(eng: Engine, evts: seq<Event>, i: nat, j: nat)
    requires AllCommit(eng, evts) && i < j < |evts| && Rateable(evts[i]) && Rateable(evts[j])
    ensures evts[i].session == evts[j].session ==> PlayerIds(evts[i]) !! PlayerIds(evts[j])
  {
    if evts[i].session == evts[j].session {
      forall p | p in PlayerIds(evts[i]) ensures p !in PlayerIds(evts[j]) {
        SessionsAreApart(eng, evts, i, j, evts[i].session.value, p);
      }
    }
  }

  /** After any schedule every player's rating in every game is 1500 plus the deltas of that
      player's history rows, each row starting where the previous one ended. */
  lemma RatingsAddUp(eng: Engine, actions: seq<Action>, p: nat, g: nat)
    ensures var db := Run(eng, actions).db;
            && Chained(RowsOf(db.history, p, g), 1500.0, Rating(db, p, g).mmr)
            && Rating(db, p, g).mmr == 1500.0 + SumOfDeltas(RowsOf(db.history, p, g))
  {
    StoreIsReplay(eng, actions);
    var w := Run(eng, actions);
    ReplayChains(eng, Events(w.stream, w.commits), p, g);
    ChainAddsUp(RowsOf(w.db.history, p, g), 1500.0, Rating(w.db, p, g).mmr);
  }

  lemma {:induction false} ReplayChains(eng: Engine, evts: seq<Event>, p: nat, g: nat)
    ensures ChainInv(Replay(eng, evts), p, g)
  {
    if evts != [] {
      ReplayChains(eng, evts[..|evts| - 1], p, g);
      AfterKeepsChain(eng, Replay(eng, evts[..|evts| - 1]), evts[|evts| - 1], p, g);
    }
  }
}
