/** One matchmaking tick: the queue is copied into a matchmaker, and each match it forms is
    proposed. */
module QueueTick {
  import opened SnakeDraft
  import opened GreedyScan
  import opened Matchmaker
  import opened MatchmakerLaws
  import opened MatchmakerPool
  import opened RankedQueue
  import opened RankedQueueService

  ghost predicate DistinctIds(q: seq<Entry>) {
    forall i, j :: 0 <= i < j < |q| ==> q[i].id != q[j].id
  }

  lemma {:induction false} OccursIffCounted(q: seq<Entry>, x: Entry)
    ensures x in q <==> Times(q, x) > 0
  {
    if q != [] {
      OccursIffCounted(q[..|q| - 1], x);
      assert q == q[..|q| - 1] + [q[|q| - 1]];
    }
  }

  lemma {:induction false} DistinctOccurOnce(q: seq<Entry>, x: Entry)
    requires DistinctIds(q)
    ensures Times(q, x) <= 1
  {
    if q != [] {
      var n := |q| - 1;
      DistinctOccurOnce(q[..n], x);
      OccursIffCounted(q[..n], x);
    }
  }

  lemma {:induction false} TwiceCountsTwo(q: seq<Entry>, i: nat, j: nat)
    requires i < j < |q| && q[i] == q[j]
    ensures Times(q, q[i]) >= 2
  {
    var n := |q| - 1;
    if j < n {
      TwiceCountsTwo(q[..n], i, j);
    } else {
      assert q[..n][i] == q[i];
      OccursIffCounted(q[..n], q[i]);
    }
  }

  /** Rearranging entries with distinct ids keeps the ids distinct. */
  lemma RearrangedIsDistinct(p: seq<Entry>, q: seq<Entry>)
    requires DistinctIds(p) && SameEntries(q, p)
    ensures DistinctIds(q)
  {
    forall i, j | 0 <= i < j < |q| ensures q[i].id != q[j].id {
      OccursIffCounted(q, q[i]);
      OccursIffCounted(p, q[i]);
      OccursIffCounted(q, q[j]);
      OccursIffCounted(p, q[j]);
      if q[i] == q[j] {
        TwiceCountsTwo(q, i, j);
        DistinctOccurOnce(p, q[i]);
      } else {
        var a :| 0 <= a < |p| && p[a] == q[i];
        var b :| 0 <= b < |p| && p[b] == q[j];
        assert a != b;
        assert if a < b then p[a].id != p[b].id else p[b].id != p[a].id;
      }
    }
  }

  // ---------------------------------------------------------------------------
  // Proposing window after window
  // ---------------------------------------------------------------------------

  lemma {:induction false} SpacedApart(starts: seq<nat>, w: nat, s: nat, i: nat, j: nat)
    requires Spaced(starts, w, s) && i < j < |starts|
    ensures starts[i] + w <= starts[j]
  {
    assert starts[j - 1] + w <= starts[j - 1 + 1];
    if i < j - 1 {
      SpacedApart(starts, w, s, i, j - 1);
    }
  }

  lemma CoveredSnoc(starts: seq<nat>, i: nat, w: nat, k: nat)
    requires i < |starts|
    ensures Covered(starts[..i + 1], w, k) <==> Covered(starts[..i], w, k) || starts[i] <= k < starts[i] + w
  {
    var before, after := starts[..i], starts[..i + 1];
    if Covered(before, w, k) {
      var n :| 0 <= n < |before| && before[n] <= k < before[n] + w;
      assert after[n] == before[n];
    }
    if Covered(after, w, k) {
      var n :| 0 <= n < |after| && after[n] <= k < after[n] + w;
      assert n < i ==> before[n] == after[n];
    }
    if starts[i] <= k < starts[i] + w {
      assert after[i] == starts[i];
    }
  }

  /** Exactly the players of the first `i` windows have left the queue. */
  ghost predicate Left(queue: set<nat>, q: seq<Entry>, starts: seq<nat>, i: nat)
    requires i <= |starts|
  {
    forall k :: 0 <= k < |q| ==> (q[k].id in queue <==> !Covered(starts[..i], 2, k))
  }

  /** The first `i` windows have become matches, and no other match has changed. */
  ghost predicate Became(before: Store, db: Store, q: seq<Entry>, starts: seq<nat>, ids: seq<nat>, i: nat)
    requires i <= |starts| <= |ids|
  {
    && (forall j :: 0 <= j < i ==> IsProposal(db, q, starts[j], ids[j], before.now))
    && (forall j :: i <= j < |ids| ==> ids[j] !in db.tickets)
    && (forall m :: m in before.tickets ==> m in db.tickets && db.tickets[m] == before.tickets[m])
  }

  /** The calls that propose the first `i` windows. */
  ghost function Proposals(q: seq<Entry>, starts: seq<nat>, ids: seq<nat>, i: nat): seq<Op>
    requires i <= |starts| <= |ids| && AllFit(q, starts)
  {
    if i == 0 then []
    else Proposals(q, starts, ids, i - 1) + [Propose(ids[i - 1], q[starts[i - 1]].id, q[starts[i - 1] + 1].id)]
  }

  /** Every window lies inside the queue and names players. */
  ghost predicate AllFit(q: seq<Entry>, starts: seq<nat>) {
    && (forall i :: 0 <= i < |starts| ==> starts[i] + 2 <= |q|)
    && forall k :: 0 <= k < |q| ==> q[k].id > 0
  }

  /** The store after the given calls. */
  ghost function Steps(s: Store, ops: seq<Op>): Store {
    if ops == [] then s else Step(Steps(s, ops[..|ops| - 1]), ops[|ops| - 1])
  }

  /** Calls carried on from a reachable store are themselves a run, so the laws of runs hold. */
  lemma {:induction false} StepsContinueRun(before: seq<Op>, more: seq<Op>)
    ensures Steps(Run(before), more) == Run(before + more)
  {
    if more == [] {
      assert before + more == before;
    } else {
      var n := |more| - 1;
      StepsContinueRun(before, more[..n]);
      assert (before + more)[..|before + more| - 1] == before + more[..n];
    }
  }

  /** The ids of the players in the first `i` windows. */
  ghost function Gone(q: seq<Entry>, starts: seq<nat>, i: nat): set<nat>
    requires i <= |starts| && AllFit(q, starts)
  {
    if i == 0 then {} else Gone(q, starts, i - 1) + {q[starts[i - 1]].id, q[starts[i - 1] + 1].id}
  }

  /** Who is still queued and which matches exist after the first `i` windows: exactly the players
      of those windows have left, exactly the given ids are new, and all this is the effect of
      the proposal calls. */
  ghost predicate Proposed(before: Store, db: Store, q: seq<Entry>, starts: seq<nat>, ids: seq<nat>, i: nat)
    requires i <= |starts| <= |ids| && AllFit(q, starts)
  {
    && db.queue == before.queue - Gone(q, starts, i)
    && db.tickets.Keys == before.tickets.Keys + (set j | 0 <= j < i :: ids[j])
    && db == Steps(before, Proposals(q, starts, ids, i))
    && db.now == before.now
    && Left(db.queue, q, starts, i) && Became(before, db, q, starts, ids, i)
  }

  lemma OneMoreProposal(before: Store, db: Store, t: Store, q: seq<Entry>, starts: seq<nat>, ids: seq<nat>, i: nat)
    requires i < |starts| <= |ids| && AllFit(q, starts)
    requires db == Steps(before, Proposals(q, starts, ids, i)) && CanPropose(db, ids[i], q[starts[i]].id, q[starts[i] + 1].id)
    requires t == Step(db, Propose(ids[i], q[starts[i]].id, q[starts[i] + 1].id))
    ensures t == Steps(before, Proposals(q, starts, ids, i + 1))
  {
    var ops := Proposals(q, starts, ids, i + 1);
    assert ops[..|ops| - 1] == Proposals(q, starts, ids, i);
  }

  lemma NextKeys(before: Store, db: Store, t: Store, ids: seq<nat>, i: nat)
    requires i < |ids| && db.tickets.Keys == before.tickets.Keys + (set j | 0 <= j < i :: ids[j])
    requires t.tickets.Keys == db.tickets.Keys + {ids[i]}
    ensures t.tickets.Keys == before.tickets.Keys + (set j | 0 <= j < i + 1 :: ids[j])
  {
    assert (set j | 0 <= j < i + 1 :: ids[j]) == (set j | 0 <= j < i :: ids[j]) + {ids[i]};
  }

  /** Match `m` is the untouched proposal of the two players at `s`. */
  ghost predicate IsProposal(db: Store, q: seq<Entry>, s: nat, m: nat, now: nat) {
    && s + 1 < |q| && q[s].id > 0 && q[s + 1].id > 0
    && m in db.tickets && db.tickets[m] == NewTicket(q[s].id, q[s + 1].id, now)
  }

  /** What a tick needs of its snapshot: distinct players, and enough fresh match ids. */
  ghost predicate Snapshot(db: Store, q: seq<Entry>, ids: seq<nat>) {
    && DistinctIds(q) && |q| <= |ids|
    && (forall k :: 0 <= k < |q| ==> q[k].id > 0 && q[k].id in db.queue)
    && (forall i, j :: 0 <= i < j < |ids| ==> ids[i] != ids[j])
    && forall i :: 0 <= i < |ids| ==> ids[i] !in db.tickets
  }

  /** The window at `starts[i]` is still queued when its turn comes. */
  lemma WindowIsQueued(starts: seq<nat>, i: nat, k: nat)
    requires Spaced(starts, 2, 0) && i < |starts| && starts[i] <= k
    ensures !Covered(starts[..i], 2, k)
  {
    if Covered(starts[..i], 2, k) {
      var n :| 0 <= n < i && starts[..i][n] <= k < starts[..i][n] + 2;
      SpacedApart(starts, 2, 0, n, i);
    }
  }

  lemma OnlyTheWindowLeaves(q: seq<Entry>, s: nat, k: nat)
    requires DistinctIds(q) && s + 1 < |q| && k < |q|
    ensures q[k].id in {q[s].id, q[s + 1].id} <==> s <= k < s + 2
  {
    if k < s || k > s + 1 {
      assert if k < s then q[k].id != q[s].id && q[k].id != q[s + 1].id else q[s].id != q[k].id && q[s + 1].id != q[k].id;
    }
  }

  lemma NextLeft(queue: set<nat>, q: seq<Entry>, starts: seq<nat>, i: nat, after: set<nat>)
    requires i < |starts| && DistinctIds(q) && starts[i] + 2 <= |q| && Left(queue, q, starts, i)
    requires after == queue - {q[starts[i]].id, q[starts[i] + 1].id}
    ensures Left(after, q, starts, i + 1)
  {
    forall k | 0 <= k < |q| ensures q[k].id in after <==> !Covered(starts[..i + 1], 2, k) {
      CoveredSnoc(starts, i, 2, k);
      OnlyTheWindowLeaves(q, starts[i], k);
    }
  }

  lemma NextBecame(before: Store, db: Store, t: Store, q: seq<Entry>, starts: seq<nat>, ids: seq<nat>, i: nat)
    requires i < |starts| <= |ids| && Snapshot(before, q, ids) && Became(before, db, q, starts, ids, i)
    requires starts[i] + 2 <= |q| && db.now == before.now
    requires t.tickets == db.tickets[ids[i] := NewTicket(q[starts[i]].id, q[starts[i] + 1].id, db.now)]
    ensures Became(before, t, q, starts, ids, i + 1)
  {
    forall j | 0 <= j < i + 1 ensures IsProposal(t, q, starts[j], ids[j], before.now) {
      assert j < i ==> IsProposal(db, q, starts[j], ids[j], before.now) && ids[j] != ids[i];
    }
  }

  lemma SnapshotRearranged(db: Store, p: seq<Entry>, q: seq<Entry>, ids: seq<nat>)
    requires Snapshot(db, p, ids) && SameEntries(q, p) && |q| <= |ids|
    ensures Snapshot(db, q, ids)
  {
    RearrangedIsDistinct(p, q);
    forall k | 0 <= k < |q| ensures q[k].id > 0 && q[k].id in db.queue {
      OccursIffCounted(q, q[k]);
      OccursIffCounted(p, q[k]);
      var a :| 0 <= a < |p| && p[a] == q[k];
    }
  }

  /** The two players of a match of one against one. */
  lemma DuelMatch(c: Setup, now: real, q: seq<Entry>, i: nat)
    requires c.playersPerTeam == 1 && c.teamsPerMatch == 2 && i < |Taken(c, now, q)|
    ensures var s := Taken(c, now, q)[i];
            s + 2 <= |q| && Matches(c, now, q)[i].teams == [[q[s]], [q[s + 1]]]
  {
    var starts := Taken(c, now, q);
    ScanIsSound(Verdicts(c, now, q), Span(c), 0);
    var s := starts[i];
    assert s + 2 <= |q|;
    DuelTeams(WindowAt(c, q, s));
  }

  lemma {:induction false} SpacedIsShort(starts: seq<nat>, w: nat, s: nat, n: nat)
    requires w > 0 && Spaced(starts, w, s) && forall i :: 0 <= i < |starts| ==> starts[i] + w <= n
    ensures s + |starts| <= n || starts == []
  {
    if |starts| > 0 {
      var rest := starts[1..];
      assert |rest| > 0 ==> starts[0] + w <= starts[0 + 1];
      SpacedIsShort(rest, w, starts[0] + w, n);
    }
  }

  /** What one more proposal makes of the account. */
  lemma NextProposed(before: Store, db: Store, t: Store, q: seq<Entry>, starts: seq<nat>, ids: seq<nat>, i: nat)
    requires i < |starts| <= |ids| && AllFit(q, starts) && Snapshot(before, q, ids) && Proposed(before, db, q, starts, ids, i)
    requires CanPropose(db, ids[i], q[starts[i]].id, q[starts[i] + 1].id)
    requires t == Step(db, Propose(ids[i], q[starts[i]].id, q[starts[i] + 1].id))
    ensures Proposed(before, t, q, starts, ids, i + 1)
  {
    ProposeEffect(db, ids[i], q[starts[i]].id, q[starts[i] + 1].id, t);
    NextLeft(db.queue, q, starts, i, t.queue);
    NextBecame(before, db, t, q, starts, ids, i);
    OneMoreProposal(before, db, t, q, starts, ids, i);
    NextKeys(before, db, t, ids, i);
  }

  lemma ProposeEffect(db: Store, m: nat, a: Player, b: Player, t: Store)
    requires CanPropose(db, m, a, b) && t == Step(db, Propose(m, a, b))
    ensures t.now == db.now && t.queue == db.queue - {a, b} && t.tickets == db.tickets[m := NewTicket(a, b, db.now)]
    ensures t.tickets.Keys == db.tickets.Keys + {m}
  {
  }

  /** The two players of window `i` can be proposed when their turn comes. */
  lemma ProposalIsDue(before: Store, db: Store, q: seq<Entry>, starts: seq<nat>, ids: seq<nat>, i: nat)
    requires i < |starts| <= |ids| && AllFit(q, starts) && Snapshot(before, q, ids) && Proposed(before, db, q, starts, ids, i)
    requires Spaced(starts, 2, 0)
    ensures CanPropose(db, ids[i], q[starts[i]].id, q[starts[i] + 1].id)
  {
    WindowIsQueued(starts, i, starts[i]);
    WindowIsQueued(starts, i, starts[i] + 1);
    assert q[starts[i]].id != q[starts[i] + 1].id;
  }

  /** The loop over the matches. */
  method ProposeAll(svc: Service, matches: seq<Match>, ids: seq<nat>, ghost q: seq<Entry>, ghost starts: seq<nat>)
    requires |matches| == |starts| <= |ids| && AllFit(q, starts) && Snapshot(svc.db, q, ids) && Spaced(starts, 2, 0)
    requires forall i :: 0 <= i < |starts| ==> matches[i].teams == [[q[starts[i]]], [q[starts[i] + 1]]]
    requires Proposed(svc.db, svc.db, q, starts, ids, 0)
    modifies svc
    ensures Proposed(old(svc.db), svc.db, q, starts, ids, |starts|)
  {
    for i := 0 to |matches|
      invariant Proposed(old(svc.db), svc.db, q, starts, ids, i)
    {
      var teams: seq<seq<Entry>> := matches[i].teams;
      var a, b := teams[0][0].id, teams[1][0].id;
      ghost var before := svc.db;
      ProposalIsDue(old(svc.db), before, q, starts, ids, i);
      svc.ProposeMatch(ids[i], a, b);
      NextProposed(old(svc.db), before, svc.db, q, starts, ids, i);
    }
  }

  /** The matchmaker rebuilt from the snapshot. */
  method FillPool(c: Setup, members: seq<Entry>) returns (pool: Pool)
    ensures fresh(pool) && pool.queue == members && pool.config == c
  {
    pool := new Pool(c);
    for i := 0 to |members|
      invariant pool.queue == members[..i]
    {
      pool.Enqueue(members[i]);
      assert members[..i + 1] == members[..i] + [members[i]];
    }
    assert members[..|members|] == members;
  }

  /** `FindAndPropose`: every match formed from the snapshot is proposed, each player at most
      once, and exactly the players that the scan did not use stay queued. */
  method FindAndPropose(svc: Service, c: Setup, members: seq<Entry>, now: real, ids: seq<nat>) returns (ghost sorted: seq<Entry>)
    requires c.playersPerTeam == 1 && c.teamsPerMatch == 2 && Snapshot(svc.db, members, ids)
    modifies svc
    ensures |members| < 2 ==> svc.db == old(svc.db)
    ensures |members| >= 2 ==>
              && Sorted(sorted) && SameEntries(sorted, members) && |Taken(c, now, sorted)| <= |ids|
              && AllFit(sorted, Taken(c, now, sorted))
              && Proposed(old(svc.db), svc.db, sorted, Taken(c, now, sorted), ids, |Taken(c, now, sorted)|)
    ensures |members| >= 2 ==> forall k :: 0 <= k < |sorted| ==> (sorted[k].id in svc.db.queue <==> !Used(c, now, sorted)[k])
  {
    sorted := [];
    if |members| < 2 {
      return;
    }
    var pool := FillPool(c, members);
    var matches;
    matches, sorted := pool.FindMatches(now);
    ghost var starts := Taken(c, now, sorted);
    TickStart(svc.db, c, now, members, sorted, ids, starts);
    forall i | 0 <= i < |starts| ensures matches[i].teams == [[sorted[starts[i]]], [sorted[starts[i] + 1]]] {
      DuelMatch(c, now, sorted, i);
    }
    ProposeAll(svc, matches, ids, sorted, starts);
    TickEnd(old(svc.db), svc.db, c, now, sorted, ids, starts);
  }

  lemma TickStart(db: Store, c: Setup, now: real, members: seq<Entry>, q: seq<Entry>, ids: seq<nat>, starts: seq<nat>)
    requires c.playersPerTeam == 1 && c.teamsPerMatch == 2 && Snapshot(db, members, ids)
    requires SameEntries(q, members) && starts == Taken(c, now, q)
    ensures Snapshot(db, q, ids) && |starts| <= |ids| && Spaced(starts, 2, 0) && AllFit(q, starts)
    ensures Proposed(db, db, q, starts, ids, 0)
  {
    SameLength(q, members);
    SnapshotRearranged(db, members, q, ids);
    ScanIsSound(Verdicts(c, now, q), Span(c), 0);
    SpacedIsShort(starts, 2, 0, |q|);
    assert starts[..0] == [];
  }

  lemma TickEnd(before: Store, db: Store, c: Setup, now: real, q: seq<Entry>, ids: seq<nat>, starts: seq<nat>)
    requires c.playersPerTeam == 1 && c.teamsPerMatch == 2 && starts == Taken(c, now, q) && |starts| <= |ids| && AllFit(q, starts)
    requires Proposed(before, db, q, starts, ids, |starts|)
    ensures forall k :: 0 <= k < |q| ==> (q[k].id in db.queue <==> !Used(c, now, q)[k])
  {
    assert starts[..|starts|] == starts;
    forall k | 0 <= k < |q| ensures q[k].id in db.queue <==> !Used(c, now, q)[k] {
      MarksAreCovered(Verdicts(c, now, q), 2, k);
    }
  }

  /** Rearranging keeps the length. */
  lemma {:induction false} SameLength(p: seq<Entry>, q: seq<Entry>)
    requires SameEntries(p, q)
    ensures |p| == |q|
  {
    forall x ensures multiset(p)[x] == multiset(q)[x] {
      TimesIsMultiset(p, x);
      TimesIsMultiset(q, x);
    }
    assert multiset(p) == multiset(q);
    assert |p| == |multiset(p)| == |multiset(q)| == |q|;
  }
}
