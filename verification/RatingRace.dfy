/** The ledger when reading the ratings and committing the result are two steps, so that
    several events can be in flight at once: when the history still chains. */
module RatingRace {
  import opened RatingEngine
  import opened RatingPlayers
  import opened RatingConservation
  import opened RatingLedger
  import opened RatingLedgerLaws

  /** An event whose ratings have been read from the store as it was. */
  datatype Flight = Flight(evt: Event, seen: Db)

  datatype World = World(db: Db, flights: seq<Flight>)

  datatype Action = Read(evt: Event) | Write(i: nat)

  /** The rows and ratings are computed from what was read and written to the store as it is. */
  function Land(eng: Engine, seen: Db, db: Db, evt: Event): Db
    requires Rateable(evt)
  {
    var e, n := Rated(eng, seen, evt), |evt.players|;
    Db(Upserts(db.ratings, evt, e, n), db.history + NewRows(seen, evt, e, n))
  }

  predicate Lands(w: World, i: nat) {
    i < |w.flights| && Rateable(w.flights[i].evt) && Insertable(w.db, w.flights[i].evt)
  }

  function Step(eng: Engine, w: World, a: Action): World {
    match a
    case Read(evt) => w.(flights := w.flights + [Flight(evt, w.db)])
    case Write(i) => if Lands(w, i) then w.(db := Land(eng, w.flights[i].seen, w.db, w.flights[i].evt)) else w
  }

  function Run(eng: Engine, actions: seq<Action>): World {
    if actions == [] then World(FRESH, []) else Step(eng, Run(eng, actions[..|actions| - 1]), actions[|actions| - 1])
  }

  // ---------------------------------------------------------------------------
  // One write
  // ---------------------------------------------------------------------------

  ghost predicate Involved(evt: Event, p: nat, g: nat) {
    Rateable(evt) && g == evt.game && p in PlayerIds(evt)
  }

  lemma LandSparesOthers(eng: Engine, seen: Db, db: Db, evt: Event, after: Db, p: nat, g: nat)
    requires Rateable(evt) && !Involved(evt, p, g) && after == Land(eng, seen, db, evt)
    ensures Rating(after, p, g) == Rating(db, p, g) && RowsOf(after.history, p, g) == RowsOf(db.history, p, g)
  {
    var e, n := Rated(eng, seen, evt), |evt.players|;
    var rows := NewRows(seen, evt, e, n);
    forall i | 0 <= i < n ensures g != evt.game || PlayerId(evt, i) != p {
      assert PlayerId(evt, i) in PlayerIds(evt);
    }
    UpsertOthers(db.ratings, evt, e, n, p, g);
    RowsOfOthers(rows, p, g);
    RowsOfConcat(db.history, rows, p, g);
  }

  /** What a write adds for one of its players: a row from the rating read to the new rating. */
  lemma LandAddsRow(eng: Engine, seen: Db, db: Db, evt: Event, after: Db, p: nat, g: nat) returns (row: Row)
    requires Involved(evt, p, g) && DistinctPlayers(evt) && after == Land(eng, seen, db, evt)
    ensures RowsOf(after.history, p, g) == RowsOf(db.history, p, g) + [row]
    ensures row.before == Rating(seen, p, g).mmr && row.after == row.before + row.delta == Rating(after, p, g).mmr
  {
    var e, n := Rated(eng, seen, evt), |evt.players|;
    var rows := NewRows(seen, evt, e, n);
    var k :| 0 <= k < n && PlayerId(evt, k) == p;
    row := rows[k];
    RowIsExact(eng, seen, evt, e, k);
    UpsertOne(db.ratings, evt, e, n, k);
    forall i | 0 <= i < n && i != k ensures rows[i].player != p {
      assert if i < k then PlayerId(evt, i) != PlayerId(evt, k) else PlayerId(evt, k) != PlayerId(evt, i);
    }
    RowsOfOne(rows, p, g, k);
    RowsOfConcat(db.history, rows, p, g);
  }

  lemma ChainEndIsUnique(rows: seq<Row>, start: real, x: real, y: real)
    requires Chained(rows, start, x) && Chained(rows, start, y)
    ensures x == y
  {
  }

  /** A write keeps the chain of one of its players exactly if the chain was whole and the
      rating read is still the player's rating. */
  lemma LandKeepsChainIff(eng: Engine, seen: Db, db: Db, evt: Event, after: Db, p: nat, g: nat)
    requires Involved(evt, p, g) && DistinctPlayers(evt) && after == Land(eng, seen, db, evt) && ChainInv(db, p, g)
    ensures ChainInv(after, p, g) <==> Rating(seen, p, g).mmr == Rating(db, p, g).mmr
  {
    var rows := RowsOf(db.history, p, g);
    var row := LandAddsRow(eng, seen, db, evt, after, p, g);
    assert (rows + [row])[..|rows|] == rows;
    if Chained(rows, 1500.0, row.before) {
      ChainEndIsUnique(rows, 1500.0, row.before, Rating(db, p, g).mmr);
    }
  }

  /** No later row mends a broken chain. */
  ghost predicate Whole(db: Db, p: nat, g: nat) {
    exists x :: Chained(RowsOf(db.history, p, g), 1500.0, x)
  }

  lemma LandMendsNothing(eng: Engine, seen: Db, db: Db, evt: Event, after: Db, p: nat, g: nat)
    requires Rateable(evt) && DistinctPlayers(evt) && after == Land(eng, seen, db, evt) && !Whole(db, p, g)
    ensures !Whole(after, p, g)
  {
    var rows := RowsOf(db.history, p, g);
    if Involved(evt, p, g) {
      var row := LandAddsRow(eng, seen, db, evt, after, p, g);
      assert (rows + [row])[..|rows|] == rows;
      assert !Chained(rows, 1500.0, row.before);
    } else {
      LandSparesOthers(eng, seen, db, evt, after, p, g);
    }
  }

  // ---------------------------------------------------------------------------
  // Whole runs
  // ---------------------------------------------------------------------------

  /** The write `a` lands for (p, g), and the rating it had read is still the current one. */
  ghost predicate Fresh(w: World, a: Action, p: nat, g: nat) {
    a.Write? && Lands(w, a.i) && Involved(w.flights[a.i].evt, p, g) ==>
      Rating(w.flights[a.i].seen, p, g).mmr == Rating(w.db, p, g).mmr
  }

  ghost predicate AllFresh(eng: Engine, actions: seq<Action>, p: nat, g: nat) {
    actions == [] ||
    (AllFresh(eng, actions[..|actions| - 1], p, g) && Fresh(Run(eng, actions[..|actions| - 1]), actions[|actions| - 1], p, g))
  }

  /** Whole chains end at the stored rating. */
  lemma StepKeepsEnds(eng: Engine, w: World, a: Action, t: World, p: nat, g: nat)
    requires t == Step(eng, w, a) && (Whole(w.db, p, g) ==> ChainInv(w.db, p, g))
    ensures Whole(t.db, p, g) <==> Whole(w.db, p, g) && Fresh(w, a, p, g)
    ensures Whole(t.db, p, g) ==> ChainInv(t.db, p, g)
  {
    if a.Write? && Lands(w, a.i) {
      var f := w.flights[a.i];
      if !Whole(w.db, p, g) {
        LandMendsNothing(eng, f.seen, w.db, f.evt, t.db, p, g);
      } else if Involved(f.evt, p, g) {
        LandKeepsChainIff(eng, f.seen, w.db, f.evt, t.db, p, g);
        EndIsRating(eng, f.seen, w.db, f.evt, t.db, p, g);
      } else {
        LandSparesOthers(eng, f.seen, w.db, f.evt, t.db, p, g);
      }
    }
  }

  lemma EndIsRating(eng: Engine, seen: Db, db: Db, evt: Event, after: Db, p: nat, g: nat)
    requires Involved(evt, p, g) && DistinctPlayers(evt) && after == Land(eng, seen, db, evt)
    ensures Whole(after, p, g) <==> ChainInv(after, p, g)
  {
    var row := LandAddsRow(eng, seen, db, evt, after, p, g);
    var rows := RowsOf(db.history, p, g) + [row];
    if x :| Chained(rows, 1500.0, x) {
      assert x == rows[|rows| - 1].after;
    }
  }

  /** For every interleaving of reads and writes: the history of a player in a game chains
      from 1500 to the stored rating exactly if every write that landed for that player had
      read the rating that was still current. */
  lemma {:induction false} ChainsIffFresh(eng: Engine, actions: seq<Action>, p: nat, g: nat)
    ensures ChainInv(Run(eng, actions).db, p, g) <==> AllFresh(eng, actions, p, g)
    ensures Whole(Run(eng, actions).db, p, g) ==> ChainInv(Run(eng, actions).db, p, g)
  {
    if actions != [] {
      var front, last := actions[..|actions| - 1], actions[|actions| - 1];
      ChainsIffFresh(eng, front, p, g);
      StepKeepsEnds(eng, Run(eng, front), last, Run(eng, actions), p, g);
    }
  }

  // ---------------------------------------------------------------------------
  // No write in between
  // ---------------------------------------------------------------------------

  /** The store that was read is an earlier one: it has no more rows, and with as many rows it
      has the same rating. */
  ghost predicate Earlier(seen: Db, db: Db, p: nat, g: nat) {
    var n, m := |RowsOf(seen.history, p, g)|, |RowsOf(db.history, p, g)|;
    n <= m && (n == m ==> Rating(seen, p, g) == Rating(db, p, g))
  }

  ghost predicate FlightsAreEarlier(w: World, p: nat, g: nat) {
    forall i :: 0 <= i < |w.flights| ==> Earlier(w.flights[i].seen, w.db, p, g)
  }

  lemma LandIsLater(eng: Engine, seen: Db, db: Db, evt: Event, after: Db, p: nat, g: nat)
    requires Rateable(evt) && DistinctPlayers(evt) && after == Land(eng, seen, db, evt)
    ensures if Involved(evt, p, g) then |RowsOf(after.history, p, g)| == |RowsOf(db.history, p, g)| + 1
            else |RowsOf(after.history, p, g)| == |RowsOf(db.history, p, g)| && Rating(after, p, g) == Rating(db, p, g)
  {
    if Involved(evt, p, g) {
      var row := LandAddsRow(eng, seen, db, evt, after, p, g);
    } else {
      LandSparesOthers(eng, seen, db, evt, after, p, g);
    }
  }

  lemma {:induction false} ReadsAreEarlier(eng: Engine, actions: seq<Action>, p: nat, g: nat)
    ensures FlightsAreEarlier(Run(eng, actions), p, g)
  {
    if actions != [] {
      var front, a := actions[..|actions| - 1], actions[|actions| - 1];
      var w := Run(eng, front);
      ReadsAreEarlier(eng, front, p, g);
      if a.Write? && Lands(w, a.i) {
        var f := w.flights[a.i];
        LandIsLater(eng, f.seen, w.db, f.evt, Run(eng, actions).db, p, g);
      }
    }
  }

  /** Between its read and its landing no other event of (p, g) was written. */
  ghost predicate Undisturbed(w: World, a: Action, p: nat, g: nat) {
    a.Write? && Lands(w, a.i) && Involved(w.flights[a.i].evt, p, g) ==>
      |RowsOf(w.flights[a.i].seen.history, p, g)| == |RowsOf(w.db.history, p, g)|
  }

  ghost predicate AllUndisturbed(eng: Engine, actions: seq<Action>, p: nat, g: nat) {
    actions == [] ||
    (AllUndisturbed(eng, actions[..|actions| - 1], p, g)
     && Undisturbed(Run(eng, actions[..|actions| - 1]), actions[|actions| - 1], p, g))
  }

  /** If the events of a player in a game are never in flight across each other's writes, the
      history chains. */
  lemma {:induction false} UndisturbedChains(eng: Engine, actions: seq<Action>, p: nat, g: nat)
    requires AllUndisturbed(eng, actions, p, g)
    ensures AllFresh(eng, actions, p, g) && ChainInv(Run(eng, actions).db, p, g)
  {
    ChainsIffFresh(eng, actions, p, g);
    if actions != [] {
      var front := actions[..|actions| - 1];
      UndisturbedChains(eng, front, p, g);
      ReadsAreEarlier(eng, front, p, g);
    }
  }

  // ---------------------------------------------------------------------------
  // Two events in flight
  // ---------------------------------------------------------------------------

  function Overlap(a: Event, b: Event): seq<Action> {
    [Read(a), Read(b), Write(0), Write(1)]
  }

  lemma RunOneMore(eng: Engine, actions: seq<Action>, k: nat)
    requires k < |actions|
    ensures Run(eng, actions[..k + 1]) == Step(eng, Run(eng, actions[..k]), actions[k])
  {
    assert actions[..k + 1][..k] == actions[..k];
  }

  lemma AfterReads(eng: Engine, a: Event, b: Event)
    ensures Run(eng, Overlap(a, b)[..2]) == World(FRESH, [Flight(a, FRESH), Flight(b, FRESH)])
  {
    var all := Overlap(a, b);
    assert all[..0] == [];
    RunOneMore(eng, all, 0);
    RunOneMore(eng, all, 1);
  }

  lemma NothingRecorded(evt: Event)
    requires Rateable(evt) && DistinctPlayers(evt)
    ensures Insertable(FRESH, evt)
  {
  }

  lemma OverlapRuns(eng: Engine, a: Event, b: Event, first: Db)
    requires Rateable(a) && Rateable(b) && a.session != b.session && DistinctPlayers(a) && DistinctPlayers(b)
    requires first == Land(eng, FRESH, FRESH, a)
    ensures Run(eng, Overlap(a, b)).db == Land(eng, FRESH, first, b)
  {
    var all := Overlap(a, b);
    AfterReads(eng, a, b);
    NothingRecorded(a);
    RunOneMore(eng, all, 2);
    OtherSessionIsFree(eng, a, b);
    RunOneMore(eng, all, 3);
    assert all[..4] == all;
  }

  /** Two sessions that share a player, both read before either is written: both commit, and the
      shared player's history chains exactly if the first session left the rating unchanged. */
  lemma OverlapBreaksIff(eng: Engine, a: Event, b: Event, p: nat, first: Db)
    requires Involved(a, p, a.game) && Involved(b, p, a.game)
             && a.session != b.session && DistinctPlayers(a) && DistinctPlayers(b)
    requires first == Land(eng, FRESH, FRESH, a)
    ensures Run(eng, Overlap(a, b)).db == Land(eng, FRESH, first, b)
    ensures ChainInv(Run(eng, Overlap(a, b)).db, p, a.game) <==> Rating(first, p, a.game).mmr == 1500.0
  {
    OverlapRuns(eng, a, b, first);
    FirstChains(eng, a, first, p);
    LandKeepsChainIff(eng, FRESH, first, b, Land(eng, FRESH, first, b), p, a.game);
  }

  lemma OtherSessionIsFree(eng: Engine, a: Event, b: Event)
    requires Rateable(a) && Rateable(b) && DistinctPlayers(b) && a.session != b.session
    ensures Insertable(Land(eng, FRESH, FRESH, a), b)
  {
    forall i | 0 <= i < |b.players| ensures !Recorded(Land(eng, FRESH, FRESH, a).history, b.session.value, PlayerId(b, i)) {
      CommitRecords(eng, FRESH, a, b.session.value, PlayerId(b, i));
    }
  }

  lemma FirstChains(eng: Engine, a: Event, first: Db, p: nat)
    requires Involved(a, p, a.game) && DistinctPlayers(a) && first == Land(eng, FRESH, FRESH, a)
    ensures ChainInv(first, p, a.game)
  {
    LandKeepsChainIff(eng, FRESH, FRESH, a, first, p, a.game);
  }

  /** In game 0 player 1 wins session 1 against player 2 and session 2 against player 3. */
  const FIRST_WIN: Event := Event(Id(1), Id(1), 0, true, [SessionPlayer(Id(1), Win), SessionPlayer(Id(2), Loss)])
  const SECOND_WIN: Event := Event(Id(2), Id(2), 0, true, [SessionPlayer(Id(1), Win), SessionPlayer(Id(3), Loss)])

  /** A new player who beats another gains rating. */
  lemma FirstWinGains(eng: Engine, e: Effect)
    requires eng.tuning == DEFAULT && IsCurve(eng.curve) && e == Rated(eng, FRESH, FIRST_WIN)
    ensures 1 in e.book && e.book[1].mmr > 1500.0
  {
    var book, ps := GetRatings(FRESH, FIRST_WIN), Placements(FIRST_WIN);
    PlacementsAreKnown(FRESH, FIRST_WIN);
    DistinctPlacements(FIRST_WIN);
    assert ps[0].team == [1] && ps[1].team == [2];
    assert PlayerId(FIRST_WIN, 0) in PlayerIds(FIRST_WIN) && PlayerId(FIRST_WIN, 1) in PlayerIds(FIRST_WIN);
    var d := DuelEffect(DEFAULT, eng.curve, book, ps, 1, 2);
    assert 0.0 < eng.curve(0.0) < 1.0;
    WinGains(book[1], d);
  }

  lemma WinGains(p: Player, d: real)
    requires 0.0 < d
    ensures Change(DEFAULT, p, d) > 0.0
  {
    var k := DynamicK(DEFAULT, p, Abs(d));
    KBounds(p, Abs(d));
    PositiveProduct(k, d);
    assert Change(DEFAULT, p, d) == k * d;
  }

  lemma PositiveProduct(x: real, y: real)
    requires x > 0.0 && y > 0.0
    ensures x * y > 0.0
  {
  }

  /** Both sessions commit, and the history of player 1 no longer chains. */
  lemma OverlapCanBreak(eng: Engine)
    requires eng.tuning == DEFAULT && IsCurve(eng.curve)
    ensures !ChainInv(Run(eng, Overlap(FIRST_WIN, SECOND_WIN)).db, 1, 0)
  {
    var e, first := Rated(eng, FRESH, FIRST_WIN), Land(eng, FRESH, FRESH, FIRST_WIN);
    assert PlayerId(FIRST_WIN, 0) == 1 && 1 in PlayerIds(FIRST_WIN);
    assert PlayerId(SECOND_WIN, 0) == 1 && 1 in PlayerIds(SECOND_WIN);
    FirstWinGains(eng, e);
    UpsertOne(FRESH.ratings, FIRST_WIN, e, 2, 0);
    OverlapBreaksIff(eng, FIRST_WIN, SECOND_WIN, 1, first);
  }
}
