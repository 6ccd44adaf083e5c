/** What every transaction of the ledger keeps. */
module RatingLedgerLaws {
  import opened RatingEngine
  import opened RatingPlayers
  import opened RatingLedger

  // ---------------------------------------------------------------------------
  // The rows of one player in one game
  // ---------------------------------------------------------------------------

  function RowsOf(history: seq<Row>, p: nat, g: nat): seq<Row> {
    if history == [] then []
    else
      var front, last := RowsOf(history[..|history| - 1], p, g), history[|history| - 1];
      if last.player == p && last.game == g then front + [last] else front
  }

  /** Each row starts where the previous one ended, and its delta is its difference. */
  ghost predicate Chained(rows: seq<Row>, start: real, end: real) {
    if rows == [] then start == end
    else
      var last := rows[|rows| - 1];
      Chained(rows[..|rows| - 1], start, last.before) && last.after == last.before + last.delta && end == last.after
  }

  function SumOfDeltas(rows: seq<Row>): real {
    if rows == [] then 0.0 else SumOfDeltas(rows[..|rows| - 1]) + rows[|rows| - 1].delta
  }

  lemma {:induction false} ChainAddsUp(rows: seq<Row>, start: real, end: real)
    requires Chained(rows, start, end)
    ensures end == start + SumOfDeltas(rows)
  {
    if rows != [] {
      ChainAddsUp(rows[..|rows| - 1], start, rows[|rows| - 1].before);
    }
  }

  lemma {:induction false} RowsOfConcat(a: seq<Row>, b: seq<Row>, p: nat, g: nat)
    ensures RowsOf(a + b, p, g) == RowsOf(a, p, g) + RowsOf(b, p, g)
  {
    if b == [] {
      assert a + b == a;
    } else {
      var n := |b| - 1;
      RowsOfConcat(a, b[..n], p, g);
      assert (a + b)[..|a + b| - 1] == a + b[..n];
    }
  }

  lemma {:induction false} RowsOfOthers(rows: seq<Row>, p: nat, g: nat)
    requires forall i :: 0 <= i < |rows| ==> rows[i].player != p || rows[i].game != g
    ensures RowsOf(rows, p, g) == []
  {
    if rows != [] {
      RowsOfOthers(rows[..|rows| - 1], p, g);
    }
  }

  lemma {:induction false} RowsOfOne(rows: seq<Row>, p: nat, g: nat, k: nat)
    requires k < |rows| && rows[k].player == p && rows[k].game == g
    requires forall i :: 0 <= i < |rows| && i != k ==> rows[i].player != p
    ensures RowsOf(rows, p, g) == [rows[k]]
  {
    var n := |rows| - 1;
    if k == n {
      RowsOfOthers(rows[..n], p, g);
    } else {
      RowsOfOne(rows[..n], p, g, k);
    }
  }

  // ---------------------------------------------------------------------------
  // A commit
  // ---------------------------------------------------------------------------

  lemma {:induction false} UpsertOthers(ratings: map<(nat, nat), Player>, evt: Event, e: Effect, n: nat, p: nat, g: nat)
    requires Rateable(evt) && n <= |evt.players|
    requires g != evt.game || forall i :: 0 <= i < n ==> PlayerId(evt, i) != p
    ensures var r := Upserts(ratings, evt, e, n);
            ((p, g) in r <==> (p, g) in ratings) && ((p, g) in r ==> r[(p, g)] == ratings[(p, g)])
  {
    if n > 0 {
      UpsertOthers(ratings, evt, e, n - 1, p, g);
    }
  }

  lemma {:induction false} UpsertOne(ratings: map<(nat, nat), Player>, evt: Event, e: Effect, n: nat, k: nat)
    requires Rateable(evt) && k < n <= |evt.players| && PlayerId(evt, k) in e.book
    ensures var r, key := Upserts(ratings, evt, e, n), (PlayerId(evt, k), evt.game);
            key in r && r[key] == e.book[PlayerId(evt, k)]
  {
    if k < n - 1 {
      UpsertOne(ratings, evt, e, n - 1, k);
    }
  }

  lemma DistinctPlacements(evt: Event)
    requires Rateable(evt) && DistinctPlayers(evt)
    ensures DistinctSolo(Placements(evt))
  {
    var ps := Placements(evt);
    forall i, j | 0 <= i < j < |ps| ensures ps[i].team[0] != ps[j].team[0] {
      assert PlayerId(evt, i) != PlayerId(evt, j);
    }
  }

  /** The row of a player runs from the rating before to the rating after. */
  lemma RowIsExact(eng: Engine, db: Db, evt: Event, e: Effect, k: nat)
    requires Rateable(evt) && DistinctPlayers(evt) && e == Rated(eng, db, evt) && k < |evt.players|
    ensures var id, row := PlayerId(evt, k), NewRow(db, evt, e, k);
            && id in e.book && row.before == Rating(db, id, evt.game).mmr && row.after == e.book[id].mmr
            && row.after == row.before + row.delta
  {
    var ps := Placements(evt);
    PlacementsAreKnown(db, evt);
    DistinctPlacements(evt);
    SoloEffect(eng.tuning, eng.curve, GetRatings(db, evt), ps, k);
    assert ps[k].team[0] == PlayerId(evt, k);
  }

  ghost predicate ChainInv(db: Db, p: nat, g: nat) {
    Chained(RowsOf(db.history, p, g), 1500.0, Rating(db, p, g).mmr)
  }

  lemma ChainGrows(rows: seq<Row>, row: Row, start: real)
    requires Chained(rows, start, row.before) && row.after == row.before + row.delta
    ensures Chained(rows + [row], start, row.after)
  {
    assert (rows + [row])[..|rows|] == rows;
  }

  lemma CommitChainsPlayer(eng: Engine, db: Db, evt: Event, after: Db, k: nat)
    requires Rateable(evt) && Insertable(db, evt) && after == Commit(eng, db, evt) && k < |evt.players|
    requires ChainInv(db, PlayerId(evt, k), evt.game)
    ensures ChainInv(after, PlayerId(evt, k), evt.game)
  {
    var e, n, p, g := Rated(eng, db, evt), |evt.players|, PlayerId(evt, k), evt.game;
    var rows := NewRows(db, evt, e, n);
    RowIsExact(eng, db, evt, e, k);
    UpsertOne(db.ratings, evt, e, n, k);
    forall i | 0 <= i < n && i != k ensures rows[i].player != p {
      assert if i < k then PlayerId(evt, i) != PlayerId(evt, k) else PlayerId(evt, k) != PlayerId(evt, i);
    }
    RowsOfOne(rows, p, g, k);
    RowsOfConcat(db.history, rows, p, g);
    ChainGrows(RowsOf(db.history, p, g), rows[k], 1500.0);
  }

  lemma CommitSparesOthers(eng: Engine, db: Db, evt: Event, after: Db, p: nat, g: nat)
    requires Rateable(evt) && after == Commit(eng, db, evt)
    requires g != evt.game || forall i :: 0 <= i < |evt.players| ==> PlayerId(evt, i) != p
    ensures Rating(after, p, g) == Rating(db, p, g) && RowsOf(after.history, p, g) == RowsOf(db.history, p, g)
  {
    var e, n := Rated(eng, db, evt), |evt.players|;
    var rows := NewRows(db, evt, e, n);
    UpsertOthers(db.ratings, evt, e, n, p, g);
    RowsOfOthers(rows, p, g);
    RowsOfConcat(db.history, rows, p, g);
  }

  /** A processed event keeps the chain of every player in every game. */
  lemma AfterKeepsChain(eng: Engine, db: Db, evt: Event, p: nat, g: nat)
    requires ChainInv(db, p, g)
    ensures ChainInv(After(eng, db, evt), p, g)
  {
    if Verdict(db, evt) == Committed {
      var after := Commit(eng, db, evt);
      if k :| 0 <= k < |evt.players| && PlayerId(evt, k) == p && g == evt.game {
        CommitChainsPlayer(eng, db, evt, after, k);
      } else {
        CommitSparesOthers(eng, db, evt, after, p, g);
      }
    }
  }

  // ---------------------------------------------------------------------------
  // Idempotence
  // ---------------------------------------------------------------------------

  lemma RecordedConcat(a: seq<Row>, b: seq<Row>, session: nat, player: nat)
    ensures Recorded(a + b, session, player) <==> Recorded(a, session, player) || Recorded(b, session, player)
  {
    if Recorded(a, session, player) {
      var k :| 0 <= k < |a| && a[k].session == session && a[k].player == player;
      assert (a + b)[k] == a[k];
    }
    if Recorded(b, session, player) {
      var k :| 0 <= k < |b| && b[k].session == session && b[k].player == player;
      assert (a + b)[|a| + k] == b[k];
    }
  }

  /** A commit records exactly the event's session for exactly its players. */
  lemma CommitRecords(eng: Engine, db: Db, evt: Event, session: nat, player: nat)
    requires Rateable(evt)
    ensures Recorded(Commit(eng, db, evt).history, session, player) <==>
              Recorded(db.history, session, player) || (session == evt.session.value && player in PlayerIds(evt))
  {
    var rows := NewRows(db, evt, Rated(eng, db, evt), |evt.players|);
    RecordedConcat(db.history, rows, session, player);
    if session == evt.session.value && player in PlayerIds(evt) {
      var i :| 0 <= i < |evt.players| && PlayerId(evt, i) == player;
      assert rows[i].session == session && rows[i].player == player;
    }
  }

  /** Processing the same event again changes nothing. */
  lemma ProcessingIsIdempotent(eng: Engine, db: Db, evt: Event)
    ensures After(eng, After(eng, db, evt), evt) == After(eng, db, evt)
  {
    if Verdict(db, evt) == Committed {
      CommitRecords(eng, db, evt, evt.session.value, PlayerId(evt, 0));
      assert PlayerId(evt, 0) in PlayerIds(evt);
    }
  }
}
