/** The rating service: one event is parsed, rated and written in one transaction. */
module RatingService {
  import opened RatingEngine
  import opened RatingRoster
  import opened RatingLedger
  import opened RatingLedgerLaws

  /** Fails on the first id that does not parse. */
  method ParsePlayers(evt: Event) returns (ok: bool, ids: seq<nat>)
    ensures ok <==> forall i :: 0 <= i < |evt.players| ==> evt.players[i].id.Id?
    ensures ok ==> |ids| == |evt.players| && forall i :: 0 <= i < |ids| ==> evt.players[i].id == Id(ids[i])
  {
    ids := [];
    for i := 0 to |evt.players|
      invariant |ids| == i && forall k :: 0 <= k < i ==> evt.players[k].id == Id(ids[k])
    {
      if evt.players[i].id.Bad? {
        return false, [];
      }
      ids := ids + [evt.players[i].id.value];
    }
    ok := true;
  }

  /** The event's players in the first `n` places. */
  ghost function FirstIds(evt: Event, n: nat): set<nat>
    requires Rateable(evt) && n <= |evt.players|
  {
    set i | 0 <= i < n :: PlayerId(evt, i)
  }

  lemma OneMoreId(evt: Event, n: nat)
    requires Rateable(evt) && n < |evt.players|
    ensures FirstIds(evt, n + 1) == FirstIds(evt, n) + {PlayerId(evt, n)}
  {
  }

  method BuildPlacements(evt: Event) returns (ps: seq<Placement>)
    requires Rateable(evt)
    ensures ps == Placements(evt)
  {
    ps := [];
    for i := 0 to |evt.players|
      invariant |ps| == i
      invariant forall k :: 0 <= k < i ==> ps[k] == Placement([PlayerId(evt, k)], OutcomeToRank(evt.players[k].outcome))
    {
      ps := ps + [Placement([PlayerId(evt, i)], OutcomeToRank(evt.players[i].outcome))];
    }
  }

  class Ledger {
    var db: Db

    constructor ()
      ensures db == FRESH
    {
      db := FRESH;
    }

    /** `GetRatings`: defaults first, overwritten by the rows that exist. */
    method FetchRatings(evt: Event) returns (book: Book)
      requires Rateable(evt)
      ensures book == GetRatings(db, evt)
    {
      book := map[];
      for i := 0 to |evt.players|
        invariant book.Keys == FirstIds(evt, i)
        invariant forall id :: id in book ==> book[id] == NEW_PLAYER
      {
        OneMoreId(evt, i);
        book := book[PlayerId(evt, i) := NEW_PLAYER];
      }
      for i := 0 to |evt.players|
        invariant book.Keys == PlayerIds(evt)
        invariant forall id :: id in book ==> book[id] == NEW_PLAYER || book[id] == Rating(db, id, evt.game)
        invariant forall k :: 0 <= k < i ==>
                    PlayerId(evt, k) in book && book[PlayerId(evt, k)] == Rating(db, PlayerId(evt, k), evt.game)
      {
        assert PlayerId(evt, i) in PlayerIds(evt);
        if (PlayerId(evt, i), evt.game) in db.ratings {
          book := book[PlayerId(evt, i) := db.ratings[(PlayerId(evt, i), evt.game)]];
        }
      }
      assert forall id :: id in book ==> book[id] == Rating(db, id, evt.game);
    }

    /** `UpsertRatings`: the history rows go in first; a row that violates the unique key rolls
        the transaction back. */
    method UpsertRatings(evt: Event, e: Effect) returns (ok: bool)
      requires Rateable(evt)
      modifies this
      ensures ok <==> Insertable(old(db), evt)
      ensures ok ==> db == Db(Upserts(old(db).ratings, evt, e, |evt.players|),
                                old(db).history + NewRows(old(db), evt, e, |evt.players|))
      ensures !ok ==> db == old(db)
    {
      var n := |evt.players|;
      var history := db.history;
      for i := 0 to n
        invariant db == old(db) && history == db.history + NewRows(db, evt, e, i)
        invariant FreeUpTo(db, evt, i)
      {
        var row := NewRow(db, evt, e, i);
        FreeStep(db, evt, e, i);
        if Recorded(history, row.session, row.player) {
          return false;
        }
        history := history + [row];
      }
      var ratings := db.ratings;
      for i := 0 to n
        invariant db == old(db) && ratings == Upserts(db.ratings, evt, e, i)
      {
        var id := PlayerId(evt, i);
        if id in e.book {
          ratings := ratings[(id, evt.game) := e.book[id]];
        }
      }
      FreeToTheEnd(db, evt);
      db := Db(ratings, history);
      ok := true;
    }

    /** `ProcessGameFinished`. All ids are parsed before anything is written. */
    method ProcessGameFinished(eng: Engine, evt: Event) returns (reply: Reply)
      modifies this
      ensures reply == Verdict(old(db), evt) && db == After(eng, old(db), evt)
    {
      if !evt.ranked {
        return Skipped;
      }
      if |evt.players| < 2 {
        return Skipped;
      }
      var parsed, ids := ParsePlayers(evt);
      if !parsed || evt.result.Bad? || evt.session.Bad? {
        return Failed;
      }
      var e := Rate(eng, evt);
      var ok := UpsertRatings(evt, e);
      reply := if ok then Committed else Duplicate;
    }

    /** The engine works on players built from the stored rows. */
    method Rate(eng: Engine, evt: Event) returns (e: Effect)
      requires Rateable(evt)
      ensures e == Rated(eng, db, evt)
    {
      var roster := new Roster();
      roster.players := FetchRatings(evt);
      var ps := BuildPlacements(evt);
      PlacementsAreKnown(db, evt);
      var ok := roster.ProcessMatch(eng.tuning, eng.curve, ps);
      e := Effect(roster.players, roster.changes);
    }
  }

  /** Whether the key of row `i` is taken by the history or by an earlier row of the event. */
  lemma KeyIsFree(db: Db, evt: Event, e: Effect, i: nat)
    requires Rateable(evt) && i < |evt.players|
    ensures Recorded(db.history + NewRows(db, evt, e, i), evt.session.value, PlayerId(evt, i)) <==>
              Recorded(db.history, evt.session.value, PlayerId(evt, i))
              || exists k :: 0 <= k < i && PlayerId(evt, k) == PlayerId(evt, i)
  {
    var rows := NewRows(db, evt, e, i);
    RecordedConcat(db.history, rows, evt.session.value, PlayerId(evt, i));
    if k :| 0 <= k < i && PlayerId(evt, k) == PlayerId(evt, i) {
      assert rows[k].session == evt.session.value && rows[k].player == PlayerId(evt, i);
    }
  }

  /** The first `n` rows do not violate the unique key. */
  ghost predicate FreeUpTo(db: Db, evt: Event, n: nat)
    requires Rateable(evt) && n <= |evt.players|
  {
    && (forall k :: 0 <= k < n ==> !Recorded(db.history, evt.session.value, PlayerId(evt, k)))
    && forall j, k :: 0 <= j < k < n ==> PlayerId(evt, j) != PlayerId(evt, k)
  }

  lemma FreeStep(db: Db, evt: Event, e: Effect, i: nat)
    requires Rateable(evt) && i < |evt.players| && FreeUpTo(db, evt, i)
    ensures var taken := Recorded(db.history + NewRows(db, evt, e, i), evt.session.value, PlayerId(evt, i));
            (taken ==> !Insertable(db, evt)) && (!taken ==> FreeUpTo(db, evt, i + 1))
  {
    KeyIsFree(db, evt, e, i);
  }

  lemma FreeToTheEnd(db: Db, evt: Event)
    requires Rateable(evt) && FreeUpTo(db, evt, |evt.players|)
    ensures Insertable(db, evt)
  {
  }
}
