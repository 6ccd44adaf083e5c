/** The rating ledger: a finished ranked session becomes one transaction of history rows and
    rating rows, guarded by the uniqueness of (session, player) in the history. */
module RatingLedger {
  import opened RatingEngine

  /** An id as it arrives, which may not parse. */
  datatype Parsed = Bad | Id(value: nat)

  datatype Outcome = Win | Draw | Loss | Forfeit | OtherOutcome

  datatype SessionPlayer = SessionPlayer(id: Parsed, outcome: Outcome)

  datatype Event = Event(session: Parsed, result: Parsed, game: nat, ranked: bool, players: seq<SessionPlayer>)

  datatype Row = Row(player: nat, game: nat, session: nat, result: nat, before: real, after: real, delta: real)

  /** Rating rows by player and game, and the history in order of insertion. */
  datatype Db = Db(ratings: map<(nat, nat), Player>, history: seq<Row>)

  datatype Engine = Engine(tuning: Tuning, curve: real -> real)

  const FRESH: Db := Db(map[], [])

  function OutcomeToRank(o: Outcome): int {
    if o == Win || o == Draw then 1 else 2
  }

  // ---------------------------------------------------------------------------
  // Building the match
  // ---------------------------------------------------------------------------

  /** An event that gets as far as the store. */
  predicate Rateable(evt: Event) {
    && evt.ranked && 2 <= |evt.players|
    && (forall i :: 0 <= i < |evt.players| ==> evt.players[i].id.Id?)
    && evt.session.Id? && evt.result.Id?
  }

  function PlayerId(evt: Event, i: nat): nat
    requires Rateable(evt) && i < |evt.players|
  {
    evt.players[i].id.value
  }

  function Rating(db: Db, player: nat, game: nat): Player {
    if (player, game) in db.ratings then db.ratings[(player, game)] else NEW_PLAYER
  }

  function PlayerIds(evt: Event): set<nat>
    requires Rateable(evt)
  {
    set i | 0 <= i < |evt.players| :: PlayerId(evt, i)
  }

  /** `GetRatings`: every requested player is there, with defaults where no row exists. */
  function GetRatings(db: Db, evt: Event): Book
    requires Rateable(evt)
  {
    map id | id in PlayerIds(evt) :: Rating(db, id, evt.game)
  }

  function Placements(evt: Event): (ps: seq<Placement>)
    requires Rateable(evt)
    ensures |ps| == |evt.players|
    ensures forall i :: 0 <= i < |ps| ==> ps[i] == Placement([PlayerId(evt, i)], OutcomeToRank(evt.players[i].outcome))
  {
    seq(|evt.players|, i requires 0 <= i < |evt.players| => Placement([PlayerId(evt, i)], OutcomeToRank(evt.players[i].outcome)))
  }

  lemma PlacementsAreKnown(db: Db, evt: Event)
    requires Rateable(evt)
    ensures AllKnown(GetRatings(db, evt), Placements(evt)) && ValidResult(Placements(evt))
  {
    var ps := Placements(evt);
    forall i | 0 <= i < |ps| ensures Known(GetRatings(db, evt), ps[i].team) {
      assert PlayerId(evt, i) in PlayerIds(evt);
    }
  }

  /** The engine's result for the event. */
  function Rated(eng: Engine, db: Db, evt: Event): Effect
    requires Rateable(evt)
  {
    PlacementsAreKnown(db, evt);
    Process(eng.tuning, eng.curve, GetRatings(db, evt), Placements(evt)).effect
  }

  // ---------------------------------------------------------------------------
  // The transaction
  // ---------------------------------------------------------------------------

  function NewRow(db: Db, evt: Event, e: Effect, i: nat): Row
    requires Rateable(evt) && i < |evt.players|
  {
    var id := PlayerId(evt, i);
    var after, delta := if id in e.book then e.book[id].mmr else 0.0, if id in e.changes then e.changes[id] else 0.0;
    Row(id, evt.game, evt.session.value, evt.result.value, Rating(db, id, evt.game).mmr, after, delta)
  }

  /** The history rows of the first `n` players. */
  function NewRows(db: Db, evt: Event, e: Effect, n: nat): (rows: seq<Row>)
    requires Rateable(evt) && n <= |evt.players|
    ensures |rows| == n && forall i :: 0 <= i < n ==> rows[i] == NewRow(db, evt, e, i)
  {
    if n == 0 then [] else NewRows(db, evt, e, n - 1) + [NewRow(db, evt, e, n - 1)]
  }

  /** The rating rows after the first `n` upserts. */
  function Upserts(ratings: map<(nat, nat), Player>, evt: Event, e: Effect, n: nat): map<(nat, nat), Player>
    requires Rateable(evt) && n <= |evt.players|
  {
    if n == 0 then ratings
    else
      var before, id := Upserts(ratings, evt, e, n - 1), PlayerId(evt, n - 1);
      if id in e.book then before[(id, evt.game) := e.book[id]] else before
  }

  predicate Recorded(history: seq<Row>, session: nat, player: nat) {
    exists k :: 0 <= k < |history| && history[k].session == session && history[k].player == player
  }

  predicate DistinctPlayers(evt: Event)
    requires Rateable(evt)
  {
    forall i, j :: 0 <= i < j < |evt.players| ==> PlayerId(evt, i) != PlayerId(evt, j)
  }

  /** No row of the event violates the unique key, neither against the history nor against
      another row of the event. */
  predicate Insertable(db: Db, evt: Event)
    requires Rateable(evt)
  {
    DistinctPlayers(evt) && forall i :: 0 <= i < |evt.players| ==> !Recorded(db.history, evt.session.value, PlayerId(evt, i))
  }

  function Commit(eng: Engine, db: Db, evt: Event): Db
    requires Rateable(evt)
  {
    var e, n := Rated(eng, db, evt), |evt.players|;
    Db(Upserts(db.ratings, evt, e, n), db.history + NewRows(db, evt, e, n))
  }

  datatype Reply = Skipped | Failed | Duplicate | Committed

  /** `ProcessGameFinished` without faults. */
  function Verdict(db: Db, evt: Event): Reply {
    if !evt.ranked || |evt.players| < 2 then Skipped
    else if !Rateable(evt) then Failed
    else if !Insertable(db, evt) then Duplicate
    else Committed
  }

  function After(eng: Engine, db: Db, evt: Event): Db {
    if Verdict(db, evt) == Committed then Commit(eng, db, evt) else db
  }
}
