/** What a committed event means for its players: the rows it writes and, in a session of two,
    who gains and who loses by the outcome. */
module RatingOutcomes {
  import opened RatingEngine
  import opened RatingDeltas
  import opened RatingPlayers
  import opened RatingFactors
  import opened RatingLedger
  import opened RatingLedgerLaws

  /** What the event did to the rating of its player `k`. */
  function Gain(db: Db, after: Db, evt: Event, k: nat): real
    requires Rateable(evt) && k < |evt.players|
  {
    Rating(after, PlayerId(evt, k), evt.game).mmr - Rating(db, PlayerId(evt, k), evt.game).mmr
  }

  lemma CommittedRating(eng: Engine, db: Db, evt: Event, after: Db, k: nat)
    requires Verdict(db, evt) == Committed && after == After(eng, db, evt) && k < |evt.players|
    ensures var id, e := PlayerId(evt, k), Rated(eng, db, evt);
            id in e.book && Rating(after, id, evt.game) == e.book[id]
  {
    RowIsExact(eng, db, evt, Rated(eng, db, evt), k);
    UpsertOne(db.ratings, evt, Rated(eng, db, evt), |evt.players|, k);
  }

  /** A commit appends one row a player, in the order of the event, with the event's ids, the
      stored rating before and after, and their difference. */
  lemma CommitWrites(eng: Engine, db: Db, evt: Event, after: Db, k: nat)
    requires Verdict(db, evt) == Committed && after == After(eng, db, evt) && k < |evt.players|
    ensures |after.history| == |db.history| + |evt.players| && db.history <= after.history
    ensures var id := PlayerId(evt, k);
            after.history[|db.history| + k]
            == Row(id, evt.game, evt.session.value, evt.result.value,
                   Rating(db, id, evt.game).mmr, Rating(after, id, evt.game).mmr, Gain(db, after, evt, k))
  {
    var e := Rated(eng, db, evt);
    CommittedRating(eng, db, evt, after, k);
    RowIsExact(eng, db, evt, e, k);
    assert after.history[|db.history| + k] == NewRow(db, evt, e, k);
  }

  lemma TwoSides(f: real -> real, s: seq<Side>, k: nat)
    requires |s| == 2 && k < 2
    ensures TeamDelta(f, s, k) == PairDelta(f, s[k], s[1 - k])
  {
    assert RatingEngine.Row(f, s, k, 1) == if k == 0 then 0.0 else PairDelta(f, s[1], s[0]);
  }

  lemma EvenCurve(f: real -> real)
    requires IsCurve(f)
    ensures f(0.0) == 0.5
  {
    assert f(0.0) + f(-0.0) == 1.0;
  }

  /** Who gains in a pair: the better place always, and on equal places the lower rating. */
  lemma PairGains(f: real -> real, a: Side, b: Side, d: real)
    requires IsCurve(f) && d == PairDelta(f, a, b)
    ensures a.rank < b.rank ==> d > 0.0
    ensures a.rank > b.rank ==> d < 0.0
    ensures a.rank == b.rank ==> (d > 0.0 <==> a.mmr < b.mmr) && (d < 0.0 <==> a.mmr > b.mmr)
  {
    EvenCurve(f);
    var gap := a.mmr - b.mmr;
    assert 0.0 < f(gap) < 1.0;
    assert gap < 0.0 ==> f(gap) < f(0.0);
    assert gap > 0.0 ==> f(0.0) < f(gap);
  }

  lemma GainFollowsDelta(eng: Engine, db: Db, evt: Event, after: Db, k: nat, streak: nat, d: real)
    requires Verdict(db, evt) == Committed && after == After(eng, db, evt) && k < |evt.players|
    requires Ordered(eng.tuning) && IsStreak(Rating(db, PlayerId(evt, k), evt.game), streak)
    requires AllKnown(GetRatings(db, evt), Placements(evt))
    requires d == TeamDelta(eng.curve, Sides(GetRatings(db, evt), Placements(evt)), k)
    ensures (Gain(db, after, evt, k) > 0.0 <==> d > 0.0) && (Gain(db, after, evt, k) < 0.0 <==> d < 0.0)
  {
    var book, ps, p := GetRatings(db, evt), Placements(evt), Rating(db, PlayerId(evt, k), evt.game);
    PlacementsAreKnown(db, evt);
    DistinctPlacements(evt);
    SoloEffect(eng.tuning, eng.curve, book, ps, k);
    assert ps[k].team[0] == PlayerId(evt, k) && book[PlayerId(evt, k)] == p;
    CommittedRating(eng, db, evt, after, k);
    UpdateMoves(eng.tuning, p, d, Rating(after, PlayerId(evt, k), evt.game), streak, DynamicK(eng.tuning, p, Abs(d)));
    KIsPositive(eng.tuning, p, Abs(d), streak, DynamicK(eng.tuning, p, Abs(d)));
    TimesSign(DynamicK(eng.tuning, p, Abs(d)), d);
  }

  lemma EventSide(db: Db, evt: Event, k: nat)
    requires Rateable(evt) && k < |evt.players| && AllKnown(GetRatings(db, evt), Placements(evt))
    ensures Sides(GetRatings(db, evt), Placements(evt))[k]
            == Side(Rating(db, PlayerId(evt, k), evt.game).mmr, OutcomeToRank(evt.players[k].outcome))
  {
    SoloMMR(GetRatings(db, evt), Placements(evt), k);
    assert Placements(evt)[k].team[0] == PlayerId(evt, k);
  }

  lemma LongerStreak(p: Player) returns (streak: nat)
    ensures IsStreak(p, streak)
  {
    streak := if p.losses > p.wins then p.losses else p.wins;
  }

  /** In every committed session of two: whoever won against somebody who lost, forfeited or has any
      other result gains and the other loses, whatever the ratings; on equal results, such as a
      draw, the lower rated player gains, the higher rated one loses, and between equals neither
      moves. A win and a draw count as equal. */
  lemma OutcomeDecides(eng: Engine, db: Db, evt: Event, after: Db, k: nat)
    requires IsCurve(eng.curve) && Ordered(eng.tuning)
    requires Verdict(db, evt) == Committed && after == After(eng, db, evt) && |evt.players| == 2 && k < 2
    ensures var o, v := evt.players[k].outcome, evt.players[1 - k].outcome;
            && (o in {Win, Draw} && v in {Loss, Forfeit, OtherOutcome} ==> Gain(db, after, evt, k) > 0.0)
            && (v in {Win, Draw} && o in {Loss, Forfeit, OtherOutcome} ==> Gain(db, after, evt, k) < 0.0)
            && ((o in {Win, Draw} <==> v in {Win, Draw}) ==> EvenGain(db, after, evt, k))
  {
    PlacementsAreKnown(db, evt);
    var s := Sides(GetRatings(db, evt), Placements(evt));
    EventSide(db, evt, k);
    EventSide(db, evt, 1 - k);
    TwoSides(eng.curve, s, k);
    PairGains(eng.curve, s[k], s[1 - k], TeamDelta(eng.curve, s, k));
    var streak := LongerStreak(Rating(db, PlayerId(evt, k), evt.game));
    GainFollowsDelta(eng, db, evt, after, k, streak, TeamDelta(eng.curve, s, k));
  }

  /** Player `k` of two gains exactly if rated below the other, and loses exactly if above. */
  predicate EvenGain(db: Db, after: Db, evt: Event, k: nat)
    requires Rateable(evt) && |evt.players| == 2 && k < 2
  {
    var mine, theirs := Rating(db, PlayerId(evt, k), evt.game).mmr, Rating(db, PlayerId(evt, 1 - k), evt.game).mmr;
    (Gain(db, after, evt, k) > 0.0 <==> mine < theirs) && (Gain(db, after, evt, k) < 0.0 <==> mine > theirs)
  }
}
