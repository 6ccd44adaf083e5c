/** The engine at work on players that it updates in place. */
module RatingRoster {
  import opened RatingEngine

  /** `Validate`: the first failing check stops. */
  method Validate(ps: seq<Placement>) returns (ok: bool)
    ensures ok <==> ValidResult(ps)
  {
    if |ps| < 2 {
      return false;
    }
    for i := 0 to |ps|
      invariant forall k :: 0 <= k < i ==> ps[k].rank >= 1 && ps[k].team != []
    {
      if ps[i].rank < 1 {
        return false;
      }
      if |ps[i].team| == 0 {
        return false;
      }
    }
    return true;
  }

  /** `EffectiveMMR`: the accumulator loop computes the mean of the team. */
  method TeamMMR(book: Book, team: seq<nat>) returns (mmr: real)
    requires Known(book, team)
    ensures mmr == EffectiveMMR(book, team)
  {
    if |team| == 0 {
      return 0.0;
    }
    var sum := 0.0;
    for i := 0 to |team|
      invariant Known(book, team[..i]) && sum == TotalMMR(book, team[..i])
    {
      assert team[..i + 1][..i] == team[..i];
      sum := sum + book[team[i]].mmr;
    }
    assert team[..|team|] == team;
    mmr := sum / |team| as real;
  }

  method AllSides(book: Book, ps: seq<Placement>) returns (s: seq<Side>)
    requires AllKnown(book, ps)
    ensures s == Sides(book, ps)
  {
    s := [];
    for i := 0 to |ps|
      invariant |s| == i && forall k :: 0 <= k < i ==> s[k] == Side(EffectiveMMR(book, ps[k].team), ps[k].rank)
    {
      assert Known(book, ps[i].team);
      var mmr := TeamMMR(book, ps[i].team);
      s := s + [Side(mmr, ps[i].rank)];
    }
  }

  lemma OneMoreUpdate(c: Tuning, e: Effect, us: seq<Update>, u: Update)
    ensures ApplyAll(c, e, us + [u]) == ApplyOne(c, ApplyAll(c, e, us), u)
  {
    assert (us + [u])[..|us|] == us;
  }

  class Roster {
    var players: Book
    var changes: map<nat, real>

    constructor ()
      ensures players == map[]
    {
      players := map[];
      changes := map[];
    }

    /** Rating, games, display and streaks of one player, in the order of the engine. */
    method UpdatePlayer(c: Tuning, id: nat, delta: real)
      requires id in players
      modifies this
      ensures Effect(players, changes) == ApplyOne(c, Effect(old(players), old(changes)), Update(id, delta))
    {
      var p := players[id];
      var k := DynamicK(c, p, Abs(delta));
      var change := k * delta;
      p := p.(mmr := p.mmr + change);
      p := p.(games := p.games + 1);
      p := p.(display := Converge(c, p.display, p.mmr));
      if delta > 0.0 {
        p := p.(wins := p.wins + 1, losses := 0);
      } else if delta < 0.0 {
        p := p.(losses := p.losses + 1, wins := 0);
      }
      assert p == Updated(c, old(players)[id], delta);
      players := players[id := p];
      changes := changes[id := change];
    }

    method UpdateTeam(c: Tuning, team: seq<nat>, delta: real)
      requires Known(players, team)
      modifies this
      ensures Effect(players, changes) == ApplyAll(c, Effect(old(players), old(changes)), TeamUpdates(team, delta))
      ensures players.Keys == old(players).Keys
    {
      ghost var e := Effect(players, changes);
      for i := 0 to |team|
        invariant players.Keys == old(players).Keys
        invariant Effect(players, changes) == ApplyAll(c, e, TeamUpdates(team[..i], delta))
      {
        assert team[..i + 1][..i] == team[..i];
        OneMoreUpdate(c, e, TeamUpdates(team[..i], delta), Update(team[i], delta));
        UpdatePlayer(c, team[i], delta);
      }
      assert team[..|team|] == team;
    }

    /** `ProcessMatch`: an invalid result changes nothing; otherwise the deltas of all teams
        are computed first and then applied to the players one after the other. */
    method ProcessMatch(c: Tuning, f: real -> real, ps: seq<Placement>) returns (ok: bool)
      requires AllKnown(players, ps)
      modifies this
      ensures ok <==> ValidResult(ps)
      ensures !ok ==> players == old(players) && changes == old(changes)
      ensures ok ==> Processed(Effect(players, changes)) == Process(c, f, old(players), ps)
    {
      ok := Validate(ps);
      if !ok {
        return;
      }
      changes := map[];
      var s := AllSides(players, ps);
      var ds := TeamDeltas(f, s);
      UpdateTeams(c, ps, ds);
    }

    /** The second loop of the engine: every team gets its delta. */
    method UpdateTeams(c: Tuning, ps: seq<Placement>, ds: seq<real>)
      requires AllKnown(players, ps) && |ps| == |ds|
      modifies this
      ensures Effect(players, changes) == ApplyAll(c, Effect(old(players), old(changes)), Updates(ps, ds, |ps|))
    {
      ghost var e := Effect(players, changes);
      for i := 0 to |ps|
        invariant players.Keys == old(players).Keys
        invariant Effect(players, changes) == ApplyAll(c, e, Updates(ps, ds, i))
      {
        assert Known(old(players), ps[i].team);
        Sequenced(c, e, Updates(ps, ds, i), TeamUpdates(ps[i].team, ds[i]));
        UpdateTeam(c, ps[i].team, ds[i]);
      }
    }
  }

  lemma {:induction false} Sequenced(c: Tuning, e: Effect, us: seq<Update>, vs: seq<Update>)
    ensures ApplyAll(c, e, us + vs) == ApplyAll(c, ApplyAll(c, e, us), vs)
  {
    if vs == [] {
      assert us + vs == us;
    } else {
      Sequenced(c, e, us, vs[..|vs| - 1]);
      assert (us + vs)[..|us + vs| - 1] == us + vs[..|vs| - 1];
    }
  }
}
