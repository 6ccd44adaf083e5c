/** What a match does to its players, and what holds of players over any sequence of matches. */
module RatingPlayers {
  import opened RatingEngine
  import opened RatingDeltas

  // ---------------------------------------------------------------------------
  // The updates of a match
  // ---------------------------------------------------------------------------

  ghost predicate DistinctIds(us: seq<Update>) {
    forall i, j :: 0 <= i < j < |us| ==> us[i].id != us[j].id
  }

  /** A player without an update keeps everything. */
  lemma {:induction false} UntouchedStays(c: Tuning, e: Effect, us: seq<Update>, id: nat)
    requires forall i :: 0 <= i < |us| ==> us[i].id != id
    ensures var r := ApplyAll(c, e, us);
            && (id in r.book <==> id in e.book) && (id in e.book ==> r.book[id] == e.book[id])
            && (id in r.changes <==> id in e.changes) && (id in e.changes ==> r.changes[id] == e.changes[id])
  {
    if us != [] {
      UntouchedStays(c, e, us[..|us| - 1], id);
    }
  }

  /** A player with one update gets exactly that one. */
  lemma {:induction false} UpdatedOnce(c: Tuning, e: Effect, us: seq<Update>, k: nat)
    requires DistinctIds(us) && k < |us| && us[k].id in e.book
    ensures var r, p := ApplyAll(c, e, us), e.book[us[k].id];
            && us[k].id in r.book && r.book[us[k].id] == Updated(c, p, us[k].delta)
            && us[k].id in r.changes && r.changes[us[k].id] == Change(c, p, us[k].delta)
  {
    var front := us[..|us| - 1];
    if k == |us| - 1 {
      UntouchedStays(c, e, front, us[k].id);
    } else {
      UpdatedOnce(c, e, front, k);
      assert us[|us| - 1].id != us[k].id;
    }
  }

  /** The players of the first `n` teams. */
  ghost function Everyone(ps: seq<Placement>, n: nat): seq<nat>
    requires n <= |ps|
  {
    if n == 0 then [] else Everyone(ps, n - 1) + ps[n - 1].team
  }

  /** Nobody plays twice. */
  ghost predicate NobodyTwice(ps: seq<Placement>) {
    var all := Everyone(ps, |ps|);
    forall i, j :: 0 <= i < j < |all| ==> all[i] != all[j]
  }

  lemma {:induction false} TeamUpdatesAre(team: seq<nat>, delta: real)
    ensures |TeamUpdates(team, delta)| == |team|
    ensures forall j :: 0 <= j < |team| ==> TeamUpdates(team, delta)[j] == Update(team[j], delta)
  {
    if team != [] {
      TeamUpdatesAre(team[..|team| - 1], delta);
    }
  }

  /** The updates go to everyone, in order. */
  lemma {:induction false} UpdatesAreEveryone(ps: seq<Placement>, ds: seq<real>, n: nat)
    requires n <= |ps| == |ds|
    ensures |Updates(ps, ds, n)| == |Everyone(ps, n)|
    ensures forall k :: 0 <= k < |Everyone(ps, n)| ==> Updates(ps, ds, n)[k].id == Everyone(ps, n)[k]
  {
    if n > 0 {
      UpdatesAreEveryone(ps, ds, n - 1);
      TeamUpdatesAre(ps[n - 1].team, ds[n - 1]);
    }
  }

  /** Among them is the update of player `j` of team `i`. */
  lemma {:induction false} UpdateOf(ps: seq<Placement>, ds: seq<real>, n: nat, i: nat, j: nat) returns (k: nat)
    requires i < n <= |ps| == |ds| && j < |ps[i].team|
    ensures k < |Updates(ps, ds, n)| && Updates(ps, ds, n)[k] == Update(ps[i].team[j], ds[i])
  {
    if i < n - 1 {
      k := UpdateOf(ps, ds, n - 1, i, j);
    } else {
      TeamUpdatesAre(ps[i].team, ds[i]);
      k := |Updates(ps, ds, n - 1)| + j;
    }
  }

  /** In any match of distinct players, whatever the teams, each player gets the update of
      their team's delta once, from the ratings before the match. */
  lemma MatchEffect(c: Tuning, f: real -> real, book: Book, ps: seq<Placement>, i: nat, j: nat, r: Effect)
    requires AllKnown(book, ps) && ValidResult(ps) && NobodyTwice(ps) && i < |ps| && j < |ps[i].team|
    requires r == Process(c, f, book, ps).effect
    ensures var id := ps[i].team[j];
            && id in book && id in r.book && id in r.changes
            && r.book[id] == Updated(c, book[id], TeamDelta(f, Sides(book, ps), i))
            && r.changes[id] == Change(c, book[id], TeamDelta(f, Sides(book, ps), i))
  {
    var ds := Deltas(f, Sides(book, ps));
    var us := Updates(ps, ds, |ps|);
    UpdatesAreEveryone(ps, ds, |ps|);
    assert DistinctIds(us);
    var k := UpdateOf(ps, ds, |ps|, i, j);
    assert Known(book, ps[i].team);
    UpdatedOnce(c, Effect(book, map[]), us, k);
  }

  /** Every team has a single player. */
  ghost predicate Solo(ps: seq<Placement>) {
    forall i :: 0 <= i < |ps| ==> |ps[i].team| == 1
  }

  lemma {:induction false} SoloUpdates(ps: seq<Placement>, ds: seq<real>, n: nat)
    requires Solo(ps) && n <= |ps| == |ds|
    ensures |Updates(ps, ds, n)| == n
    ensures forall k :: 0 <= k < n ==> Updates(ps, ds, n)[k] == Update(ps[k].team[0], ds[k])
  {
    if n > 0 {
      SoloUpdates(ps, ds, n - 1);
      var team := ps[n - 1].team;
      assert team[..0] == [];
      assert TeamUpdates(team, ds[n - 1]) == [Update(team[0], ds[n - 1])];
    }
  }

  lemma SoloMMR(book: Book, ps: seq<Placement>, i: nat)
    requires AllKnown(book, ps) && Solo(ps) && i < |ps|
    ensures ps[i].team[0] in book && Sides(book, ps)[i] == Side(book[ps[i].team[0]].mmr, ps[i].rank)
  {
    var team := ps[i].team;
    assert Known(book, team);
    assert team[..|team| - 1] == [];
    assert TotalMMR(book, team) == book[team[0]].mmr && |team| as real == 1.0;
  }

  ghost predicate DistinctSolo(ps: seq<Placement>) {
    Solo(ps) && forall i, j :: 0 <= i < j < |ps| ==> ps[i].team[0] != ps[j].team[0]
  }

  /** In a match of distinct single players each gets the update of its own delta, and its
      recorded change is the difference of its ratings. */
  lemma SoloEffect(c: Tuning, f: real -> real, book: Book, ps: seq<Placement>, i: nat)
    requires AllKnown(book, ps) && ValidResult(ps) && DistinctSolo(ps) && i < |ps|
    ensures var r, id := Process(c, f, book, ps).effect, ps[i].team[0];
            && id in book && id in r.book && id in r.changes
            && r.book[id] == Updated(c, book[id], TeamDelta(f, Sides(book, ps), i))
            && r.changes[id] == Change(c, book[id], TeamDelta(f, Sides(book, ps), i))
            && r.book[id].mmr == book[id].mmr + r.changes[id]
  {
    var ds := Deltas(f, Sides(book, ps));
    var us := Updates(ps, ds, |ps|);
    SoloUpdates(ps, ds, |ps|);
    SoloMMR(book, ps, i);
    assert us[i] == Update(ps[i].team[0], ds[i]);
    assert DistinctIds(us);
    UpdatedOnce(c, Effect(book, map[]), us, i);
  }

  // ---------------------------------------------------------------------------
  // How far one match moves a player
  // ---------------------------------------------------------------------------

  lemma MultiplyBounds(a: real, b: real, lo: real, hi: real, lo': real, hi': real)
    requires 0.0 <= lo <= a <= hi && 0.0 <= lo' <= b <= hi'
    ensures lo * lo' <= a * b <= hi * hi'
  {
    assert lo * lo' <= lo * b <= a * b;
    assert a * b <= hi * b <= hi * hi';
  }

  lemma BaseKBounds(games: nat)
    ensures 10.0 <= BaseK(DEFAULT, games) <= 48.0
  {
  }

  lemma StreakBounds(p: Player)
    ensures 1.0 <= StreakFactor(DEFAULT, p) <= 1.5
  {
  }

  lemma KBounds(p: Player, surprise: real)
    ensures 10.0 <= DynamicK(DEFAULT, p, surprise) <= 144.0
  {
    BaseKBounds(p.games);
    StreakBounds(p);
    MultiplyBounds(BaseK(DEFAULT, p.games), StreakFactor(DEFAULT, p), 10.0, 48.0, 1.0, 1.5);
    MultiplyBounds(Weight(DEFAULT, p), Upset(surprise), 10.0, 72.0, 1.0, 2.0);
  }

  lemma ScaleDown(k: real, d: real)
    requires 0.0 < k <= 144.0 && -1.0 < d < 1.0
    ensures -144.0 < k * d < 144.0
  {
    assert k * (1.0 - d) > 0.0;
    assert k * (1.0 + d) > 0.0;
  }

  /** One match moves a rating by less than 144. */
  lemma ChangeIsSmall(p: Player, delta: real)
    requires -1.0 < delta < 1.0
    ensures -144.0 < Change(DEFAULT, p, delta) < 144.0
  {
    KBounds(p, Abs(delta));
    ScaleDown(DynamicK(DEFAULT, p, Abs(delta)), delta);
  }

  /** In any match of distinct players, whatever the teams, every rating moves by less than
      144. */
  lemma MatchMovesLittle(f: real -> real, book: Book, ps: seq<Placement>, i: nat, j: nat, r: Effect)
    requires IsCurve(f) && AllKnown(book, ps) && ValidResult(ps) && NobodyTwice(ps) && i < |ps| && j < |ps[i].team|
    requires r == Process(DEFAULT, f, book, ps).effect
    ensures var id := ps[i].team[j];
            id in book && id in r.book && -144.0 < r.book[id].mmr - book[id].mmr < 144.0
  {
    MatchEffect(DEFAULT, f, book, ps, i, j, r);
    DeltaIsSmall(f, Sides(book, ps), i);
    ChangeIsSmall(book[ps[i].team[j]], TeamDelta(f, Sides(book, ps), i));
  }

  // ---------------------------------------------------------------------------
  // What every player keeps
  // ---------------------------------------------------------------------------

  /** The display rating lags by at most 816, the fixed point of g = 0.85 (g + 144), and a
      player is on at most one streak. */
  ghost predicate Sound(p: Player) {
    -816.0 <= p.display - p.mmr <= 816.0 && (p.wins == 0 || p.losses == 0)
  }

  lemma UpdateKeepsSound(p: Player, delta: real)
    requires Sound(p) && -1.0 < delta < 1.0
    ensures Sound(Updated(DEFAULT, p, delta))
  {
    ChangeIsSmall(p, delta);
    var q, change := Updated(DEFAULT, p, delta), Change(DEFAULT, p, delta);
    assert q.display - q.mmr == 0.85 * (p.display - p.mmr - change);
  }

  ghost predicate SoundBook(book: Book) {
    forall id :: id in book ==> Sound(book[id])
  }

  ghost predicate SmallDeltas(us: seq<Update>) {
    forall i :: 0 <= i < |us| ==> -1.0 < us[i].delta < 1.0
  }

  lemma {:induction false} UpdatesKeepSound(e: Effect, us: seq<Update>)
    requires SoundBook(e.book) && SmallDeltas(us)
    ensures SoundBook(ApplyAll(DEFAULT, e, us).book)
  {
    if us != [] {
      var front, last := ApplyAll(DEFAULT, e, us[..|us| - 1]), us[|us| - 1];
      UpdatesKeepSound(e, us[..|us| - 1]);
      if last.id in front.book {
        UpdateKeepsSound(front.book[last.id], last.delta);
      }
    }
  }

  lemma {:induction false} TeamUpdatesAreSmall(team: seq<nat>, delta: real)
    requires -1.0 < delta < 1.0
    ensures SmallDeltas(TeamUpdates(team, delta))
  {
    if team != [] {
      TeamUpdatesAreSmall(team[..|team| - 1], delta);
    }
  }

  lemma {:induction false} UpdatesAreSmall(ps: seq<Placement>, ds: seq<real>, n: nat)
    requires n <= |ps| == |ds| && forall i :: 0 <= i < |ds| ==> -1.0 < ds[i] < 1.0
    ensures SmallDeltas(Updates(ps, ds, n))
  {
    if n > 0 {
      UpdatesAreSmall(ps, ds, n - 1);
      TeamUpdatesAreSmall(ps[n - 1].team, ds[n - 1]);
    }
  }

  lemma MatchKeepsSound(f: real -> real, book: Book, ps: seq<Placement>)
    requires IsCurve(f) && SoundBook(book) && AllKnown(book, ps) && ValidResult(ps)
    ensures SoundBook(Process(DEFAULT, f, book, ps).effect.book)
  {
    var s := Sides(book, ps);
    var ds := Deltas(f, s);
    forall i | 0 <= i < |ds| ensures -1.0 < ds[i] < 1.0 {
      DeltaIsSmall(f, s, i);
    }
    UpdatesAreSmall(ps, ds, |ps|);
    UpdatesKeepSound(Effect(book, map[]), Updates(ps, ds, |ps|));
  }

  // ---------------------------------------------------------------------------
  // Any sequence of matches
  // ---------------------------------------------------------------------------

  function Ids(ps: seq<Placement>): set<nat> {
    set i, j | 0 <= i < |ps| && 0 <= j < |ps[i].team| :: ps[i].team[j]
  }

  /** Newcomers start with the default ratings. */
  function Enrol(book: Book, ps: seq<Placement>): (b: Book)
    ensures AllKnown(b, ps)
  {
    map id | id in book.Keys + Ids(ps) :: if id in book then book[id] else NEW_PLAYER
  }

  /** A rejected match changes nobody. */
  function Season(f: real -> real, matches: seq<seq<Placement>>): Book {
    if matches == [] then map[]
    else
      var last := matches[|matches| - 1];
      var book := Enrol(Season(f, matches[..|matches| - 1]), last);
      match Process(DEFAULT, f, book, last)
      case Rejected => book
      case Processed(e) => e.book
  }

  /** Over any sequence of matches, of any teams and outcomes, from new players on. */
  lemma {:induction false} SeasonIsSound(f: real -> real, matches: seq<seq<Placement>>)
    requires IsCurve(f)
    ensures SoundBook(Season(f, matches))
  {
    if matches != [] {
      var front, last := matches[..|matches| - 1], matches[|matches| - 1];
      SeasonIsSound(f, front);
      var book := Enrol(Season(f, front), last);
      assert SoundBook(book);
      if ValidResult(last) {
        MatchKeepsSound(f, book, last);
      }
    }
  }
}
