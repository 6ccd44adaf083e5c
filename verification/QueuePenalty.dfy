/** Declines and bans of one player. Times are in milliseconds; a decline is stored as a
    whole-second stamp in a list that expires an hour after its last entry. */
module QueuePenalty {
  const HOUR: nat := 3600000
  const THRESHOLD: nat := 3
  const BASE_MINUTES: nat := 5
  const MAX_MINUTES: nat := 1440

  /** A player's decline list with its expiry time, and the end of the last ban. */
  datatype Penalty = Penalty(stamps: seq<nat>, expiresAt: nat, bannedUntil: nat)

  const CLEAN: Penalty := Penalty([], 0, 0)

  predicate Banned(p: Penalty, now: nat) {
    now < p.bannedUntil
  }

  function Stamp(now: nat): (t: nat)
    ensures t <= now < t + 1000
  {
    now - now % 1000
  }

  /** What LRANGE returns. */
  function Entries(p: Penalty, now: nat): seq<nat> {
    if now < p.expiresAt then p.stamps else []
  }

  predicate IsRecent(stamp: nat, now: nat) {
    stamp + HOUR > now
  }

  function Recent(stamps: seq<nat>, now: nat): nat {
    if stamps == [] then 0
    else Recent(stamps[..|stamps| - 1], now) + if IsRecent(stamps[|stamps| - 1], now) then 1 else 0
  }

  method CountRecent(stamps: seq<nat>, now: nat) returns (n: nat)
    ensures n == Recent(stamps, now)
  {
    n := 0;
    for i := 0 to |stamps|
      invariant n == Recent(stamps[..i], now)
    {
      assert stamps[..i + 1][..i] == stamps[..i];
      if IsRecent(stamps[i], now) {
        n := n + 1;
      }
    }
    assert stamps[..|stamps|] == stamps;
  }

  function Power(base: nat, e: nat): nat {
    if e == 0 then 1 else base * Power(base, e - 1)
  }

  /** `BanDurationForOffense`, in minutes. */
  function BanMinutes(offense: int): nat {
    var minutes := BASE_MINUTES * Power(5, if offense < 1 then 0 else (offense - 1) as nat);
    if minutes > MAX_MINUTES then MAX_MINUTES else minutes
  }

  function Offense(recent: nat): nat {
    recent / THRESHOLD
  }

  /** `recordDecline` at time `now`. */
  function Record(p: Penalty, now: nat): Penalty {
    var stamps := Entries(p, now) + [Stamp(now)];
    var recent := Recent(stamps, now);
    if recent < THRESHOLD then Penalty(stamps, now + HOUR, p.bannedUntil)
    else Penalty([], 0, now + BanMinutes(Offense(recent)) * 60000)
  }

  // ---------------------------------------------------------------------------
  // The plain count
  // ---------------------------------------------------------------------------

  /** All declines of a player, in order. */
  ghost predicate Ordered(times: seq<nat>) {
    forall i, j :: 0 <= i <= j < |times| ==> times[i] <= times[j]
  }

  function Replay(times: seq<nat>): Penalty {
    if times == [] then CLEAN else Record(Replay(times[..|times| - 1]), times[|times| - 1])
  }

  /** The declines since the last ban, never pruned and never expiring, and the bans so far. */
  datatype Tally = Tally(since: seq<nat>, bans: seq<nat>)

  /** How many of the declines, cut to whole seconds, fall in the hour before `now`. */
  function InLastHour(times: seq<nat>, now: nat): nat {
    if times == [] then 0
    else
      var last := times[|times| - 1];
      InLastHour(times[..|times| - 1], now) + if last - last % 1000 + 3600000 > now then 1 else 0
  }

  /** The rule: the third decline within an hour since the last ban bans. */
  function Plain(times: seq<nat>): Tally {
    if times == [] then Tally([], [])
    else
      var before, now := Plain(times[..|times| - 1]), times[|times| - 1];
      var since := before.since + [now];
      if InLastHour(since, now) < 3 then Tally(since, before.bans) else Tally([], before.bans + [now])
  }

  // ---------------------------------------------------------------------------
  // The list agrees with the plain count
  // ---------------------------------------------------------------------------

  lemma RecentPush(stamps: seq<nat>, t: nat, now: nat)
    ensures Recent(stamps + [t], now) == Recent(stamps, now) + if IsRecent(t, now) then 1 else 0
  {
    assert (stamps + [t])[..|stamps|] == stamps;
  }

  lemma LastHourPush(times: seq<nat>, t: nat, now: nat)
    ensures InLastHour(times + [t], now) == InLastHour(times, now) + if IsRecent(Stamp(t), now) then 1 else 0
  {
    assert (times + [t])[..|times|] == times;
  }

  /** A list whose stamps are all an hour old counts nothing. */
  lemma {:induction false} OldCountsNothing(stamps: seq<nat>, now: nat)
    requires forall i :: 0 <= i < |stamps| ==> stamps[i] + HOUR <= now
    ensures Recent(stamps, now) == 0
  {
    if stamps != [] {
      OldCountsNothing(stamps[..|stamps| - 1], now);
    }
  }

  /** As time passes the count only falls. */
  lemma {:induction false} CountFalls(stamps: seq<nat>, now: nat, later: nat)
    requires now <= later
    ensures Recent(stamps, later) <= Recent(stamps, now)
  {
    if stamps != [] {
      CountFalls(stamps[..|stamps| - 1], now, later);
    }
  }

  ghost predicate SameCounts(stamps: seq<nat>, since: seq<nat>, from: nat) {
    forall now :: from <= now ==> Recent(stamps, now) == InLastHour(since, now)
  }

  /** The list counts what the plain tally counts from `last` on, it is below the threshold,
      and it lives exactly long enough for its stamps to count. */
  ghost predicate Agrees(p: Penalty, since: seq<nat>, last: nat) {
    && SameCounts(p.stamps, since, last)
    && Recent(p.stamps, last) < THRESHOLD
    && p.expiresAt <= last + HOUR
    && forall i :: 0 <= i < |p.stamps| ==> p.stamps[i] + HOUR <= p.expiresAt
  }

  /** Losing the expired list loses nothing that would have counted. */
  lemma EntriesSuffice(p: Penalty, since: seq<nat>, last: nat, now: nat)
    requires Agrees(p, since, last) && last <= now
    ensures SameCounts(Entries(p, now), since, now)
    ensures Recent(Entries(p, now), now) < THRESHOLD
  {
    CountFalls(p.stamps, last, now);
    if p.expiresAt <= now {
      forall t | now <= t ensures Recent([], t) == InLastHour(since, t) {
        OldCountsNothing(p.stamps, t);
        assert Recent(p.stamps, t) == InLastHour(since, t);
      }
    }
  }

  lemma PushAgrees(stamps: seq<nat>, since: seq<nat>, now: nat)
    requires SameCounts(stamps, since, now)
    ensures SameCounts(stamps + [Stamp(now)], since + [now], now)
  {
    forall t | now <= t ensures Recent(stamps + [Stamp(now)], t) == InLastHour(since + [now], t) {
      RecentPush(stamps, Stamp(now), t);
      LastHourPush(since, now, t);
      assert Recent(stamps, t) == InLastHour(since, t);
    }
  }

  /** The effect of one decline, and the reason why the offense is always the first. */
  lemma DeclineAgrees(p: Penalty, since: seq<nat>, last: nat, now: nat)
    requires Agrees(p, since, last) && last <= now
    ensures Recent(Entries(p, now) + [Stamp(now)], now) == InLastHour(since + [now], now) <= THRESHOLD
    ensures InLastHour(since + [now], now) < 3 ==> Agrees(Record(p, now), since + [now], now)
  {
    var entries := Entries(p, now);
    EntriesSuffice(p, since, last, now);
    PushAgrees(entries, since, now);
    RecentPush(entries, Stamp(now), now);
    assert Recent(entries + [Stamp(now)], now) == InLastHour(since + [now], now);
  }

  lemma CleanAgrees(bannedUntil: nat, now: nat)
    ensures Agrees(Penalty([], 0, bannedUntil), [], now)
  {
  }

  lemma FirstOffense()
    ensures BanMinutes(Offense(3)) == 5
  {
    assert Power(5, 0) == 1;
  }

  ghost function Last(times: seq<nat>): nat {
    if times == [] then 0 else times[|times| - 1]
  }

  lemma RecordAgrees(p: Penalty, since: seq<nat>, last: nat, now: nat)
    requires Agrees(p, since, last) && last <= now
    ensures if InLastHour(since + [now], now) < 3
            then Agrees(Record(p, now), since + [now], now) && Record(p, now).bannedUntil == p.bannedUntil
            else Agrees(Record(p, now), [], now) && Record(p, now).bannedUntil == now + 5 * 60000
  {
    DeclineAgrees(p, since, last, now);
    FirstOffense();
    CleanAgrees(Record(p, now).bannedUntil, now);
  }

  lemma PlainOneMore(front: seq<nat>, now: nat)
    ensures Plain(front + [now]) == (if InLastHour(Plain(front).since + [now], now) < 3
                                     then Tally(Plain(front).since + [now], Plain(front).bans)
                                     else Tally([], Plain(front).bans + [now]))
    ensures Replay(front + [now]) == Record(Replay(front), now)
  {
    assert (front + [now])[..|front|] == front;
  }

  lemma OneMoreAgrees(front: seq<nat>, now: nat, times: seq<nat>)
    requires times == front + [now] && Last(front) <= now
    requires Agrees(Replay(front), Plain(front).since, Last(front))
    requires Replay(front).bannedUntil == if Plain(front).bans == [] then 0 else Last(Plain(front).bans) + 5 * 60000
    ensures Agrees(Replay(times), Plain(times).since, now)
    ensures Replay(times).bannedUntil == if Plain(times).bans == [] then 0 else Last(Plain(times).bans) + 5 * 60000
  {
    PlainOneMore(front, now);
    RecordAgrees(Replay(front), Plain(front).since, Last(front), now);
  }

  /** The stored list agrees with the plain count after any declines, and every ban runs five
      minutes from the decline that the plain rule names. */
  lemma {:induction false} ListAgreesWithPlainCount(times: seq<nat>)
    requires Ordered(times)
    ensures Agrees(Replay(times), Plain(times).since, Last(times))
    ensures Replay(times).bannedUntil == if Plain(times).bans == [] then 0 else Last(Plain(times).bans) + 5 * 60000
  {
    if times == [] {
      CleanAgrees(0, 0);
    } else {
      var front, now := times[..|times| - 1], Last(times);
      ListAgreesWithPlainCount(front);
      assert times == front + [now];
      OneMoreAgrees(front, now, times);
    }
  }

  /** A decline bans exactly if it is the third of the last hour since the last ban. */
  lemma BanExactlyAtThird(times: seq<nat>, now: nat)
    requires Ordered(times) && Last(times) <= now
    ensures InLastHour(Plain(times).since + [now], now) == 3 ==> Record(Replay(times), now) == Penalty([], 0, now + 5 * 60000)
    ensures InLastHour(Plain(times).since + [now], now) != 3 ==>
              Record(Replay(times), now).bannedUntil == Replay(times).bannedUntil
  {
    ListAgreesWithPlainCount(times);
    DeclineAgrees(Replay(times), Plain(times).since, Last(times), now);
    FirstOffense();
  }

  /** The offense number is the first at every ban, so the longer bans are never reached. */
  lemma OffenseIsAlwaysFirst(times: seq<nat>, now: nat)
    requires Ordered(times) && Last(times) <= now
    requires Recent(Entries(Replay(times), now) + [Stamp(now)], now) >= THRESHOLD
    ensures Offense(Recent(Entries(Replay(times), now) + [Stamp(now)], now)) == 1
  {
    ListAgreesWithPlainCount(times);
    DeclineAgrees(Replay(times), Plain(times).since, Last(times), now);
  }

  lemma {:induction false} PowerGrows(d: nat, e: nat)
    requires d <= e
    ensures Power(5, d) <= Power(5, e)
  {
    if d < e {
      PowerGrows(d, e - 1);
    }
  }

  /** The ladder of bans: five times longer at each offense, never above a day. */
  lemma BanLadder(offense: int)
    ensures 5 <= BanMinutes(offense) <= BanMinutes(offense + 1) <= 1440
    ensures BanMinutes(offense) == if offense <= 1 then 5 else if offense == 2 then 25 else if offense == 3 then 125
                                   else if offense == 4 then 625 else 1440
  {
    assert Power(5, 0) == 1 && Power(5, 1) == 5 && Power(5, 2) == 25 && Power(5, 3) == 125 && Power(5, 4) == 625;
    if offense >= 5 {
      PowerGrows(4, offense - 1);
    }
    if offense >= 1 {
      PowerGrows(offense - 1, offense);
    }
  }
}
