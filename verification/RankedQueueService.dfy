/** The queue service as an object: each call changes the stored keys command by command, and
    its whole effect is the corresponding protocol step. */
module RankedQueueService {
  import opened QueuePenalty
  import opened RankedQueue

  class Service {
    var db: Store

    constructor ()
      ensures db == EMPTY
    {
      db := EMPTY;
    }

    method Enqueue(p: nat) returns (queued: bool)
      modifies this
      ensures db == RankedQueue.Enqueue(old(db), p)
      ensures queued <==> !IsBanned(old(db), p) && p !in old(db).queue
    {
      if IsBanned(db, p) {
        return false;
      }
      if p in db.queue {
        return false;
      }
      db := db.(queue := db.queue + {p});
      return true;
    }

    method Dequeue(p: Player) returns (removed: bool)
      modifies this
      ensures db == Step(old(db), Leave(p)) && removed == (p in old(db).queue)
    {
      removed := p in db.queue;
      db := db.(queue := db.queue - {p});
    }

    /** Pushes a stamp, counts the recent ones and bans at the threshold. */
    method RecordDecline(p: nat)
      modifies this
      ensures db == Penalise(old(db), p)
    {
      var before, now := PenaltyOf(db, p), db.now;
      var stamps := Entries(before, now) + [Stamp(now)];
      var penalty := before.(stamps := stamps, expiresAt := now + HOUR);
      var recent := CountRecent(stamps, now);
      if recent >= THRESHOLD {
        var minutes := BanMinutes(Offense(recent));
        penalty := penalty.(bannedUntil := now + minutes * 60000);
        penalty := penalty.(stamps := [], expiresAt := 0);
      }
      db := db.(penalties := db.penalties[p := penalty], charges := db.charges + [(p, now)]);
    }

    /** One proposal of the matchmaking tick. */
    method ProposeMatch(m: nat, a: Player, b: Player)
      requires CanPropose(db, m, a, b)
      modifies this
      ensures db == Step(old(db), Propose(m, a, b))
      ensures m in db.tickets && db.tickets[m] == NewTicket(a, b, old(db).now)
    {
      var k := NewTicket(a, b, db.now);
      db := db.(queue := db.queue - {a, b});
      db := db.(tickets := db.tickets[m := k]);
    }

    method Accept(p: Player, m: nat) returns (reply: Reply)
      modifies this
      ensures db == Step(old(db), RankedQueue.Accept(p, m))
      ensures reply == if m !in old(db).tickets then NotFound
                       else if Check(old(db).tickets[m], p, old(db).now) != Waiting then Check(old(db).tickets[m], p, old(db).now)
                       else if BothSaidYes(Mark(old(db).tickets[m], p, old(db).now).pending) then Done
                       else Waiting
    {
      if m !in db.tickets {
        return NotFound;
      }
      var k := db.tickets[m];
      reply := Check(k, p, db.now);
      if reply != Waiting {
        assert db.tickets[m := k] == db.tickets;
        return;
      }
      var first := p == k.pending.hash.playerA;
      k := k.(pending := HSet(k.pending, db.now, first), said := k.said + {p});
      k := k.(shadow := HSet(k.shadow, db.now, first));
      if BothSaidYes(k.pending) {
        k := k.(pending := Absent, shadow := Absent);
        k := k.(task := NoTask);
        k := k.(outcomes := k.outcomes + [Started]);
        reply := Done;
      }
      db := db.(tickets := db.tickets[m := k]);
    }

    method Decline(p: Player, m: nat) returns (reply: Reply)
      modifies this
      ensures db == Step(old(db), RankedQueue.Decline(p, m))
      ensures reply == if m in old(db).tickets && Check(old(db).tickets[m], p, old(db).now) == Waiting then Done
                       else if m in old(db).tickets then Check(old(db).tickets[m], p, old(db).now) else NotFound
    {
      if m !in db.tickets {
        return NotFound;
      }
      var k := db.tickets[m];
      reply := Check(k, p, db.now);
      if reply != Waiting {
        return;
      }
      var fields := k.pending.hash;
      k := k.(pending := Absent, shadow := Absent, task := NoTask, outcomes := k.outcomes + [Declined(p)]);
      db := db.(tickets := db.tickets[m := k]);
      var other, accepted := fields.playerB, fields.acceptedB;
      if p == fields.playerB {
        other, accepted := fields.playerA, fields.acceptedA;
      }
      if accepted {
        var _ := Enqueue(other);
      }
      RecordDecline(p);
      reply := Done;
    }

    /** The expiry task of a match, once due. */
    method HandleMatchExpiry(m: nat)
      requires CanExpire(db, m)
      modifies this
      ensures db == Step(old(db), Expire(m))
    {
      var k := db.tickets[m];
      if !Live(k.shadow, db.now) {
        db := db.(tickets := db.tickets[m := k.(task := NoTask)]);
        return;
      }
      var fields := k.shadow.hash;
      k := k.(shadow := Absent, task := NoTask, outcomes := k.outcomes + [Expired]);
      db := db.(tickets := db.tickets[m := k]);
      if fields.acceptedA && !fields.acceptedB {
        var _ := Enqueue(fields.playerA);
        RecordDecline(fields.playerB);
      } else if !fields.acceptedA && fields.acceptedB {
        var _ := Enqueue(fields.playerB);
        RecordDecline(fields.playerA);
      }
    }
  }
}
