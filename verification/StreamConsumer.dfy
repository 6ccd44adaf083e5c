/** The worker object: its loops take only the steps of the delivery protocol, so what holds
    of every schedule holds of them. */
module StreamConsumer {
  import opened RatingLedger
  import opened StreamWorker

  /** The steps of a schedule from a given world. */
  ghost function Steps(eng: Engine, w: World, actions: seq<Action>): World {
    if actions == [] then w else Step(eng, Steps(eng, w, actions[..|actions| - 1]), actions[|actions| - 1])
  }

  lemma OneMoreStep(eng: Engine, w: World, actions: seq<Action>, a: Action)
    ensures Steps(eng, w, actions + [a]) == Step(eng, Steps(eng, w, actions), a)
  {
    assert (actions + [a])[..|actions|] == actions;
  }

  /** A schedule carried on from a reachable world is itself a schedule. */
  lemma {:induction false} StepsContinueRun(eng: Engine, before: seq<Action>, more: seq<Action>)
    ensures Steps(eng, Run(eng, before), more) == Run(eng, before + more)
  {
    if more == [] {
      assert before + more == before;
    } else {
      var n := |more| - 1;
      StepsContinueRun(eng, before, more[..n]);
      assert (before + more)[..|before + more| - 1] == before + more[..n];
    }
  }

  // ---------------------------------------------------------------------------
  // The steps of one round
  // ---------------------------------------------------------------------------

  ghost function Reads(n: nat): (actions: seq<Action>)
    ensures |actions| == n
  {
    seq(n, _ => Read)
  }

  ghost function Claims(ids: seq<nat>): (actions: seq<Action>)
    ensures |actions| == |ids|
  {
    seq(|ids|, i requires 0 <= i < |ids| => Claim(ids[i]))
  }

  /** The entries `ids` are processed in order, each with its own fault. */
  ghost function Handling(ids: seq<nat>, faults: seq<Fault>): (actions: seq<Action>)
    requires |ids| <= |faults|
    ensures |actions| == |ids|
  {
    seq(|ids|, i requires 0 <= i < |ids| => Action.Process(ids[i], faults[i]))
  }

  /** The `n` entries from `first` on. */
  function From(first: nat, n: nat): (ids: seq<nat>)
    ensures |ids| == n
  {
    seq(n, i requires 0 <= i < n => first + i)
  }

  lemma OneMoreHandled(ids: seq<nat>, id: nat, faults: seq<Fault>)
    requires |ids| < |faults|
    ensures Handling(ids + [id], faults) == Handling(ids, faults) + [Action.Process(id, faults[|ids|])]
  {
  }

  function Min(a: nat, b: int): (m: int)
    requires 0 <= b
    ensures m in {a, b} && m <= a && m <= b
  {
    if a < b then a else b
  }

  lemma {:induction false} StepsOfTwo(eng: Engine, w: World, first: seq<Action>, second: seq<Action>, mid: World, t: World)
    requires mid == Steps(eng, w, first) && t == Steps(eng, mid, second)
    ensures t == Steps(eng, w, first + second)
  {
    if second == [] {
      assert first + second == first;
    } else {
      var n := |second| - 1;
      StepsOfTwo(eng, w, first, second[..n], mid, Steps(eng, mid, second[..n]));
      assert (first + second)[..|first + second| - 1] == first + second[..n];
    }
  }

  lemma OneMoreFrom(first: nat, n: nat)
    ensures From(first, n + 1) == From(first, n) + [first + n]
    ensures Reads(n + 1) == Reads(n) + [Read]
  {
  }

  class Worker {
    var w: World

    constructor ()
      ensures w == START
    {
      w := START;
    }

    /** Copies an entry to the dead-letter stream, then acknowledges it. */
    method DeadLetter(id: nat, f: Fault)
      modifies this
      ensures w == ToDLQ(old(w), id, f)
    {
      if f.dlqFails {
        return;
      }
      w := w.(dlq := w.dlq + [id]);
      if f.dlqAckFails {
        return;
      }
      w := Ack(w, id);
    }

    /** The handler: decoding, then the rating service. */
    method Handler(eng: Engine, id: nat, f: Fault) returns (ok: bool)
      requires id < |w.stream| && !w.stream[id].NoPayload?
      modifies this
      ensures w == Handle(eng, old(w), id, f) && ok == Accepts(old(w), id, f)
    {
      if w.stream[id].Garbage? {
        return false;
      }
      var evt := w.stream[id].evt;
      var reply := Verdict(w.db, evt);
      if f.rollback && (reply == Duplicate || reply == Committed) {
        return false;
      }
      if reply == Committed {
        w := w.(db := After(eng, w.db, evt), commits := w.commits + [id]);
        return !f.commitUnclear;
      }
      ok := reply != Failed;
    }

    /** `processMessage`. */
    method Process(eng: Engine, id: nat, f: Fault)
      requires id < w.next && id < |w.stream|
      modifies this
      ensures w == Step(eng, old(w), Action.Process(id, f))
    {
      if f.crashEarly {
        return;
      }
      if w.stream[id].NoPayload? {
        if !f.ackFails {
          w := Ack(w, id);
        }
        return;
      }
      if f.skip {
        return;
      }
      var ok := Handler(eng, id, f);
      if f.crashLate {
        return;
      }
      if ok {
        w := w.(handled := w.handled + {id});
        if !f.ackFails {
          w := Ack(w, id);
        }
        return;
      }
      if f.countFails {
        return;
      }
      var count := DeliveryCount(w, id);
      if count >= MAX_RETRIES {
        DeadLetter(id, f);
      }
    }

    /** XREADGROUP hands out as many entries as there are, at most a batch. */
    method ReadGroup(eng: Engine, batch: nat) returns (ids: seq<nat>)
      requires w.next <= |w.stream|
      modifies this
      ensures |ids| == Min(batch, |old(w).stream| - old(w).next) && ids == From(old(w).next, |ids|)
      ensures w == Steps(eng, old(w), Reads(|ids|)) && w.next == old(w).next + |ids| && w.stream == old(w).stream
    {
      ids := [];
      while w.next < |w.stream| && |ids| < batch
        invariant w.next == old(w).next + |ids| <= |w.stream| && |ids| <= batch && w.stream == old(w).stream
        invariant ids == From(old(w).next, |ids|)
        invariant w == Steps(eng, old(w), Reads(|ids|))
        decreases |w.stream| - w.next
      {
        OneMoreStep(eng, old(w), Reads(|ids|), Read);
        OneMoreFrom(old(w).next, |ids|);
        ids := ids + [w.next];
        w := ReadNext(w);
      }
    }

    /** The entries of a batch are processed in order. */
    method ProcessAll(eng: Engine, ids: seq<nat>, faults: seq<Fault>)
      requires |ids| <= |faults| && w.next <= |w.stream| && forall i :: 0 <= i < |ids| ==> ids[i] < w.next
      modifies this
      ensures w == Steps(eng, old(w), Handling(ids, faults)) && w.next == old(w).next
    {
      for i := 0 to |ids|
        invariant w.next == old(w.next) <= |w.stream|
        invariant w == Steps(eng, old(w), Handling(ids[..i], faults))
      {
        assert ids[..i + 1] == ids[..i] + [ids[i]];
        OneMoreHandled(ids[..i], ids[i], faults);
        OneMoreStep(eng, old(w), Handling(ids[..i], faults), Action.Process(ids[i], faults[i]));
        ProcessFrame(eng, w, ids[i], faults[i]);
        Process(eng, ids[i], faults[i]);
      }
      assert ids[..|ids|] == ids;
    }

    /** One round of the consume loop: as many entries as there are, at most a batch, are delivered,
        then processed in order. */
    method Consume(eng: Engine, batch: nat, faults: seq<Fault>) returns (ghost actions: seq<Action>)
      requires w.next <= |w.stream| && batch <= |faults|
      modifies this
      ensures w == Steps(eng, old(w), actions)
      ensures var n := Min(batch, |old(w).stream| - old(w).next);
              actions == Reads(n) + Handling(From(old(w).next, n), faults) && w.next == old(w).next + n
    {
      var ids := ReadGroup(eng, batch);
      ghost var read := w;
      actions := Reads(|ids|) + Handling(ids, faults);
      ProcessAll(eng, ids, faults);
      StepsOfTwo(eng, old(w), Reads(|ids|), Handling(ids, faults), read, w);
    }

    /** One round of the claim loop over the idle entries that were found: all are claimed, then
        processed in order. */
    method ClaimIdle(eng: Engine, idle: seq<nat>, faults: seq<Fault>) returns (ghost actions: seq<Action>)
      requires |idle| <= |faults| && w.next <= |w.stream| && forall i :: 0 <= i < |idle| ==> idle[i] < w.next
      modifies this
      ensures w == Steps(eng, old(w), actions) && actions == Claims(idle) + Handling(idle, faults)
    {
      for i := 0 to |idle|
        invariant w.next == old(w.next) <= |w.stream|
        invariant w == Steps(eng, old(w), Claims(idle[..i]))
      {
        assert Claims(idle[..i + 1]) == Claims(idle[..i]) + [Claim(idle[i])];
        OneMoreStep(eng, old(w), Claims(idle[..i]), Claim(idle[i]));
        w := Reclaim(w, idle[i]);
      }
      assert idle[..|idle|] == idle;
      ghost var claimed := w;
      actions := Claims(idle) + Handling(idle, faults);
      ProcessAll(eng, idle, faults);
      StepsOfTwo(eng, old(w), Claims(idle), Handling(idle, faults), claimed, w);
    }
  }

  lemma ProcessFrame(eng: Engine, w: World, id: nat, f: Fault)
    requires id < w.next && id < |w.stream|
    ensures var t := Step(eng, w, Action.Process(id, f)); t.next == w.next && t.stream == w.stream
  {
  }
}
