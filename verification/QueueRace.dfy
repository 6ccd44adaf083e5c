/** The confirmation of one proposed match, one Redis command at a time. Each of the two
    players has at most one Accept or Decline in flight, the commands of both interleave in
    any order, and no key expires meanwhile. */
module QueueRace {
  datatype Side = A | B

  function Other(p: Side): Side {
    if p == A then B else A
  }

  /** A Redis hash of the match. A late HSET recreates a deleted hash without player fields. */
  datatype Record = Record(complete: bool, acceptedA: bool, acceptedB: bool)

  datatype Key = Absent | Present(record: Record)

  /** How far the call in flight has come: the command it issues next. */
  datatype Phase =
    | Idle
    | SetPending
    | SetShadow
    | Reload
    | DeleteToStart
    | DeleteToDecline(sawOther: bool)

  datatype Kind = Accept | Decline

  datatype Event = Call(kind: Kind) | Command

  datatype Outcome = Started | Declined(decliner: Side, requeued: bool)

  datatype State = State(pending: Key, shadow: Key, a: Phase, b: Phase, outcomes: seq<Outcome>)

  // ---------------------------------------------------------------------------
  // Commands
  // ---------------------------------------------------------------------------

  function PhaseOf(s: State, p: Side): Phase {
    if p == A then s.a else s.b
  }

  function SetPhase(s: State, p: Side, f: Phase): State {
    if p == A then s.(a := f) else s.(b := f)
  }

  predicate Flag(r: Record, p: Side) {
    if p == A then r.acceptedA else r.acceptedB
  }

  function SetFlag(r: Record, p: Side): Record {
    if p == A then r.(acceptedA := true) else r.(acceptedB := true)
  }

  /** HSET creates the hash if it is absent. */
  function HSet(k: Key, p: Side): Key {
    Present(SetFlag(if k.Present? then k.record else Record(false, false, false), p))
  }

  predicate BothAccepted(k: Key) {
    k.Present? && k.record.acceptedA && k.record.acceptedB
  }

  predicate Accepted(k: Key, p: Side) {
    k.Present? && Flag(k.record, p)
  }

  /** The first HGETALL of a call: without a hash, or without the player's own id in it, the
      call ends with an error. */
  function Begin(s: State, p: Side, kind: Kind): State {
    if !s.pending.Present? || !s.pending.record.complete then s
    else if kind == Accept then SetPhase(s, p, SetPending)
    else SetPhase(s, p, DeleteToDecline(Accepted(s.pending, Other(p))))
  }

  function WritePending(s: State, p: Side): State {
    SetPhase(s.(pending := HSet(s.pending, p)), p, SetShadow)
  }

  function WriteShadow(s: State, p: Side): State {
    SetPhase(s.(shadow := HSet(s.shadow, p)), p, Reload)
  }

  function ReadAgain(s: State, p: Side): State {
    SetPhase(s, p, if BothAccepted(s.pending) then DeleteToStart else Idle)
  }

  /** DEL of both keys; the call goes on only if at least one of them was there. */
  function Delete(s: State, p: Side, o: Outcome): State {
    var t := SetPhase(s.(pending := Absent, shadow := Absent), p, Idle);
    if s.pending.Present? || s.shadow.Present? then t.(outcomes := s.outcomes + [o]) else t
  }

  /** The next command of the call that `p` has in flight. */
  function Issue(s: State, p: Side): State {
    match PhaseOf(s, p)
    case Idle => s
    case SetPending => WritePending(s, p)
    case SetShadow => WriteShadow(s, p)
    case Reload => ReadAgain(s, p)
    case DeleteToStart => Delete(s, p, Started)
    case DeleteToDecline(saw) => Delete(s, p, Declined(p, saw))
  }

  /** A new call is begun only when none is in flight. */
  function Step(s: State, p: Side, e: Event): State {
    match e
    case Call(kind) => if PhaseOf(s, p).Idle? then Begin(s, p, kind) else s
    case Command => Issue(s, p)
  }

  /** Just after the proposal. */
  const PROPOSED: State := State(Present(Record(true, false, false)), Present(Record(true, false, false)), Idle, Idle, [])

  function Run(events: seq<(Side, Event)>): State {
    if events == [] then PROPOSED
    else
      var last := events[|events| - 1];
      Step(Run(events[..|events| - 1]), last.0, last.1)
  }

  // ---------------------------------------------------------------------------
  // Invariant
  // ---------------------------------------------------------------------------

  /** Between the first write of an Accept and its end. */
  predicate Writing(f: Phase) {
    f.SetShadow? || f.Reload? || f.DeleteToStart?
  }

  /** What a call in flight knows while the match is open. */
  ghost predicate PhaseOpen(s: State, p: Side) {
    var f := PhaseOf(s, p);
    && (Writing(f) ==> Accepted(s.pending, p))
    && (f.DeleteToStart? ==> BothAccepted(s.pending))
  }

  /** The match is not resolved: both hashes are whole, and if both have accepted then a call
      that will notice is still under way. */
  ghost predicate Open(s: State) {
    && s.outcomes == []
    && s.pending.Present? && s.pending.record.complete
    && s.shadow.Present?
    && PhaseOpen(s, A) && PhaseOpen(s, B)
    && (BothAccepted(s.pending) ==> Writing(s.a) || Writing(s.b))
  }

  /** `r` has resolved the match: only late writes of the other player can recreate hashes,
      never complete ones, and a call of that player that is about to delete finds nothing. */
  ghost predicate ResolvedBy(s: State, r: Side) {
    && |s.outcomes| == 1
    && (s.outcomes[0].Declined? ==> s.outcomes[0].decliner == r)
    && PhaseOf(s, r).Idle?
    && (s.pending.Present? ==> !s.pending.record.complete && !Flag(s.pending.record, r))
    && (PhaseOf(s, Other(r)).DeleteToStart? || PhaseOf(s, Other(r)).DeleteToDecline? ==>
          s.pending.Absent? && s.shadow.Absent?)
  }

  ghost predicate Inv(s: State) {
    Open(s) || ResolvedBy(s, A) || ResolvedBy(s, B)
  }

  lemma OpenStep(s: State, p: Side, e: Event)
    requires Open(s)
    ensures Open(Step(s, p, e)) || ResolvedBy(Step(s, p, e), p)
  {
  }

  lemma ResolvedStep(s: State, r: Side, p: Side, e: Event)
    requires ResolvedBy(s, r)
    ensures ResolvedBy(Step(s, p, e), r) && Step(s, p, e).outcomes == s.outcomes
  {
  }

  lemma {:induction false} RunKeepsInv(events: seq<(Side, Event)>)
    ensures Inv(Run(events))
  {
    if events != [] {
      var front, last := events[..|events| - 1], events[|events| - 1];
      RunKeepsInv(front);
      if Open(Run(front)) {
        OpenStep(Run(front), last.0, last.1);
      } else {
        ResolvedStep(Run(front), if ResolvedBy(Run(front), A) then A else B, last.0, last.1);
      }
    }
  }

  // ---------------------------------------------------------------------------
  // What holds of every interleaving
  // ---------------------------------------------------------------------------

  /** A match is resolved at most once, by one start or by one decline, whatever late writes
      recreate. */
  lemma {:induction false} ResolvedAtMostOnce(events: seq<(Side, Event)>)
    ensures |Run(events).outcomes| <= 1
  {
    RunKeepsInv(events);
  }

  /** The outcome is never withdrawn or changed by what follows. */
  lemma {:induction false} OutcomeIsFinal(events: seq<(Side, Event)>, more: seq<(Side, Event)>)
    requires |Run(events).outcomes| == 1
    ensures Run(events + more).outcomes == Run(events).outcomes
  {
    if more == [] {
      assert events + more == events;
    } else {
      var front, last := more[..|more| - 1], more[|more| - 1];
      OutcomeIsFinal(events, front);
      var all := events + more;
      assert all[..|all| - 1] == events + front;
      RunKeepsInv(events + front);
      var s := Run(events + front);
      ResolvedStep(s, if ResolvedBy(s, A) then A else B, last.0, last.1);
    }
  }

  /** How often `p` wrote its acceptance. */
  ghost function Writes(events: seq<(Side, Event)>, p: Side): nat {
    if events == [] then 0
    else
      var front, last := events[..|events| - 1], events[|events| - 1];
      Writes(front, p) + if last == (p, Command) && PhaseOf(Run(front), p).SetPending? then 1 else 0
  }

  lemma {:induction false} FlagMeansWrite(events: seq<(Side, Event)>, p: Side)
    ensures Accepted(Run(events).pending, p) ==> Writes(events, p) > 0
  {
    if events != [] {
      FlagMeansWrite(events[..|events| - 1], p);
    }
  }

  lemma StartNeedsFlags(s: State, p: Side, e: Event, q: Side)
    requires Open(s) && Step(s, p, e).outcomes == [Started]
    ensures Accepted(s.pending, q)
  {
    assert Step(s, p, e).outcomes[0] == Started;
    assert e == Command && PhaseOf(s, p).DeleteToStart?;
    assert PhaseOpen(s, p) by { assert p == A || p == B; }
  }

  /** A match is started only if both players accepted it. */
  lemma {:induction false} StartedMeansBothAccepted(events: seq<(Side, Event)>, p: Side)
    requires Run(events).outcomes == [Started]
    ensures Writes(events, p) > 0
  {
    var front, last := events[..|events| - 1], events[|events| - 1];
    RunKeepsInv(front);
    var s := Run(front);
    if Open(s) {
      StartNeedsFlags(s, last.0, last.1, p);
      FlagMeansWrite(front, p);
    } else {
      ResolvedStep(s, if ResolvedBy(s, A) then A else B, last.0, last.1);
      StartedMeansBothAccepted(front, p);
    }
  }

  /** No start is lost: once nothing is in flight, a match that both accepted is resolved. */
  lemma {:induction false} NoStartIsLost(events: seq<(Side, Event)>)
    requires Run(events).a.Idle? && Run(events).b.Idle? && Run(events).outcomes == []
    ensures !BothAccepted(Run(events).pending)
  {
    RunKeepsInv(events);
  }

  // ---------------------------------------------------------------------------
  // Whom a decline re-queues
  // ---------------------------------------------------------------------------

  /** Event `k` is the read of a Decline by `p` that goes on to its delete. */
  ghost predicate Reads(events: seq<(Side, Event)>, k: nat, p: Side) {
    && k < |events| && events[k] == (p, Call(Decline))
    && PhaseOf(Run(events[..k]), p).Idle? && PhaseOf(Run(events[..k + 1]), p).DeleteToDecline?
  }

  lemma RunOneMore(events: seq<(Side, Event)>, k: nat)
    requires k < |events|
    ensures Run(events[..k + 1]) == Step(Run(events[..k]), events[k].0, events[k].1)
  {
    assert events[..k + 1][..k] == events[..k];
  }

  lemma ReadsInPrefix(events: seq<(Side, Event)>, n: nat, k: nat, p: Side)
    requires k < n <= |events|
    ensures Reads(events[..n], k, p) <==> Reads(events, k, p)
  {
    assert events[..n][..k] == events[..k] && events[..n][..k + 1] == events[..k + 1];
  }

  /** While the match is open an acceptance, once written, stays visible. */
  lemma {:induction false} WriteMeansFlag(events: seq<(Side, Event)>, p: Side)
    ensures Open(Run(events)) && Writes(events, p) > 0 ==> Accepted(Run(events).pending, p)
  {
    if events != [] {
      var front, last := events[..|events| - 1], events[|events| - 1];
      RunKeepsInv(front);
      WriteMeansFlag(front, p);
      if !Open(Run(front)) {
        ResolvedStep(Run(front), if ResolvedBy(Run(front), A) then A else B, last.0, last.1);
      }
    }
  }

  /** Only an open match lets a Decline read its way to the delete. */
  lemma ReadNeedsOpen(events: seq<(Side, Event)>, k: nat, p: Side)
    requires Reads(events, k, p)
    ensures Open(Run(events[..k]))
    ensures PhaseOf(Run(events[..k + 1]), p) == DeleteToDecline(Accepted(Run(events[..k]).pending, Other(p)))
  {
    RunOneMore(events, k);
    RunKeepsInv(events[..k]);
  }

  /** What a Decline on its way to the delete saw is what had been written before its read. */
  lemma {:induction false} InFlightSaw(events: seq<(Side, Event)>, p: Side) returns (k: nat)
    requires PhaseOf(Run(events), p).DeleteToDecline?
    ensures Reads(events, k, p)
    ensures PhaseOf(Run(events), p).sawOther <==> Writes(events[..k], Other(p)) > 0
  {
    var n := |events| - 1;
    assert events[..n + 1] == events;
    RunOneMore(events, n);
    if PhaseOf(Run(events[..n]), p).DeleteToDecline? {
      k := InFlightSaw(events[..n], p);
      ReadsInPrefix(events, n, k, p);
      assert events[..n][..k] == events[..k];
    } else {
      k := n;
      ReadNeedsOpen(events, k, p);
      FlagMeansWrite(events[..k], Other(p));
      WriteMeansFlag(events[..k], Other(p));
    }
  }

  lemma {:induction false} DeclineRead(events: seq<(Side, Event)>, p: Side, requeued: bool) returns (k: nat)
    requires Run(events).outcomes == [Declined(p, requeued)]
    ensures Reads(events, k, p)
    ensures requeued <==> Writes(events[..k], Other(p)) > 0
  {
    var n := |events| - 1;
    assert events[..n + 1] == events;
    RunOneMore(events, n);
    RunKeepsInv(events[..n]);
    var s := Run(events[..n]);
    if Open(s) {
      DeclineEndsOpen(s, events[n].0, events[n].1, p, requeued);
      k := InFlightSaw(events[..n], p);
    } else {
      ResolvedStep(s, if ResolvedBy(s, A) then A else B, events[n].0, events[n].1);
      k := DeclineRead(events[..n], p, requeued);
    }
    ReadsInPrefix(events, n, k, p);
    assert events[..n][..k] == events[..k];
  }

  lemma DeclineEndsOpen(s: State, q: Side, e: Event, p: Side, requeued: bool)
    requires Open(s) && Step(s, q, e).outcomes == [Declined(p, requeued)]
    ensures PhaseOf(s, p) == DeleteToDecline(requeued)
  {
    assert Step(s, q, e).outcomes[0] == Declined(p, requeued);
  }

  /** After its read a Decline waits for its delete, and then the match is resolved. */
  lemma {:induction false} AfterRead(events: seq<(Side, Event)>, k: nat, n: nat, p: Side)
    requires Reads(events, k, p) && k < n <= |events|
    ensures PhaseOf(Run(events[..n]), p).DeleteToDecline? || !Open(Run(events[..n]))
  {
    if n > k + 1 {
      AfterRead(events, k, n - 1, p);
      RunOneMore(events, n - 1);
      var s, e := Run(events[..n - 1]), events[n - 1];
      RunKeepsInv(events[..n - 1]);
      if Open(s) {
        OpenStep(s, e.0, e.1);
        assert e == (p, Command) ==> Step(s, p, Command).outcomes != [];
      } else {
        ResolvedStep(s, if ResolvedBy(s, A) then A else B, e.0, e.1);
      }
    }
  }

  /** A player has at most one such read per match. */
  lemma OneRead(events: seq<(Side, Event)>, j: nat, k: nat, p: Side)
    requires Reads(events, j, p) && Reads(events, k, p)
    ensures j == k
  {
    if j != k {
      var first, second := if j < k then j else k, if j < k then k else j;
      AfterRead(events, first, second, p);
      ReadNeedsOpen(events, second, p);
    }
  }

  /** Event `w` writes the acceptance of `p`. */
  ghost predicate WritesAt(events: seq<(Side, Event)>, w: nat, p: Side) {
    w < |events| && events[w] == (p, Command) && PhaseOf(Run(events[..w]), p).SetPending?
  }

  lemma {:induction false} WritesIff(events: seq<(Side, Event)>, n: nat, p: Side)
    requires n <= |events|
    ensures Writes(events[..n], p) > 0 <==> exists w: nat :: w < n && WritesAt(events, w, p)
  {
    if n > 0 {
      WritesIff(events, n - 1, p);
      WritesOneMore(events, n - 1, p);
      if WritesAt(events, n - 1, p) {
      } else if w: nat :| w < n && WritesAt(events, w, p) {
        assert w < n - 1;
      }
    }
  }

  /** For every run that a decline ends: that Decline has exactly one read, and the other
      player is re-queued exactly if it wrote its acceptance before that read. An acceptor is
      dropped exactly if all its writes come after the read, be it before or after the
      delete. */
  lemma {:induction false} RequeuedIffSeen(events: seq<(Side, Event)>, p: Side, requeued: bool) returns (k: nat)
    requires Run(events).outcomes == [Declined(p, requeued)]
    ensures Reads(events, k, p) && forall j :: Reads(events, j, p) ==> j == k
    ensures requeued <==> exists w: nat :: w < k && WritesAt(events, w, Other(p))
    ensures !requeued <==> forall w: nat :: WritesAt(events, w, Other(p)) ==> k < w
  {
    k := DeclineRead(events, p, requeued);
    WritesIff(events, k, Other(p));
    forall j | Reads(events, j, p) ensures j == k { OneRead(events, j, k, p); }
  }

  // ---------------------------------------------------------------------------
  // The shadow
  // ---------------------------------------------------------------------------

  /** The shadow shows an acceptance only after the pending hash, and late only while the call
      that wrote the one has yet to write the other. */
  ghost predicate ShadowFollows(s: State, p: Side) {
    && (Accepted(s.shadow, p) ==> Accepted(s.pending, p))
    && (Accepted(s.pending, p) && !Accepted(s.shadow, p) ==> PhaseOf(s, p).SetShadow?)
  }

  lemma ShadowStep(s: State, p: Side, e: Event, q: Side)
    requires Open(s) && ShadowFollows(s, q) && Step(s, p, e).outcomes == []
    ensures ShadowFollows(Step(s, p, e), q)
  {
  }

  /** In every interleaving, while the match is unresolved: what the expiry would read in the
      shadow lags behind the pending hash by calls in flight only, so once nothing is in flight
      both show the same acceptances. */
  lemma {:induction false} ShadowIsCurrent(events: seq<(Side, Event)>, p: Side)
    requires Run(events).outcomes == []
    ensures ShadowFollows(Run(events), p)
    ensures PhaseOf(Run(events), p).Idle? ==> (Accepted(Run(events).shadow, p) <==> Accepted(Run(events).pending, p))
    ensures Accepted(Run(events).pending, p) <==> Writes(events, p) > 0
  {
    RunKeepsInv(events);
    FlagMeansWrite(events, p);
    WriteMeansFlag(events, p);
    if events != [] {
      var front, last := events[..|events| - 1], events[|events| - 1];
      RunKeepsInv(front);
      if Run(front).outcomes == [] {
        ShadowIsCurrent(front, p);
        ShadowStep(Run(front), last.0, last.1, p);
      } else {
        ResolvedStep(Run(front), if ResolvedBy(Run(front), A) then A else B, last.0, last.1);
      }
    }
  }

  const CROSSING: seq<(Side, Event)> := [(A, Call(Decline)), (B, Call(Accept)), (B, Command), (A, Command)]

  /** An acceptor can be dropped: B writes its acceptance between A's read and A's delete. */
  lemma AcceptorCanBeDropped()
    ensures Run(CROSSING).outcomes == [Declined(A, false)] && WritesAt(CROSSING, 2, B)
  {
    var e := CROSSING;
    assert e[..4] == e && e[..0] == [];
    RunOneMore(e, 0);
    assert Run(e[..1]) == PROPOSED.(a := DeleteToDecline(false));
    RunOneMore(e, 1);
    assert Run(e[..2]) == PROPOSED.(a := DeleteToDecline(false), b := SetPending);
    RunOneMore(e, 2);
    RunOneMore(e, 3);
  }

  const OVERTAKING: seq<(Side, Event)> :=
    [(B, Call(Accept)), (A, Call(Decline)), (A, Command), (B, Command), (B, Command), (B, Command)]

  lemma DeclineOvertakes()
    ensures Run(OVERTAKING[..3]) == State(Absent, Absent, Idle, SetPending, [Declined(A, false)])
  {
    var e := OVERTAKING;
    assert e[..0] == [];
    RunOneMore(e, 0);
    assert Run(e[..1]) == PROPOSED.(b := SetPending);
    RunOneMore(e, 1);
    assert Run(e[..2]) == PROPOSED.(a := DeleteToDecline(false), b := SetPending);
    RunOneMore(e, 2);
  }

  /** Or the write comes after the delete: B's Accept, already past its read, recreates the
      hashes, finds itself waiting and returns, while nobody waits for it. */
  lemma LateAcceptorIsDropped()
    ensures Run(OVERTAKING).outcomes == [Declined(A, false)] && WritesAt(OVERTAKING, 3, B)
    ensures Run(OVERTAKING).a.Idle? && Run(OVERTAKING).b.Idle?
  {
    var e := OVERTAKING;
    DeclineOvertakes();
    RunOneMore(e, 3);
    var late := Present(Record(false, false, true));
    assert Run(e[..4]) == State(late, Absent, Idle, SetShadow, [Declined(A, false)]);
    RunOneMore(e, 4);
    assert Run(e[..5]) == State(late, late, Idle, Reload, [Declined(A, false)]);
    RunOneMore(e, 5);
    assert e[..6] == e;
  }

  lemma WritesOneMore(events: seq<(Side, Event)>, k: nat, p: Side)
    requires k < |events|
    ensures Writes(events[..k + 1], p)
         == Writes(events[..k], p) + if events[k] == (p, Command) && PhaseOf(Run(events[..k]), p).SetPending? then 1 else 0
  {
    assert events[..k + 1][..k] == events[..k];
  }
}
