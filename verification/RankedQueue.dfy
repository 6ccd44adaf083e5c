/** The ranked queue's confirmation protocol with each service call as one step: proposals,
    acceptances, declines and expiries over hashes that expire. Times are in milliseconds. */
module RankedQueue {
  import opened QueuePenalty

  const CONFIRMATION_WINDOW: nat := 30000
  const SHADOW_LIFE: nat := 60000

  // ---------------------------------------------------------------------------
  // Redis hashes
  // ---------------------------------------------------------------------------

  datatype Expiry = Never | At(time: nat)

  /** Player 0 stands for a missing id, which no player has. */
  datatype Hash = Hash(playerA: nat, playerB: nat, acceptedA: bool, acceptedB: bool, expiry: Expiry)

  datatype Key = Absent | Present(hash: Hash)

  type Player = p: nat | 0 < p witness 1

  predicate Live(k: Key, now: nat) {
    k.Present? && (k.hash.expiry.Never? || now < k.hash.expiry.time)
  }

  function Accepting(h: Hash, first: bool): Hash {
    if first then h.(acceptedA := true) else h.(acceptedB := true)
  }

  /** HSET of an acceptance: a missing hash is created, without players and without expiry. */
  function HSet(k: Key, now: nat, first: bool): Key {
    Present(Accepting(if Live(k, now) then k.hash else Hash(0, 0, false, false, Never), first))
  }

  // ---------------------------------------------------------------------------
  // One match
  // ---------------------------------------------------------------------------

  datatype Task = NoTask | Due(at: nat)

  datatype Outcome = Started | Declined(decliner: nat) | Expired

  /** A proposed match: its two hashes, its expiry task, and a history of who said yes and of
      how it was resolved. */
  datatype Ticket = Ticket(a: Player, b: Player, bornAt: nat, pending: Key, shadow: Key, task: Task,
                           said: set<nat>, outcomes: seq<Outcome>)

  datatype Reply = NotFound | NotParticipant | Waiting | Done

  function NewTicket(a: Player, b: Player, now: nat): Ticket {
    Ticket(a, b, now, Present(Hash(a, b, false, false, At(now + CONFIRMATION_WINDOW))),
           Present(Hash(a, b, false, false, At(now + SHADOW_LIFE))), Due(now + CONFIRMATION_WINDOW), {}, [])
  }

  /** Both hashes and the expiry task are removed. */
  function Close(k: Ticket, o: Outcome): Ticket {
    k.(pending := Absent, shadow := Absent, task := NoTask, outcomes := k.outcomes + [o])
  }

  /** What a call by `p` finds in the pending hash. */
  function Check(k: Ticket, p: Player, now: nat): Reply {
    if !Live(k.pending, now) then NotFound
    else if p != k.pending.hash.playerA && p != k.pending.hash.playerB then NotParticipant
    else Waiting
  }

  function Mark(k: Ticket, p: Player, now: nat): Ticket
    requires k.pending.Present?
  {
    var first := p == k.pending.hash.playerA;
    k.(pending := HSet(k.pending, now, first), shadow := HSet(k.shadow, now, first), said := k.said + {p})
  }

  predicate BothSaidYes(k: Key) {
    k.Present? && k.hash.acceptedA && k.hash.acceptedB
  }

  function AcceptTicket(k: Ticket, p: Player, now: nat): Ticket {
    if Check(k, p, now) != Waiting then k
    else
      var marked := Mark(k, p, now);
      if BothSaidYes(marked.pending) then Close(marked, Started) else marked
  }

  function DeclineTicket(k: Ticket, p: Player, now: nat): Ticket {
    if Check(k, p, now) != Waiting then k else Close(k, Declined(p))
  }

  /** The expiry task: it reads and removes the shadow. */
  function ExpireTicket(k: Ticket, now: nat): Ticket {
    if Live(k.shadow, now) then k.(shadow := Absent, task := NoTask, outcomes := k.outcomes + [Expired])
    else k.(task := NoTask)
  }

  // ---------------------------------------------------------------------------
  // The store
  // ---------------------------------------------------------------------------

  /** `charges` is the history of penalties: who and when. */
  datatype Store = Store(now: nat, queue: set<nat>, tickets: map<nat, Ticket>, penalties: map<nat, Penalty>,
                         charges: seq<(nat, nat)>)

  const EMPTY: Store := Store(0, {}, map[], map[], [])

  function PenaltyOf(s: Store, p: nat): Penalty {
    if p in s.penalties then s.penalties[p] else CLEAN
  }

  predicate IsBanned(s: Store, p: nat) {
    Banned(PenaltyOf(s, p), s.now)
  }

  function Enqueue(s: Store, p: nat): Store {
    if IsBanned(s, p) || p in s.queue then s else s.(queue := s.queue + {p})
  }

  function Penalise(s: Store, p: nat): Store {
    s.(penalties := s.penalties[p := Record(PenaltyOf(s, p), s.now)], charges := s.charges + [(p, s.now)])
  }

  function Put(s: Store, m: nat, k: Ticket): Store {
    s.(tickets := s.tickets[m := k])
  }

  /** What follows a decline: the other player is queued again after accepting, and the
      decliner is penalised. */
  function AfterDecline(s: Store, h: Hash, p: nat): Store {
    var other, accepted := if p == h.playerB then h.playerA else h.playerB, if p == h.playerB then h.acceptedA else h.acceptedB;
    Penalise(if accepted then Enqueue(s, other) else s, p)
  }

  /** What follows an expiry: a lone acceptor is queued again and the other is penalised. */
  function AfterExpiry(s: Store, h: Hash): Store {
    if h.acceptedA && !h.acceptedB then Penalise(Enqueue(s, h.playerA), h.playerB)
    else if !h.acceptedA && h.acceptedB then Penalise(Enqueue(s, h.playerB), h.playerA)
    else s
  }

  datatype Op =
    | Join(p: Player)
    | Leave(p: Player)
    | Propose(m: nat, a: Player, b: Player)
    | Accept(p: Player, m: nat)
    | Decline(p: Player, m: nat)
    | Expire(m: nat)
    | Tick(ms: nat)

  /** A proposal takes two queued players and a fresh id. */
  predicate CanPropose(s: Store, m: nat, a: nat, b: nat) {
    m !in s.tickets && a != b && a in s.queue && b in s.queue
  }

  predicate CanExpire(s: Store, m: nat) {
    m in s.tickets && s.tickets[m].task.Due? && s.tickets[m].task.at <= s.now
  }

  function DoPropose(s: Store, m: nat, a: Player, b: Player): Store {
    if CanPropose(s, m, a, b) then Put(s.(queue := s.queue - {a, b}), m, NewTicket(a, b, s.now)) else s
  }

  function DoAccept(s: Store, p: Player, m: nat): Store {
    if m in s.tickets then Put(s, m, AcceptTicket(s.tickets[m], p, s.now)) else s
  }

  function DoDecline(s: Store, p: Player, m: nat): Store {
    if m !in s.tickets || Check(s.tickets[m], p, s.now) != Waiting then s
    else AfterDecline(Put(s, m, DeclineTicket(s.tickets[m], p, s.now)), s.tickets[m].pending.hash, p)
  }

  function DoExpire(s: Store, m: nat): Store {
    if !CanExpire(s, m) then s
    else
      var k := s.tickets[m];
      var t := Put(s, m, ExpireTicket(k, s.now));
      if Live(k.shadow, s.now) then AfterExpiry(t, k.shadow.hash) else t
  }

  function Step(s: Store, op: Op): Store {
    match op
    case Join(p) => Enqueue(s, p)
    case Leave(p) => s.(queue := s.queue - {p})
    case Propose(m, a, b) => DoPropose(s, m, a, b)
    case Accept(p, m) => DoAccept(s, p, m)
    case Decline(p, m) => DoDecline(s, p, m)
    case Expire(m) => DoExpire(s, m)
    case Tick(ms) => s.(now := s.now + ms)
  }

  function Run(ops: seq<Op>): Store {
    if ops == [] then EMPTY else Step(Run(ops[..|ops| - 1]), ops[|ops| - 1])
  }

  // ---------------------------------------------------------------------------
  // The invariant of one match
  // ---------------------------------------------------------------------------

  /** A hash names the players of the match, shows who said yes, and not both have. */
  ghost predicate Truthful(k: Ticket, h: Hash, life: nat) {
    && h.playerA == k.a && h.playerB == k.b
    && h.acceptedA == (k.a in k.said) && h.acceptedB == (k.b in k.said)
    && !(h.acceptedA && h.acceptedB)
    && h.expiry == At(k.bornAt + life)
  }

  ghost predicate TicketInv(k: Ticket, now: nat) {
    && k.a != k.b && k.bornAt <= now
    && (Live(k.pending, now) ==> k.task.Due? && Truthful(k, k.pending.hash, CONFIRMATION_WINDOW))
    && (k.task.Due? ==> k.task == Due(k.bornAt + CONFIRMATION_WINDOW) && k.outcomes == [])
    && (k.task.Due? && now < k.bornAt + SHADOW_LIFE ==> Live(k.shadow, now))
    && (Live(k.shadow, now) ==> k.task.Due? && Truthful(k, k.shadow.hash, SHADOW_LIFE))
    && |k.outcomes| <= 1
    && (Started in k.outcomes ==> k.a in k.said && k.b in k.said)
  }

  ghost predicate Inv(s: Store) {
    forall m :: m in s.tickets ==> TicketInv(s.tickets[m], s.now)
  }

  lemma NewTicketInv(a: Player, b: Player, now: nat)
    requires a != b
    ensures TicketInv(NewTicket(a, b, now), now)
  {
  }

  lemma AcceptKeeps(k: Ticket, p: Player, now: nat)
    requires TicketInv(k, now)
    ensures TicketInv(AcceptTicket(k, p, now), now)
  {
  }

  lemma DeclineKeeps(k: Ticket, p: Player, now: nat)
    requires TicketInv(k, now)
    ensures TicketInv(DeclineTicket(k, p, now), now)
  {
  }

  lemma ExpireKeeps(k: Ticket, now: nat)
    requires TicketInv(k, now) && k.task.Due? && k.task.at <= now
    ensures TicketInv(ExpireTicket(k, now), now)
  {
  }

  lemma TickKeeps(k: Ticket, now: nat, later: nat)
    requires TicketInv(k, now) && now <= later
    ensures TicketInv(k, later)
  {
  }
}
