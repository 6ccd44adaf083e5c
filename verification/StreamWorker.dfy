/** The stream worker that feeds the ledger: at-least-once delivery with crashes, failed acks,
    reclaims and a dead-letter stream. Any delivered entry may be processed at any time and
    any number of times, so stale consumers are covered; processing itself is serialised. */
module StreamWorker {
  import opened RatingLedger

  const MAX_RETRIES: nat := 5

  /** A stream entry: without a payload field, with one that does not decode, or an event. */
  datatype Message = NoPayload | Garbage | Finished(evt: Event)

  /** What goes wrong while one entry is processed. */
  datatype Fault = Fault(
    crashEarly: bool,     // the worker dies before the handler takes effect
    skip: bool,           // the handler asks for no ack
    rollback: bool,       // the store fails and the transaction is rolled back
    commitUnclear: bool,  // the commit took effect but reported an error
    crashLate: bool,      // the worker dies after the handler
    ackFails: bool,
    countFails: bool,     // the delivery count cannot be read
    dlqFails: bool,
    dlqAckFails: bool)

  /** Entries are numbered by their place in the stream. `pending` is the group's list of
      unacknowledged entries, `deliveries` counts their deliveries. `commits` and `handled` are
      histories: entries whose processing committed, and entries the handler accepted. */
  datatype World = World(stream: seq<Message>, next: nat, pending: set<nat>, deliveries: map<nat, nat>, dlq: seq<nat>,
                         db: Db, commits: seq<nat>, handled: set<nat>)

  const START: World := World([], 0, {}, map[], [], FRESH, [], {})

  datatype Action = Publish(m: Message) | Read | Claim(id: nat) | Process(id: nat, fault: Fault)

  // ---------------------------------------------------------------------------
  // Delivery
  // ---------------------------------------------------------------------------

  function DeliveryCount(w: World, id: nat): nat {
    if id in w.pending && id in w.deliveries then w.deliveries[id] else 0
  }

  function Delivered(w: World, id: nat): World {
    w.(pending := w.pending + {id}, deliveries := w.deliveries[id := DeliveryCount(w, id) + 1])
  }

  /** XREADGROUP hands out the next entry. */
  function ReadNext(w: World): World {
    if w.next < |w.stream| then Delivered(w.(next := w.next + 1), w.next) else w
  }

  /** XAUTOCLAIM hands out an unacknowledged entry again. */
  function Reclaim(w: World, id: nat): World {
    if id in w.pending then Delivered(w, id) else w
  }

  function Ack(w: World, id: nat): World {
    w.(pending := w.pending - {id})
  }

  // ---------------------------------------------------------------------------
  // Processing
  // ---------------------------------------------------------------------------

  predicate CommitsNow(w: World, id: nat, f: Fault)
    requires id < |w.stream|
  {
    !f.rollback && w.stream[id].Finished? && Verdict(w.db, w.stream[id].evt) == Committed
  }

  /** The handler's effect on the store. */
  function Handle(eng: Engine, w: World, id: nat, f: Fault): World
    requires id < |w.stream|
  {
    if CommitsNow(w, id, f) then w.(db := After(eng, w.db, w.stream[id].evt), commits := w.commits + [id]) else w
  }

  /** The handler returns without an error. */
  predicate Accepts(w: World, id: nat, f: Fault)
    requires id < |w.stream|
  {
    w.stream[id].Finished? &&
    match Verdict(w.db, w.stream[id].evt)
    case Skipped => true
    case Failed => false
    case Duplicate => !f.rollback
    case Committed => !f.rollback && !f.commitUnclear
  }

  function ToDLQ(w: World, id: nat, f: Fault): World {
    if f.dlqFails then w
    else
      var copied := w.(dlq := w.dlq + [id]);
      if f.dlqAckFails then copied else Ack(copied, id)
  }

  /** After a handler error: retried later, or moved to the dead-letter stream. */
  function Retry(w: World, id: nat, f: Fault): World {
    if f.countFails || DeliveryCount(w, id) < MAX_RETRIES then w else ToDLQ(w, id, f)
  }

  function Settle(w: World, id: nat, f: Fault): World {
    var done := w.(handled := w.handled + {id});
    if f.ackFails then done else Ack(done, id)
  }

  /** `processMessage`. */
  function ProcessMessage(eng: Engine, w: World, id: nat, f: Fault): World
    requires id < |w.stream|
  {
    if f.crashEarly then w
    else if w.stream[id].NoPayload? then (if f.ackFails then w else Ack(w, id))
    else if f.skip then w
    else
      var after := Handle(eng, w, id, f);
      if f.crashLate then after
      else if Accepts(w, id, f) then Settle(after, id, f)
      else Retry(after, id, f)
  }

  function Step(eng: Engine, w: World, a: Action): World {
    match a
    case Publish(m) => w.(stream := w.stream + [m])
    case Read => ReadNext(w)
    case Claim(id) => Reclaim(w, id)
    case Process(id, f) => if id < w.next && id < |w.stream| then ProcessMessage(eng, w, id, f) else w
  }

  function Run(eng: Engine, actions: seq<Action>): World {
    if actions == [] then START else Step(eng, Run(eng, actions[..|actions| - 1]), actions[|actions| - 1])
  }
}
