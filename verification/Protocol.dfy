/**
 * The join protocol, one external call at a time. A handler (internal/consumer/consumer.go), a timeout manager
 * (internal/timeout/manager.go) and a delay flusher (internal/delay/queue.go) share one World: the row store,
 * the Bloom filter, the timeout and partially-published sets, the delay queue and the produced messages. Each
 * program counter names the call about to be made; the reply to that call picks the next one.
 */
module Protocol {
  import opened Base
  import opened JoinConfig
  import opened Projection

  type Hash = Bytes

  /** A record whose stream header and join key have been read. */
  datatype Event = Event(hash: Hash, raw: string, stream: string, payload: Payload, msgKey: Bytes)

  datatype Row = Row(raw: string, cells: Cells)

  /** The join of one handler or of the delay queue, the partial of a timeout, or the correction of a late arrival. */
  datatype Kind = Main | Delayed | Partial | Late

  /**
   * A produced message: its Kafka key and text, the correction's join_key when it is one, and, to reason about
   * where it came from, the row hash and participants that were projected.
   */
  datatype Sent = Sent(kind: Kind, key: Bytes, text: string, joinKey: string, hash: Hash, cells: Cells)

  datatype Item = Item(hash: Hash, text: string, msgKey: Bytes, publishAt: int, cells: Cells)

  /** `bloom` holds the keys the filter answers "maybe seen" for: those added, and those their bits collide with. */
  datatype World = World(
    rows: map<Hash, Row>,
    bloom: set<Hash>,
    timeouts: map<Hash, int>,
    tracker: set<Hash>,
    queue: seq<Item>,
    out: seq<Sent>)

  /** A join definition together with the optional collaborators the handler was built with. */
  datatype Setup = Setup(
    join: JoinConfig,
    decode: Decoder,
    bloom: bool,
    scheduler: bool,
    tracker: bool,
    corrections: bool,
    delayQueue: bool,
    durable: bool,
    producer: bool)
  {
    function N(): nat { join.N() }
    predicate Partials() { join.egress == EGRESS_PARTIAL }
    predicate Schedules() { scheduler && join.ttl > 0 }
    predicate Corrects() { tracker && corrections }
    predicate Delays() { delayQueue && join.postJoinDelay > 0 }
    function Doc(cells: Cells): Option<string> { Applied(decode, cells, join.projection) }
  }

  /** A call succeeds, takes effect but reports an error, or fails without effect. */
  datatype Outcome = Done | LostReply | Refused

  /** A reply also carries the keys a Bloom insertion makes false positives, and the clock, in nanoseconds. */
  datatype Reply = Reply(outcome: Outcome, collisions: set<Hash>, at: int) {
    predicate Fine() { outcome == Done }
    predicate Took() { outcome != Refused }
  }

  function CellsAt(w: World, h: Hash): Cells {
    if h in w.rows then w.rows[h].cells else map[]
  }

  function RowAt(w: World, h: Hash): Option<Row> {
    if h in w.rows then Some(w.rows[h]) else None
  }

  function Upsert(w: World, e: Event): World {
    w.(rows := w.rows[e.hash := Row(e.raw, CellsAt(w, e.hash)[e.stream := e.payload])])
  }

  function Delete(w: World, h: Hash): World {
    w.(rows := w.rows - {h})
  }

  function Produce(w: World, m: Sent): World {
    w.(out := w.out + [m])
  }

  /** Row TTLs are per cell; a row without cells is gone. */
  function Expire(w: World, h: Hash, streams: set<string>): World {
    var cells := CellsAt(w, h) - streams;
    if h !in w.rows || cells == map[] then Delete(w, h) else w.(rows := w.rows[h := Row(w.rows[h].raw, cells)])
  }

  const EMPTY_WORLD := World(map[], {}, map[], {}, [], [])

  // ---------- the handler ----------

  datatype Pc =
    | Exists(e: Event)
    | WriteOnly(e: Event)
    | Add(e: Event)
    | Schedule(e: Event)
    | Write(e: Event)
    | Read(e: Event)
    | Contains(e: Event, row: Row)
    | Correct(e: Event, row: Row, text: string)
    | Forget(e: Event)
    | DropLate(e: Event)
    | Enqueue(e: Event, cells: Cells, text: string)
    | Publish(e: Event, cells: Cells, text: string)
    | Drop(e: Event)
    | Ended(e: Event, ok: bool)

  function Start(c: Setup, e: Event): Pc {
    if c.bloom then Exists(e) else Write(e)
  }

  /** The engine's decision on the row read back, and where a complete join goes. */
  function Completion(c: Setup, e: Event, row: Option<Row>): Pc {
    if row.None? || |row.value.cells| < c.N() then Ended(e, true) else
    match c.Doc(row.value.cells)
    case None => Ended(e, false)
    case Some(text) =>
      if |text| == 0 then Ended(e, true)
      else if c.Delays() then Enqueue(e, row.value.cells, text)
      else Publish(e, row.value.cells, text)
  }

  function AfterRead(c: Setup, e: Event, row: Option<Row>): Pc {
    if row.Some? && |row.value.cells| < c.N() && c.Corrects() then Contains(e, row.value) else Completion(c, e, row)
  }

  function Correction(c: Setup, e: Event, row: Row): Pc {
    match c.Doc(row.cells)
    case None => Ended(e, false)
    case Some(text) => Correct(e, row, text)
  }

  predicate SameMember(a: Item, b: Item) {
    a.hash == b.hash && a.text == b.text && a.msgKey == b.msgKey
  }

  function Without(queue: seq<Item>, item: Item): (r: seq<Item>)
    ensures forall i | i in r :: i in queue && !SameMember(i, item)
  {
    if queue == [] then [] else
    (if SameMember(queue[0], item) then [] else [queue[0]]) + Without(queue[1..], item)
  }

  lemma {:induction false} WithoutOthers(queue: seq<Item>, item: Item)
    ensures forall i | i in queue :: i in Without(queue, item) || SameMember(i, item)
  {
    if queue != [] {
      WithoutOthers(queue[1..], item);
      assert queue == [queue[0]] + queue[1..];
    }
  }

  /** ZADD replaces an item with the same member text; the in-memory queue just appends. */
  function Enqueued(c: Setup, queue: seq<Item>, item: Item): seq<Item> {
    (if c.durable then Without(queue, item) else queue) + [item]
  }

  /** time.Unix: the seconds of a clock in nanoseconds, rounded down. */
  function UnixSeconds(t: int): int {
    t / 1_000_000_000
  }

  /** The score of a key whose timeout is scheduled at this clock. */
  function Deadline(c: Setup, now: int): int {
    UnixSeconds(now + c.join.ttl)
  }

  /** What goes into the delay queue at this clock. */
  function JoinItem(c: Setup, e: Event, cells: Cells, text: string, now: int): Item {
    Item(e.hash, text, e.msgKey, now + c.join.postJoinDelay, cells)
  }

  function HandlerStep(c: Setup, w: World, pc: Pc, r: Reply): (World, Pc) {
    match pc
    case Exists(e) =>
      (w, if !r.Fine() then Ended(e, false) else if e.hash in w.bloom then Write(e) else WriteOnly(e))
    case WriteOnly(e) =>
      (if r.Took() then Upsert(w, e) else w, if r.Fine() then Add(e) else Ended(e, false))
    case Add(e) =>
      (if r.Took() then w.(bloom := w.bloom + {e.hash} + r.collisions) else w,
       if !r.Fine() then Ended(e, false) else if c.Schedules() then Schedule(e) else Ended(e, true))
    case Schedule(e) =>
      (if r.Took() then w.(timeouts := w.timeouts[e.hash := Deadline(c, r.at)]) else w, Ended(e, true))
    case Write(e) =>
      (if r.Took() then Upsert(w, e) else w, if r.Fine() then Read(e) else Ended(e, false))
    case Read(e) =>
      (w, if r.Fine() then AfterRead(c, e, RowAt(w, e.hash)) else Ended(e, false))
    case Contains(e, row) =>
      (w, if r.Fine() && e.hash in w.tracker then Correction(c, e, row) else Completion(c, e, Some(row)))
    case Correct(e, row, text) =>
      var m := Sent(Late, e.hash, text, row.raw, e.hash, row.cells);
      (if c.producer && r.Took() then Produce(w, m) else w, Forget(e))
    case Forget(e) =>
      (if r.Took() then w.(tracker := w.tracker - {e.hash}) else w, DropLate(e))
    case DropLate(e) =>
      (if r.Took() then Delete(w, e.hash) else w, Ended(e, true))
    case Enqueue(e, cells, text) =>
      var item := JoinItem(c, e, cells, text, r.at);
      (if r.Took() || !c.durable then w.(queue := Enqueued(c, w.queue, item)) else w,
       Ended(e, true))
    case Publish(e, cells, text) =>
      if !c.producer then (w, Drop(e)) else
      (if r.Took() then Produce(w, Sent(Main, e.msgKey, text, "", e.hash, cells)) else w,
       if r.Fine() then Drop(e) else Ended(e, false))
    case Drop(e) =>
      (if r.Took() then Delete(w, e.hash) else w, Ended(e, r.Fine()))
    case Ended(_, _) => (w, pc)
  }

  // ---------- the timeout manager ----------

  /** Where processDue is in its batch: `h` is the member at hand, `rest` the members after it. */
  datatype Mpc =
    | Resting
    | Get(h: Hash, rest: seq<Hash>)
    | PublishPartial(h: Hash, rest: seq<Hash>, cells: Cells, text: string)
    | Track(h: Hash, rest: seq<Hash>)
    | DropRow(h: Hash, rest: seq<Hash>)
    | Unschedule(h: Hash, rest: seq<Hash>)

  function NextMember(rest: seq<Hash>): Mpc {
    if rest == [] then Resting else Get(rest[0], rest[1..])
  }

  function Tracked(c: Setup, h: Hash, rest: seq<Hash>): Mpc {
    if c.tracker then Track(h, rest) else DropRow(h, rest)
  }

  function Expired(c: Setup, h: Hash, rest: seq<Hash>, row: Option<Row>): Mpc {
    if row.None? || |row.value.cells| >= c.N() then Unschedule(h, rest)
    else if !c.Partials() then DropRow(h, rest)
    else match c.Doc(row.value.cells)
      case None => NextMember(rest)
      case Some(text) => if c.producer then PublishPartial(h, rest, row.value.cells, text) else Tracked(c, h, rest)
  }

  function ManagerStep(c: Setup, w: World, m: Mpc, r: Reply): (World, Mpc) {
    match m
    case Resting => (w, m)
    case Get(h, rest) => (w, Expired(c, h, rest, if r.Fine() then RowAt(w, h) else None))
    case PublishPartial(h, rest, cells, text) =>
      (if r.Took() then Produce(w, Sent(Partial, h, text, "", h, cells)) else w,
       if r.Fine() then Tracked(c, h, rest) else NextMember(rest))
    case Track(h, rest) => (if r.Took() then w.(tracker := w.tracker + {h}) else w, DropRow(h, rest))
    case DropRow(h, rest) => (if r.Took() then Delete(w, h) else w, Unschedule(h, rest))
    case Unschedule(h, rest) => (if r.Took() then w.(timeouts := w.timeouts - {h}) else w, NextMember(rest))
  }

  function DueKeys(timeouts: map<Hash, int>, now: int): set<Hash> {
    set h | h in timeouts && timeouts[h] <= now
  }

  /** What ZRANGEBYSCORE -inf now LIMIT 0 limit may answer: the due members of lowest score, each once. */
  predicate IsBatch(timeouts: map<Hash, int>, now: int, limit: nat, members: seq<Hash>) {
    && (forall i, j | 0 <= i < j < |members| :: members[i] != members[j])
    && (forall h | h in members :: h in DueKeys(timeouts, now))
    && |members| == (if |DueKeys(timeouts, now)| < limit then |DueKeys(timeouts, now)| else limit)
    && (forall h, k | h in members && k in DueKeys(timeouts, now) && k !in members :: timeouts[h] <= timeouts[k])
  }

  // ---------- the delay flusher ----------

  datatype Fpc =
    | Quiet
    | Flush(item: Item, rest: seq<Item>)
    | Clear(item: Item, rest: seq<Item>)
    | Dequeue(item: Item, rest: seq<Item>)

  function NextItem(rest: seq<Item>): Fpc {
    if rest == [] then Quiet else Flush(rest[0], rest[1..])
  }

  function Flushed(c: Setup, item: Item, rest: seq<Item>): Fpc {
    if c.durable then Dequeue(item, rest) else NextItem(rest)
  }

  function FlusherStep(c: Setup, w: World, f: Fpc, r: Reply): (World, Fpc) {
    match f
    case Quiet => (w, f)
    case Flush(item, rest) =>
      if !c.producer then (w, Clear(item, rest)) else
      (if r.Took() then Produce(w, Sent(Delayed, item.msgKey, item.text, "", item.hash, item.cells)) else w,
       if r.Fine() then Clear(item, rest) else Flushed(c, item, rest))
    case Clear(item, rest) => (if r.Took() then Delete(w, item.hash) else w, Flushed(c, item, rest))
    case Dequeue(item, rest) => (if r.Took() then w.(queue := Without(w.queue, item)) else w, NextItem(rest))
  }
}
