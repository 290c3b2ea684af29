/**
 * One partition of the input topic consumed to its end (the loop of Run, internal/consumer/consumer.go), with
 * crashes between any two calls, redelivery from the committed offset, handlers that fail, commits that fail, cells
 * that expire, and timeout managers and delay flushers at work beside it. A handler's error skips its record. A commit
 * that fails for good ends Run, unless a later partition of the round overwrites the error; then the rest of the batch
 * is abandoned, as it is behind a record nobody handles. The commit of a later record passes over all of these.
 */
module Redelivery {
  import opened Base
  import opened Projection
  import opened Protocol
  import Provenance

  /**
   * A record is an event of this configuration, or it is not: it has no stream header or its payload is no JSON
   * object, or it names another configuration, or none that exists.
   */
  type Log = seq<Option<Event>>

  /**
   * `passed` has the offsets below the cursor that were passed over: their last delivery ended in an error, or they
   * were in the abandoned part of a batch. `faded` has the keys that have had a cell expire, `timed` those that a
   * manager has put on the tracker or taken a cell of, `dropped` those that had a settling join refused by its queue or
   * its topic, or in the memory of a process that ended.
   */
  datatype Partition = Partition(
    w: World,
    pc: Option<Pc>,
    managers: map<nat, Mpc>,
    flushers: map<nat, Fpc>,
    cursor: nat,
    committed: nat,
    passed: set<nat>,
    faded: set<Hash>,
    timed: set<Hash>,
    dropped: set<Hash>)

  /** A commit's outcome is that of all its attempts; `masked` says up to where a batch is left if its error is lost. */
  datatype Move =
    | Fetch
    | Call(r: Reply)
    | Finish(commit: Outcome, masked: Option<nat>)
    | Elsewhere(commit: Outcome, masked: Option<nat>)
    | Unrouted(commit: Outcome, hidden: bool, to: nat)
    | Crash
    | Fade(h: Hash, streams: set<string>)
    | Poll(m: nat, members: seq<Hash>)
    | Manage(m: nat, reply: Reply)
    | Halt(m: nat)
    | PollQueue(f: nat, items: seq<Item>, now: int)
    | RunFlush(f: nat, reply: Reply)
    | Quit(f: nat)

  /** The offsets from `lo` up to, not including, `hi`. */
  function Range(lo: nat, hi: nat): (r: set<nat>)
    ensures forall i :: i in r <==> lo <= i < hi
  {
    if hi <= lo then {} else Range(lo, hi - 1) + {hi - 1}
  }

  function Hashes(items: seq<Item>): set<Hash> {
    set i | i in items :: i.hash
  }

  /** The items a flusher has still to attempt. */
  function InHands(f: Fpc): seq<Item> {
    match f
    case Quiet => []
    case Flush(item, rest) => [item] + rest
    case Clear(_, rest) => rest
    case Dequeue(_, rest) => rest
  }

  /** The keys with a join in the delay queue; in memory, those a flusher has taken out of it are with the flusher. */
  function Waiting(c: Setup, p: Partition): set<Hash> {
    Hashes(p.w.queue) +
    if c.durable then {} else set f, i | f in p.flushers && i in InHands(p.flushers[f]) :: i.hash
  }

  /** The process ends: what its delay queue had in memory is gone, and the next one begins at the committed offset. */
  function Restart(c: Setup, p: Partition): Partition {
    var q := p.(pc := None, cursor := p.committed, passed := set i | i in p.passed && i < p.committed);
    if c.durable then q
    else q.(w := p.w.(queue := []), flushers := map[], dropped := p.dropped + Waiting(c, p))
  }

  function Skip(p: Partition): Partition {
    p.(pc := None, cursor := p.cursor + 1, passed := p.passed + {p.cursor})
  }

  function BatchEnd(log: Log, p: Partition, to: nat): nat {
    if to <= p.cursor then p.cursor + 1 else if to <= |log| then to else |log|
  }

  /** The record at the cursor is done with, and the rest of its batch, up to `to`, is abandoned. */
  function Leave(log: Log, p: Partition, to: nat): Partition {
    var end := BatchEnd(log, p, to);
    p.(pc := None, cursor := end, passed := p.passed + Range(p.cursor + 1, end))
  }

  function Committed(p: Partition, commit: Outcome): Partition {
    if commit == Refused then p else p.(committed := p.cursor + 1)
  }

  /** commitWithRetry for the record at the cursor, and what its error leads to. */
  function Commit(c: Setup, log: Log, p: Partition, commit: Outcome, masked: Option<nat>): Partition {
    var q := Committed(p, commit);
    if commit == Done then q.(pc := None, cursor := p.cursor + 1)
    else match masked
      case None => Restart(c, q)
      case Some(to) => Leave(log, q, to)
  }

  /** The durable queue refuses the join; its handler takes no notice. */
  function Unqueued(c: Setup, pc: Pc, r: Reply): set<Hash> {
    if pc.Enqueue? && c.durable && !r.Took() then {pc.e.hash} else {}
  }

  function Called(c: Setup, p: Partition, pc: Pc, r: Reply): Partition {
    var (w, next) := HandlerStep(c, p.w, pc, r);
    p.(w := w, pc := Some(next), dropped := p.dropped + Unqueued(c, pc, r))
  }

  function ManagerAt(p: Partition, m: nat): Mpc {
    if m in p.managers then p.managers[m] else Resting
  }

  /** The key that this call puts on the tracker, or takes cells of. */
  function TimedBy(w: World, m: Mpc, r: Reply): set<Hash> {
    match m
    case Track(h, _) => if r.Took() then {h} else {}
    case DropRow(h, _) => if r.Took() && CellsAt(w, h) != map[] then {h} else {}
    case _ => {}
  }

  function Managed(c: Setup, p: Partition, m: nat, r: Reply): Partition {
    var (w, pc) := ManagerStep(c, p.w, ManagerAt(p, m), r);
    p.(w := w, managers := p.managers[m := pc], timed := p.timed + TimedBy(p.w, ManagerAt(p, m), r))
  }

  function FlusherAt(p: Partition, f: nat): Fpc {
    if f in p.flushers then p.flushers[f] else Quiet
  }

  /** A flusher that rests takes what is due out of the memory, or reads these members of the durable queue. */
  function Polled(c: Setup, p: Partition, f: nat, items: seq<Item>, now: int): Partition {
    if FlusherAt(p, f) != Quiet then p
    else if !c.durable then
      p.(w := p.w.(queue := Provenance.Later(p.w.queue, now)),
         flushers := p.flushers[f := NextItem(Provenance.Due(p.w.queue, now))])
    else if forall i | i in items :: i in p.w.queue then p.(flushers := p.flushers[f := NextItem(items)])
    else p
  }

  /** The topic refuses the join. */
  function Unsent(f: Fpc, r: Reply): set<Hash> {
    if f.Flush? && !r.Took() then {f.item.hash} else {}
  }

  function Attempted(c: Setup, p: Partition, f: nat, r: Reply): Partition {
    var (w, pc) := FlusherStep(c, p.w, FlusherAt(p, f), r);
    p.(w := w, flushers := p.flushers[f := pc], dropped := p.dropped + Unsent(FlusherAt(p, f), r))
  }

  /** A flusher dies. */
  function Quitted(c: Setup, p: Partition, f: nat): Partition {
    p.(flushers := p.flushers - {f}, dropped := p.dropped + if c.durable then {} else Hashes(InHands(FlusherAt(p, f))))
  }

  /** One move of the consumer, of a timeout manager, of a delay flusher, or of the environment. */
  function Step(c: Setup, log: Log, p: Partition, move: Move): Partition {
    match move
    case Fetch =>
      if p.pc.Some? || p.cursor >= |log| then p
      else if log[p.cursor].None? then Skip(p)
      else p.(pc := Some(Start(c, log[p.cursor].value)))
    case Call(r) => if p.pc.None? then p else Called(c, p, p.pc.value, r)
    case Finish(commit, masked) =>
      if p.pc.None? || !p.pc.value.Ended? then p
      else if !p.pc.value.ok then Skip(p)
      else Commit(c, log, p, commit, masked)
    case Elsewhere(commit, masked) =>
      if p.pc.Some? || p.cursor >= |log| || log[p.cursor].Some? then p else Commit(c, log, p, commit, masked)
    case Unrouted(commit, hidden, to) =>
      if p.pc.Some? || p.cursor >= |log| || log[p.cursor].Some? then p
      else if commit == Done || hidden then Leave(log, Committed(p, commit), to)
      else Restart(c, Committed(p, commit))
    case Crash => Restart(c, p)
    case Fade(h, streams) =>
      p.(w := Expire(p.w, h, streams),
         faded := if CellsAt(p.w, h).Keys * streams != {} then p.faded + {h} else p.faded)
    case Poll(m, members) =>
      if ManagerAt(p, m) == Resting && forall h | h in members :: h in p.w.timeouts
      then p.(managers := p.managers[m := NextMember(members)]) else p
    case Manage(m, reply) => Managed(c, p, m, reply)
    case Halt(m) => p.(managers := p.managers - {m})
    case PollQueue(f, items, now) => Polled(c, p, f, items, now)
    case RunFlush(f, reply) => Attempted(c, p, f, reply)
    case Quit(f) => Quitted(c, p, f)
  }

  const FRESH := Partition(EMPTY_WORLD, None, map[], map[], 0, 0, {}, {}, {}, {})

  function Run(c: Setup, log: Log, moves: seq<Move>): Partition {
    if moves == [] then FRESH else Step(c, log, Run(c, log, moves[..|moves| - 1]), moves[|moves| - 1])
  }

  // ---------- the log ----------

  predicate Mine(log: Log, k: Hash, i: nat) {
    i < |log| && log[i].Some? && log[i].value.hash == k
  }

  /** At most one record per key and stream, from configured streams, every usable payload decodable. */
  predicate GoodLog(c: Setup, log: Log) {
    && (forall i | 0 <= i < |log| && log[i].Some? ::
          log[i].value.stream in c.join.streamIDs && c.decode(log[i].value.payload).Some?)
    && (forall i, j | 0 <= i < j < |log| && log[i].Some? && log[j].Some? ::
          log[i].value.hash != log[j].value.hash || log[i].value.stream != log[j].value.stream)
  }

  /** The join definition and collaborators this chapter is about: at least two distinct streams, and a producer. */
  predicate GoodSetup(c: Setup) {
    c.N() >= 2 && c.join.DistinctStreams() && c.producer
  }

  predicate Arrived(log: Log, k: Hash, stream: string, n: nat) {
    exists i :: 0 <= i < n && Mine(log, k, i) && log[i].value.stream == stream
  }

  /** All N streams of a key have a record before offset `n`. */
  predicate AllBelow(c: Setup, log: Log, k: Hash, n: nat) {
    forall s | s in c.join.streamIDs :: Arrived(log, k, s, n)
  }

  predicate NoneBelow(log: Log, k: Hash, n: nat) {
    forall i | 0 <= i < n :: !Mine(log, k, i)
  }

  /** Published by a handler, or by a flusher after its settle delay. */
  predicate IsJoin(m: Sent) {
    m.kind == Main || m.kind == Delayed
  }

  predicate Published(out: seq<Sent>, k: Hash) {
    exists j :: 0 <= j < |out| && IsJoin(out[j]) && out[j].hash == k
  }

  /** The join of this key has been published, or is waiting in the delay queue. */
  predicate Joined(c: Setup, p: Partition, k: Hash) {
    Published(p.w.out, k) || k in Waiting(c, p)
  }

  /** No cell of this key has expired, no manager has tracked it or taken a cell of it, no join of it was dropped. */
  predicate Spared(p: Partition, k: Hash) {
    k !in p.faded && k !in p.timed && k !in p.dropped
  }

  /** And no record of it before offset `n` has been passed over. */
  predicate CleanBelow(log: Log, p: Partition, k: Hash, n: nat) {
    Spared(p, k) && forall i | i in p.passed && i < n :: !Mine(log, k, i)
  }

  // ---------- publications ----------

  lemma PublishedGrows(out: seq<Sent>, m: Sent, k: Hash)
    ensures Published(out + [m], k) <==> Published(out, k) || (IsJoin(m) && m.hash == k)
  {
    if Published(out, k) {
      var j :| 0 <= j < |out| && IsJoin(out[j]) && out[j].hash == k;
      assert (out + [m])[j] == out[j];
    }
    assert (out + [m])[|out|] == m;
    if Published(out + [m], k) {
      var j :| 0 <= j < |out + [m]| && IsJoin((out + [m])[j]) && (out + [m])[j].hash == k;
      assert j < |out| ==> out[j].hash == k;
    }
  }

  /** Which keys a handler's call publishes. */
  lemma CallPublishes(c: Setup, w: World, pc: Pc, r: Reply, k: Hash)
    ensures var v := HandlerStep(c, w, pc, r).0;
      Published(v.out, k) <==> Published(w.out, k) || (pc.Publish? && c.producer && r.Took() && pc.e.hash == k)
  {
    if pc.Publish? { PublishedGrows(w.out, Sent(Main, pc.e.msgKey, pc.text, "", pc.e.hash, pc.cells), k); }
    if pc.Correct? { PublishedGrows(w.out, Sent(Late, pc.e.hash, pc.text, pc.row.raw, pc.e.hash, pc.row.cells), k); }
  }

  lemma ManagerPublishes(c: Setup, w: World, m: Mpc, r: Reply, k: Hash)
    ensures var v := ManagerStep(c, w, m, r).0; Published(v.out, k) <==> Published(w.out, k)
  {
    if m.PublishPartial? { PublishedGrows(w.out, Sent(Partial, m.h, m.text, "", m.h, m.cells), k); }
  }

  lemma FlusherPublishes(c: Setup, w: World, f: Fpc, r: Reply, k: Hash)
    ensures var v := FlusherStep(c, w, f, r).0;
      Published(v.out, k) <==> Published(w.out, k) || (f.Flush? && c.producer && r.Took() && f.item.hash == k)
  {
    if f.Flush? {
      PublishedGrows(w.out, Sent(Delayed, f.item.msgKey, f.item.text, "", f.item.hash, f.item.cells), k);
    }
  }

  // ---------- the delay queue ----------

  /** A new join waits with the others; a member it replaces is of the same key. */
  lemma EnqueuedHashes(c: Setup, queue: seq<Item>, item: Item)
    ensures Hashes(Enqueued(c, queue, item)) == Hashes(queue) + {item.hash}
  {
    var after := Enqueued(c, queue, item);
    WithoutOthers(queue, item);
    forall h ensures h in Hashes(after) <==> h in Hashes(queue) + {item.hash} {
      if i :| i in queue && i.hash == h { assert i in after || i.hash == item.hash; }
      assert item in after;
    }
  }

  lemma {:induction false} DueOrLater(queue: seq<Item>, now: int)
    ensures forall i | i in queue :: i in Provenance.Due(queue, now) || i in Provenance.Later(queue, now)
  {
    if queue != [] {
      DueOrLater(queue[1..], now);
      assert queue == [queue[0]] + queue[1..];
    }
  }

  lemma InHandsNext(c: Setup, item: Item, rest: seq<Item>)
    ensures InHands(NextItem(rest)) == rest && InHands(Flushed(c, item, rest)) == rest
  {
  }

  // ---------- soundness: rows, joins and publications come from the log ----------

  predicate InLog(log: Log, k: Hash, stream: string, payload: Payload) {
    exists i :: 0 <= i < |log| && Mine(log, k, i) && log[i].value.stream == stream && log[i].value.payload == payload
  }

  predicate FromLog(log: Log, k: Hash, cells: Cells) {
    forall s | s in cells :: InLog(log, k, s, cells[s])
  }

  /** These participants are enough, and this is their document. */
  predicate IsFull(c: Setup, log: Log, k: Hash, cells: Cells, text: string) {
    FromLog(log, k, cells) && |cells| >= c.N() && c.Doc(cells) == Some(text)
  }

  /** Keys are scheduled for a timeout. */
  predicate Times(c: Setup) {
    c.bloom && c.Schedules()
  }

  predicate SoundPc(c: Setup, log: Log, pc: Pc) {
    match pc
    case Exists(_) => c.bloom
    case WriteOnly(_) => c.bloom
    case Add(_) => c.bloom
    case Schedule(_) => Times(c)
    case Contains(e, row) => FromLog(log, e.hash, row.cells) && |row.cells| < c.N()
    case Publish(e, cells, text) => IsFull(c, log, e.hash, cells, text) && !c.Delays()
    case Enqueue(e, cells, text) => IsFull(c, log, e.hash, cells, text) && c.Delays()
    case _ => true
  }

  /** What is published as a join is one, after its settle delay if there is one. */
  predicate SoundMessage(c: Setup, log: Log, m: Sent) {
    && (IsJoin(m) ==> IsFull(c, log, m.hash, m.cells, m.text))
    && (m.kind == Main ==> !c.Delays()) && (m.kind == Delayed ==> c.Delays())
  }

  predicate SoundItems(c: Setup, log: Log, items: seq<Item>) {
    forall i | i in items :: IsFull(c, log, i.hash, i.cells, i.text) && c.Delays()
  }

  predicate SoundWorld(c: Setup, log: Log, w: World) {
    && (forall h | h in w.rows :: FromLog(log, h, w.rows[h].cells))
    && (forall m | m in w.out :: SoundMessage(c, log, m))
    && SoundItems(c, log, w.queue)
  }

  predicate SoundHands(c: Setup, log: Log, flushers: map<nat, Fpc>) {
    forall f | f in flushers :: SoundItems(c, log, InHands(flushers[f]))
  }

  /** Handling a late arrival. */
  predicate Belated(pc: Pc) {
    pc.Correct? || pc.Forget? || pc.DropLate?
  }

  /** Only keys that a manager has tracked are tracked or late; where no key is scheduled, no manager does anything. */
  predicate Timely(c: Setup, p: Partition) {
    && p.w.tracker <= p.timed
    && (p.pc.Some? && Belated(p.pc.value) ==> p.pc.value.e.hash in p.timed)
    && (!Times(c) ==> p.w.timeouts == map[] && p.timed == {} && forall m | m in p.managers :: p.managers[m] == Resting)
  }

  /** Without a settle delay the queue is not used. */
  predicate Direct(c: Setup, p: Partition) {
    !c.Delays() ==> p.w.queue == [] && p.dropped == {} && forall f | f in p.flushers :: p.flushers[f] == Quiet
  }

  predicate Placed(log: Log, p: Partition) {
    && p.committed <= p.cursor <= |log|
    && (forall i | i in p.passed :: i < p.cursor)
    && (p.committed > 0 ==> p.committed - 1 !in p.passed)
    && (p.pc.Some? ==> p.cursor < |log| && log[p.cursor] == Some(p.pc.value.e))
  }

  predicate Sound(c: Setup, log: Log, p: Partition) {
    && Placed(log, p) && SoundWorld(c, log, p.w) && SoundHands(c, log, p.flushers)
    && Timely(c, p) && Direct(c, p)
    && (p.pc.Some? ==> SoundPc(c, log, p.pc.value))
  }

  lemma CompletionSound(c: Setup, log: Log, e: Event, row: Option<Row>)
    requires row.Some? ==> FromLog(log, e.hash, row.value.cells)
    ensures SoundPc(c, log, Completion(c, e, row))
  {
  }

  lemma UpsertSound(c: Setup, log: Log, w: World, e: Event, n: nat)
    requires SoundWorld(c, log, w) && n < |log| && log[n] == Some(e)
    ensures SoundWorld(c, log, Upsert(w, e))
  {
    assert Mine(log, e.hash, n);
    assert InLog(log, e.hash, e.stream, e.payload);
    assert FromLog(log, e.hash, CellsAt(w, e.hash)[e.stream := e.payload]);
  }

  lemma EnqueueSound(c: Setup, log: Log, queue: seq<Item>, item: Item)
    requires SoundItems(c, log, queue) && IsFull(c, log, item.hash, item.cells, item.text) && c.Delays()
    ensures SoundItems(c, log, Enqueued(c, queue, item))
  {
  }

  lemma WorldSound(c: Setup, log: Log, w: World, pc: Pc, r: Reply, n: nat)
    requires SoundWorld(c, log, w) && SoundPc(c, log, pc) && n < |log| && log[n] == Some(pc.e)
    ensures SoundWorld(c, log, HandlerStep(c, w, pc, r).0)
  {
    if pc.Write? || pc.WriteOnly? { UpsertSound(c, log, w, pc.e, n); }
    if pc.Enqueue? { EnqueueSound(c, log, w.queue, JoinItem(c, pc.e, pc.cells, pc.text, r.at)); }
  }

  lemma PcSound(c: Setup, log: Log, w: World, pc: Pc, r: Reply)
    requires SoundWorld(c, log, w) && SoundPc(c, log, pc)
    ensures SoundPc(c, log, HandlerStep(c, w, pc, r).1) && HandlerStep(c, w, pc, r).1.e == pc.e
  {
    if pc.Read? { CompletionSound(c, log, pc.e, RowAt(w, pc.e.hash)); }
    if pc.Contains? { CompletionSound(c, log, pc.e, Some(pc.row)); }
  }

  lemma CallTimely(c: Setup, log: Log, p: Partition, r: Reply)
    requires Timely(c, p) && p.pc.Some? && SoundPc(c, log, p.pc.value)
    ensures Timely(c, Called(c, p, p.pc.value, r))
  {
  }

  lemma CallDirect(c: Setup, log: Log, p: Partition, pc: Pc, r: Reply)
    requires Direct(c, p) && SoundPc(c, log, pc)
    ensures Direct(c, Called(c, p, pc, r))
  {
  }

  lemma CallSound(c: Setup, log: Log, p: Partition, r: Reply)
    requires Sound(c, log, p) && p.pc.Some?
    ensures Sound(c, log, Called(c, p, p.pc.value, r))
  {
    WorldSound(c, log, p.w, p.pc.value, r, p.cursor);
    PcSound(c, log, p.w, p.pc.value, r);
    CallTimely(c, log, p, r);
    CallDirect(c, log, p, p.pc.value, r);
  }

  lemma RestartSound(c: Setup, log: Log, p: Partition, n: nat)
    requires Sound(c, log, p) && p.committed <= n <= p.cursor && (n > 0 ==> n - 1 !in p.passed)
    ensures Sound(c, log, Restart(c, p.(committed := n)))
  {
    var q := p.(committed := n);
    if !c.Delays() { assert Waiting(c, q) == {}; }
  }

  lemma RestartedSound(c: Setup, log: Log, p: Partition, commit: Outcome)
    requires Sound(c, log, p) && p.cursor < |log|
    ensures Sound(c, log, Restart(c, Committed(p, commit)))
  {
    var q := p.(pc := None, cursor := p.cursor + 1);
    if commit == Refused {
      RestartSound(c, log, p, p.committed);
      assert p.(committed := p.committed) == p;
    } else {
      RestartSound(c, log, q, p.cursor + 1);
      assert Restart(c, q.(committed := p.cursor + 1)) == Restart(c, Committed(p, commit));
    }
  }

  lemma CommitSound(c: Setup, log: Log, p: Partition, commit: Outcome, masked: Option<nat>)
    requires Sound(c, log, p) && p.cursor < |log|
    ensures Sound(c, log, Commit(c, log, p, commit, masked))
  {
    if commit != Done && masked.None? { RestartedSound(c, log, p, commit); }
  }

  lemma FadeSound(c: Setup, log: Log, w: World, h: Hash, streams: set<string>)
    requires SoundWorld(c, log, w)
    ensures SoundWorld(c, log, Expire(w, h, streams))
  {
    assert FromLog(log, h, CellsAt(w, h)) by {
      if h in w.rows { assert FromLog(log, h, w.rows[h].cells); }
    }
    var v := Expire(w, h, streams);
    forall g | g in v.rows ensures FromLog(log, g, v.rows[g].cells) {
      if g == h { assert v.rows[g].cells == CellsAt(w, h) - streams; } else { assert v.rows[g] == w.rows[g]; }
    }
  }

  lemma ManageSound(c: Setup, log: Log, p: Partition, m: nat, r: Reply)
    requires Sound(c, log, p)
    ensures Sound(c, log, Managed(c, p, m, r))
  {
  }

  lemma PollSound(c: Setup, log: Log, p: Partition, m: nat, members: seq<Hash>)
    requires Sound(c, log, p)
    ensures Sound(c, log, Step(c, log, p, Poll(m, members)))
  {
    if !Times(c) && members != [] { assert members[0] in members; }
  }

  lemma PollQueueSound(c: Setup, log: Log, p: Partition, f: nat, items: seq<Item>, now: int)
    requires Sound(c, log, p)
    ensures Sound(c, log, Polled(c, p, f, items, now))
  {
    if items != [] { assert items[0] in items; }
    InHandsNext(c, Item([], "", [], 0, map[]), items);
    InHandsNext(c, Item([], "", [], 0, map[]), Provenance.Due(p.w.queue, now));
  }

  lemma FlusherHands(c: Setup, w: World, f: Fpc, r: Reply)
    ensures forall i | i in InHands(FlusherStep(c, w, f, r).1) :: i in InHands(f)
  {
    if !f.Quiet? {
      InHandsNext(c, f.item, f.rest);
      assert forall i | i in f.rest :: i in InHands(f);
    }
  }

  lemma FlusherSound(c: Setup, log: Log, w: World, f: Fpc, r: Reply)
    requires GoodSetup(c) && SoundWorld(c, log, w) && SoundItems(c, log, InHands(f))
    ensures var (v, g) := FlusherStep(c, w, f, r); SoundWorld(c, log, v) && SoundItems(c, log, InHands(g))
  {
    FlusherHands(c, w, f, r);
    if f.Flush? { assert f.item in InHands(f); }
  }

  lemma FlushDirect(c: Setup, p: Partition, f: nat, r: Reply)
    requires Direct(c, p)
    ensures Direct(c, Attempted(c, p, f, r))
  {
  }

  lemma FlushSound(c: Setup, log: Log, p: Partition, f: nat, r: Reply)
    requires GoodSetup(c) && Sound(c, log, p)
    ensures Sound(c, log, Attempted(c, p, f, r))
  {
    FlusherSound(c, log, p.w, FlusherAt(p, f), r);
    FlushDirect(c, p, f, r);
    var q := Attempted(c, p, f, r);
    assert q.w.tracker == p.w.tracker && q.w.timeouts == p.w.timeouts;
  }

  lemma QuitSound(c: Setup, log: Log, p: Partition, f: nat)
    requires Sound(c, log, p)
    ensures Sound(c, log, Quitted(c, p, f))
  {
  }

  lemma OwnSound(c: Setup, log: Log, p: Partition, move: Move)
    requires Sound(c, log, p) && (move.Call? || move.Finish? || move.Elsewhere?)
    ensures Sound(c, log, Step(c, log, p, move))
  {
    match move {
      case Call(r) => if p.pc.Some? { CallSound(c, log, p, r); }
      case Finish(commit, masked) => if p.pc.Some? { CommitSound(c, log, p, commit, masked); }
      case Elsewhere(commit, masked) => if p.cursor < |log| { CommitSound(c, log, p, commit, masked); }
      case _ =>
    }
  }

  lemma FetchSound(c: Setup, log: Log, p: Partition)
    requires Sound(c, log, p)
    ensures Sound(c, log, Step(c, log, p, Fetch))
  {
  }

  lemma UnroutedSound(c: Setup, log: Log, p: Partition, commit: Outcome, hidden: bool, to: nat)
    requires Sound(c, log, p)
    ensures Sound(c, log, Step(c, log, p, Unrouted(commit, hidden, to)))
  {
    if p.cursor < |log| { RestartedSound(c, log, p, commit); }
  }

  lemma CrashSound(c: Setup, log: Log, p: Partition)
    requires Sound(c, log, p)
    ensures Sound(c, log, Restart(c, p))
  {
    RestartSound(c, log, p, p.committed);
    assert p.(committed := p.committed) == p;
  }

  lemma BesideSound(c: Setup, log: Log, p: Partition, move: Move)
    requires GoodSetup(c) && Sound(c, log, p) && (move.PollQueue? || move.RunFlush? || move.Quit?)
    ensures Sound(c, log, Step(c, log, p, move))
  {
    match move {
      case PollQueue(f, items, now) => PollQueueSound(c, log, p, f, items, now);
      case RunFlush(f, reply) => FlushSound(c, log, p, f, reply);
      case Quit(f) => QuitSound(c, log, p, f);
      case _ =>
    }
  }

  lemma StepSound(c: Setup, log: Log, p: Partition, move: Move)
    requires GoodSetup(c) && Sound(c, log, p)
    ensures Sound(c, log, Step(c, log, p, move))
  {
    match move {
      case Fetch => FetchSound(c, log, p);
      case Unrouted(commit, hidden, to) => UnroutedSound(c, log, p, commit, hidden, to);
      case Crash => CrashSound(c, log, p);
      case Fade(h, streams) => FadeSound(c, log, p.w, h, streams);
      case Poll(m, members) => PollSound(c, log, p, m, members);
      case Manage(m, reply) => ManageSound(c, log, p, m, reply);
      case Halt(m) =>
      case _ => if move.Call? || move.Finish? || move.Elsewhere? { OwnSound(c, log, p, move); }
                else { BesideSound(c, log, p, move); }
    }
  }

  lemma {:induction false} RunSound(c: Setup, log: Log, moves: seq<Move>)
    requires GoodSetup(c)
    ensures Sound(c, log, Run(c, log, moves))
  {
    if moves != [] {
      RunSound(c, log, moves[..|moves| - 1]);
      StepSound(c, log, Run(c, log, moves[..|moves| - 1]), moves[|moves| - 1]);
    }
  }
}
