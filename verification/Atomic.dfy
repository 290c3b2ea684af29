/**
 * Handling one record, or firing one timeout, without interruption: the step machines run to their end, and what
 * that amounts to when only produces can fail.
 */
module Atomic {
  import opened Base
  import opened Json
  import opened Projection
  import opened Protocol

  // ---------- one record ----------

  datatype Site =
    | AtExists | AtWriteOnly | AtAdd | AtSchedule | AtWrite | AtRead | AtContains
    | AtCorrect | AtForget | AtDropLate | AtEnqueue | AtPublish | AtDrop

  function SiteOf(pc: Pc): Site
    requires !pc.Ended?
  {
    match pc
    case Exists(_) => AtExists
    case WriteOnly(_) => AtWriteOnly
    case Add(_) => AtAdd
    case Schedule(_) => AtSchedule
    case Write(_) => AtWrite
    case Read(_) => AtRead
    case Contains(_, _) => AtContains
    case Correct(_, _, _) => AtCorrect
    case Forget(_) => AtForget
    case DropLate(_) => AtDropLate
    case Enqueue(_, _, _) => AtEnqueue
    case Publish(_, _, _) => AtPublish
    case Drop(_) => AtDrop
  }

  /** How many calls a handler can still make at most. */
  function CallsLeft(pc: Pc): nat {
    match pc
    case Exists(_) => 8
    case Write(_) => 7
    case Read(_) => 6
    case Contains(_, _) => 5
    case Correct(_, _, _) => 3
    case Forget(_) => 2
    case DropLate(_) => 1
    case WriteOnly(_) => 3
    case Add(_) => 2
    case Schedule(_) => 1
    case Enqueue(_, _, _) => 1
    case Publish(_, _, _) => 2
    case Drop(_) => 1
    case Ended(_, _) => 0
  }

  /** Every call brings a handler closer to its end, whatever the reply: a handler makes at most eight calls. */
  lemma CallsRunOut(c: Setup, w: World, pc: Pc, r: Reply)
    requires !pc.Ended?
    ensures CallsLeft(HandlerStep(c, w, pc, r).1) < CallsLeft(pc)
    ensures HandlerStep(c, w, pc, r).1.e == pc.e
  {
  }

  /** The handler run to its end, `f` giving the reply to each call. */
  function Drive(c: Setup, w: World, pc: Pc, f: Site -> Reply): (World, bool)
    decreases CallsLeft(pc)
  {
    if pc.Ended? then (w, pc.ok) else
    CallsRunOut(c, w, pc, f(SiteOf(pc)));
    var (w', pc') := HandlerStep(c, w, pc, f(SiteOf(pc)));
    Drive(c, w', pc', f)
  }

  function Handle(c: Setup, w: World, e: Event, f: Site -> Reply): (World, bool) {
    Drive(c, w, Start(c, e), f)
  }

  /** Only produces may fail. */
  ghost predicate CalmReplies(f: Site -> Reply) {
    forall s: Site :: s == AtPublish || s == AtCorrect || f(s).Fine()
  }

  /** What handling comes to for one row: a message, a deletion, changes to the sets, a queued join. */
  datatype Effect = Effect(
    sent: Option<Sent>,
    deleted: bool,
    tracked: Option<bool>,
    unscheduled: bool,
    queued: Option<Item>,
    ok: bool)

  function Nothing(ok: bool): Effect {
    Effect(None, false, None, false, None, ok)
  }

  function Enact(c: Setup, w: World, h: Hash, x: Effect): World {
    World(
      if x.deleted then w.rows - {h} else w.rows,
      w.bloom,
      if x.unscheduled then w.timeouts - {h} else w.timeouts,
      match x.tracked { case None => w.tracker case Some(true) => w.tracker + {h} case Some(false) => w.tracker - {h} },
      match x.queued { case None => w.queue case Some(item) => Enqueued(c, w.queue, item) },
      match x.sent { case None => w.out case Some(m) => w.out + [m] })
  }

  function Accepted(c: Setup, r: Reply, m: Sent): Option<Sent> {
    if c.producer && r.Took() then Some(m) else None
  }

  /** A row found incomplete after the write is corrected and deleted if its key had a partial. */
  function Incomplete(c: Setup, row: Row, tracked: bool, e: Event, f: Site -> Reply): Effect {
    if !c.Corrects() || !tracked then Nothing(true) else
    match c.Doc(row.cells)
    case None => Nothing(false)
    case Some(text) =>
      var sent := Accepted(c, f(AtCorrect), Sent(Late, e.hash, text, row.raw, e.hash, row.cells));
      Effect(sent, true, Some(false), false, None, true)
  }

  /** A complete row is queued, or published and, once accepted, deleted. */
  function Complete(c: Setup, row: Row, e: Event, f: Site -> Reply): Effect {
    match c.Doc(row.cells)
    case None => Nothing(false)
    case Some(text) =>
      if c.Delays() then
        Effect(None, false, None, false, Some(JoinItem(c, e, row.cells, text, f(AtEnqueue).at)), true)
      else
        var done := !c.producer || f(AtPublish).Fine();
        var sent := Accepted(c, f(AtPublish), Sent(Main, e.msgKey, text, "", e.hash, row.cells));
        Effect(sent, done, None, false, None, done)
  }

  function Decide(c: Setup, row: Row, tracked: bool, e: Event, f: Site -> Reply): Effect {
    if |row.cells| < c.N() then Incomplete(c, row, tracked, e, f) else Complete(c, row, e, f)
  }

  function AfterWrite(c: Setup, w: World, e: Event, f: Site -> Reply): (World, bool)
    requires e.hash in w.rows
  {
    var x := Decide(c, w.rows[e.hash], e.hash in w.tracker, e, f);
    (Enact(c, w, e.hash, x), x.ok)
  }

  /** A first arrival: the cell is written, the key added and, if so configured, its timeout scheduled. */
  function FirstArrival(c: Setup, w: World, e: Event, f: Site -> Reply): World {
    var v := Upsert(w, e);
    var b := v.(bloom := v.bloom + {e.hash} + f(AtAdd).collisions);
    if c.Schedules() then b.(timeouts := b.timeouts[e.hash := Deadline(c, f(AtSchedule).at)]) else b
  }

  function Handled(c: Setup, w: World, e: Event, f: Site -> Reply): (World, bool) {
    if c.bloom && e.hash !in w.bloom then (FirstArrival(c, w, e, f), true)
    else AfterWrite(c, Upsert(w, e), e, f)
  }

  lemma DriveStep(c: Setup, w: World, pc: Pc, f: Site -> Reply)
    requires !pc.Ended?
    ensures var (w', pc') := HandlerStep(c, w, pc, f(SiteOf(pc))); Drive(c, w, pc, f) == Drive(c, w', pc', f)
  {
  }

  lemma DocumentText(c: Setup, cells: Cells)
    requires c.Doc(cells).Some?
    ensures |c.Doc(cells).value| > 0
  {
    WriteStart(Obj(Project(Decoded(c.decode, cells), c.join.projection)), "");
  }

  lemma DriveFirstArrival(c: Setup, w: World, e: Event, f: Site -> Reply)
    requires CalmReplies(f)
    ensures Drive(c, w, WriteOnly(e), f) == (FirstArrival(c, w, e, f), true)
  {
    DriveStep(c, w, WriteOnly(e), f);
    var v := Upsert(w, e);
    DriveStep(c, v, Add(e), f);
    if c.Schedules() {
      DriveStep(c, v.(bloom := v.bloom + {e.hash} + f(AtAdd).collisions), Schedule(e), f);
    }
  }

  lemma DriveCorrection(c: Setup, w: World, e: Event, row: Row, text: string, f: Site -> Reply)
    requires CalmReplies(f)
    ensures var x := Effect(Accepted(c, f(AtCorrect), Sent(Late, e.hash, text, row.raw, e.hash, row.cells)), true,
      Some(false), false, None, true);
      Drive(c, w, Correct(e, row, text), f) == (Enact(c, w, e.hash, x), true)
  {
    DriveStep(c, w, Correct(e, row, text), f);
    var v := HandlerStep(c, w, Correct(e, row, text), f(AtCorrect)).0;
    DriveStep(c, v, Forget(e), f);
    DriveStep(c, v.(tracker := v.tracker - {e.hash}), DropLate(e), f);
  }

  lemma DrivePublish(c: Setup, w: World, e: Event, cells: Cells, text: string, f: Site -> Reply)
    requires CalmReplies(f)
    ensures var done := !c.producer || f(AtPublish).Fine();
      var sent := Accepted(c, f(AtPublish), Sent(Main, e.msgKey, text, "", e.hash, cells));
      var x := Effect(sent, done, None, false, None, done);
      Drive(c, w, Publish(e, cells, text), f) == (Enact(c, w, e.hash, x), done)
  {
    DriveStep(c, w, Publish(e, cells, text), f);
    var v := HandlerStep(c, w, Publish(e, cells, text), f(AtPublish)).0;
    DriveStep(c, v, Drop(e), f);
  }

  lemma DriveComplete(c: Setup, w: World, e: Event, row: Row, f: Site -> Reply)
    requires CalmReplies(f) && |row.cells| >= c.N()
    ensures var x := Complete(c, row, e, f);
      Drive(c, w, Completion(c, e, Some(row)), f) == (Enact(c, w, e.hash, x), x.ok)
  {
    if c.Doc(row.cells).Some? {
      var text := c.Doc(row.cells).value;
      DocumentText(c, row.cells);
      if c.Delays() {
        DriveStep(c, w, Enqueue(e, row.cells, text), f);
      } else {
        DrivePublish(c, w, e, row.cells, text, f);
      }
    }
  }

  lemma DriveIncomplete(c: Setup, w: World, e: Event, row: Row, f: Site -> Reply)
    requires CalmReplies(f) && |row.cells| < c.N()
    ensures var x := Incomplete(c, row, e.hash in w.tracker, e, f);
      Drive(c, w, AfterRead(c, e, Some(row)), f) == (Enact(c, w, e.hash, x), x.ok)
  {
    if c.Corrects() {
      DriveStep(c, w, Contains(e, row), f);
      if e.hash in w.tracker && c.Doc(row.cells).Some? {
        DriveCorrection(c, w, e, row, c.Doc(row.cells).value, f);
      }
    }
  }

  lemma DriveAfterWrite(c: Setup, w: World, e: Event, f: Site -> Reply)
    requires CalmReplies(f) && e.hash in w.rows
    ensures Drive(c, w, Read(e), f) == AfterWrite(c, w, e, f)
  {
    DriveStep(c, w, Read(e), f);
    var row := w.rows[e.hash];
    if |row.cells| < c.N() { DriveIncomplete(c, w, e, row, f); } else { DriveComplete(c, w, e, row, f); }
  }

  /** Driving a handler through its calls amounts to the one transition `Handled`. */
  lemma HandleIsHandled(c: Setup, w: World, e: Event, f: Site -> Reply)
    requires CalmReplies(f)
    ensures Handle(c, w, e, f) == Handled(c, w, e, f)
  {
    DriveStep(c, w, Start(c, e), f);
    if c.bloom && e.hash !in w.bloom {
      DriveFirstArrival(c, w, e, f);
    } else {
      if c.bloom { DriveStep(c, w, Write(e), f); }
      DriveAfterWrite(c, Upsert(w, e), e, f);
    }
  }

  // ---------- one batch of timeouts ----------

  datatype MSite = AtGet | AtPartial | AtTrack | AtDropRow | AtUnschedule

  function MSiteOf(m: Mpc): MSite
    requires !m.Resting?
  {
    match m
    case Get(_, _) => AtGet
    case PublishPartial(_, _, _, _) => AtPartial
    case Track(_, _) => AtTrack
    case DropRow(_, _) => AtDropRow
    case Unschedule(_, _) => AtUnschedule
  }

  function StepsLeft(m: Mpc): nat {
    match m
    case Resting => 0
    case Get(_, rest) => 5 * |rest| + 5
    case PublishPartial(_, rest, _, _) => 5 * |rest| + 4
    case Track(_, rest) => 5 * |rest| + 3
    case DropRow(_, rest) => 5 * |rest| + 2
    case Unschedule(_, rest) => 5 * |rest| + 1
  }

  lemma StepsRunOut(c: Setup, w: World, m: Mpc, r: Reply)
    requires !m.Resting?
    ensures StepsLeft(ManagerStep(c, w, m, r).1) < StepsLeft(m)
  {
  }

  /** The manager run through the rest of its batch. */
  function DriveManager(c: Setup, w: World, m: Mpc, f: (Hash, MSite) -> Reply): World
    decreases StepsLeft(m)
  {
    if m.Resting? then w else
    StepsRunOut(c, w, m, f(m.h, MSiteOf(m)));
    var (w', m') := ManagerStep(c, w, m, f(m.h, MSiteOf(m)));
    DriveManager(c, w', m', f)
  }

  /** What one due key comes to, when only the produce may fail. */
  function Timing(c: Setup, row: Option<Row>, h: Hash, produce: Reply): Effect {
    if row.None? || |row.value.cells| >= c.N() then Effect(None, false, None, true, None, true)
    else if !c.Partials() then Effect(None, true, None, true, None, true)
    else match c.Doc(row.value.cells)
      case None => Nothing(false)
      case Some(text) =>
        var sent := Accepted(c, produce, Sent(Partial, h, text, "", h, row.value.cells));
        if c.producer && !produce.Fine() then Effect(sent, false, None, false, None, false)
        else Effect(sent, true, if c.tracker then Some(true) else None, true, None, true)
  }

  function Fired(c: Setup, w: World, h: Hash, produce: Reply): World {
    Enact(c, w, h, Timing(c, RowAt(w, h), h, produce))
  }

  function FiredAll(c: Setup, w: World, batch: seq<Hash>, f: (Hash, MSite) -> Reply): World
    decreases |batch|
  {
    if batch == [] then w else FiredAll(c, Fired(c, w, batch[0], f(batch[0], AtPartial)), batch[1..], f)
  }

  ghost predicate CalmManager(f: (Hash, MSite) -> Reply) {
    forall h, s :: s == AtPartial || f(h, s).Fine()
  }

  lemma ManagerDriveStep(c: Setup, w: World, m: Mpc, f: (Hash, MSite) -> Reply)
    requires !m.Resting?
    ensures var (w', m') := ManagerStep(c, w, m, f(m.h, MSiteOf(m)));
      DriveManager(c, w, m, f) == DriveManager(c, w', m', f)
  {
  }

  lemma DriveRemoval(c: Setup, w: World, h: Hash, rest: seq<Hash>, track: bool, f: (Hash, MSite) -> Reply)
    requires CalmManager(f)
    ensures DriveManager(c, w, if track then Track(h, rest) else DropRow(h, rest), f) ==
      (var x := Effect(None, true, if track then Some(true) else None, true, None, true);
       DriveManager(c, Enact(c, w, h, x), NextMember(rest), f))
  {
    var v := if track then w.(tracker := w.tracker + {h}) else w;
    if track { ManagerDriveStep(c, w, Track(h, rest), f); }
    ManagerDriveStep(c, v, DropRow(h, rest), f);
    ManagerDriveStep(c, Delete(v, h), Unschedule(h, rest), f);
  }

  lemma DrivePartial(c: Setup, w: World, h: Hash, rest: seq<Hash>, cells: Cells, text: string, f: (Hash,
      MSite) -> Reply)
    requires CalmManager(f) && c.producer && c.Partials() && |cells| < c.N() && c.Doc(cells) == Some(text)
      && RowAt(w, h).Some?
    requires w.rows[h].cells == cells
    ensures DriveManager(c, w, PublishPartial(h, rest, cells, text), f) ==
      DriveManager(c, Fired(c, w, h, f(h, AtPartial)), NextMember(rest), f)
  {
    ManagerDriveStep(c, w, PublishPartial(h, rest, cells, text), f);
    if f(h, AtPartial).Fine() {
      DriveRemoval(c, Produce(w, Sent(Partial, h, text, "", h, cells)), h, rest, c.tracker, f);
    }
  }

  lemma DriveMember(c: Setup, w: World, h: Hash, rest: seq<Hash>, f: (Hash, MSite) -> Reply)
    requires CalmManager(f)
    ensures DriveManager(c, w, Get(h, rest), f) ==
      DriveManager(c, Fired(c, w, h, f(h, AtPartial)), NextMember(rest), f)
  {
    ManagerDriveStep(c, w, Get(h, rest), f);
    if h !in w.rows || |w.rows[h].cells| >= c.N() {
      ManagerDriveStep(c, w, Unschedule(h, rest), f);
    } else if !c.Partials() {
      DriveRemoval(c, w, h, rest, false, f);
    } else if c.Doc(w.rows[h].cells).Some? {
      if c.producer {
        DrivePartial(c, w, h, rest, w.rows[h].cells, c.Doc(w.rows[h].cells).value, f);
      } else {
        DriveRemoval(c, w, h, rest, c.tracker, f);
      }
    }
  }

  /** Driving the manager through a batch amounts to firing its members one after the other. */
  lemma {:induction false} BatchIsFired(c: Setup, w: World, batch: seq<Hash>, f: (Hash, MSite) -> Reply)
    requires CalmManager(f)
    ensures DriveManager(c, w, NextMember(batch), f) == FiredAll(c, w, batch, f)
    decreases |batch|
  {
    if batch != [] {
      DriveMember(c, w, batch[0], batch[1..], f);
      BatchIsFired(c, Fired(c, w, batch[0], f(batch[0], AtPartial)), batch[1..], f);
    }
  }

  // ---------- serial runs ----------

  /** The replies that are not simply success, for one handled record. */
  datatype Answers = Answers(publish: Reply, correct: Reply, collisions: set<Hash>, scheduled: int, queued: int)

  function Replies(a: Answers): Site -> Reply {
    (s: Site) =>
      if s == AtPublish then a.publish
      else if s == AtCorrect then a.correct
      else if s == AtAdd then Reply(Done, a.collisions, 0)
      else if s == AtSchedule then Reply(Done, {}, a.scheduled)
      else if s == AtEnqueue then Reply(Done, {}, a.queued)
      else Reply(Done, {}, 0)
  }

  function ManagerReplies(produce: Reply): (Hash, MSite) -> Reply {
    (h: Hash, s: MSite) => if s == AtPartial then produce else Reply(Done, {}, 0)
  }

  datatype Op =
    | Record(e: Event, a: Answers)
    | Timeout(h: Hash, produce: Reply)
    | Expiry(h: Hash, streams: set<string>)
    | Settle(item: Item, produce: Reply)

  /** The queue without the item's first occurrence. */
  function Minus(queue: seq<Item>, item: Item): seq<Item> {
    if queue == [] then [] else if queue[0] == item then queue[1..] else [queue[0]] + Minus(queue[1..], item)
  }

  /** A flush takes an item out: in memory that very item, in the ZSET the member it shares with equal joins. */
  function Taken(c: Setup, queue: seq<Item>, item: Item): seq<Item> {
    if c.durable then Without(queue, item) else Minus(queue, item)
  }

  /** publishAndCleanup of one due item, and its removal from the queue. */
  function Settled(c: Setup, w: World, item: Item, produce: Reply): World {
    if item !in w.queue then w else
    var sent := Accepted(c, produce, Sent(Delayed, item.msgKey, item.text, "", item.hash, item.cells));
    var done := !c.producer || produce.Fine();
    Enact(c, w.(queue := Taken(c, w.queue, item)), item.hash, Effect(sent, done, None, false, None, true))
  }

  function FlushesLeft(f: Fpc): nat {
    match f
    case Quiet => 0
    case Flush(_, rest) => 3 * |rest| + 3
    case Clear(_, rest) => 3 * |rest| + 2
    case Dequeue(_, rest) => 3 * |rest| + 1
  }

  lemma FlushesRunOut(c: Setup, w: World, f: Fpc, r: Reply)
    requires !f.Quiet?
    ensures FlushesLeft(FlusherStep(c, w, f, r).1) < FlushesLeft(f)
  {
  }

  /** The flusher run through its items, `produce` answering every produce. */
  function DriveFlusher(c: Setup, w: World, f: Fpc, produce: Reply): World
    decreases FlushesLeft(f)
  {
    if f.Quiet? then w else
    var r := if f.Flush? then produce else Reply(Done, {}, 0);
    FlushesRunOut(c, w, f, r);
    var (w', f') := FlusherStep(c, w, f, r);
    DriveFlusher(c, w', f', produce)
  }

  /** The world in which the flusher starts on an item: the in-memory queue has let go of it already. */
  function Polled(c: Setup, w: World, item: Item): World {
    if c.durable then w else w.(queue := Minus(w.queue, item))
  }

  lemma FlusherDriveStep(c: Setup, w: World, f: Fpc, produce: Reply)
    requires !f.Quiet?
    ensures var (v, n) := FlusherStep(c, w, f, if f.Flush? then produce else Reply(Done, {}, 0));
      DriveFlusher(c, w, f, produce) == DriveFlusher(c, v, n, produce)
  {
  }

  lemma DriveDequeue(c: Setup, w: World, item: Item, produce: Reply)
    ensures DriveFlusher(c, w, Flushed(c, item, []), produce) ==
      if c.durable then w.(queue := Without(w.queue, item)) else w
  {
    if c.durable {
      FlusherDriveStep(c, w, Dequeue(item, []), produce);
    }
  }

  lemma SettledIsDriven(c: Setup, w: World, item: Item, produce: Reply)
    requires item in w.queue
    ensures DriveFlusher(c, Polled(c, w, item), Flush(item, []), produce) == Settled(c, w, item, produce)
  {
    var v := Polled(c, w, item);
    var u := FlusherStep(c, v, Flush(item, []), produce).0;
    FlusherDriveStep(c, v, Flush(item, []), produce);
    if !c.producer || produce.Fine() {
      FlusherDriveStep(c, u, Clear(item, []), produce);
      DriveDequeue(c, Delete(u, item.hash), item, produce);
    } else {
      DriveDequeue(c, u, item, produce);
    }
  }

  function Perform(c: Setup, w: World, op: Op): World {
    match op
    case Record(e, a) => Handled(c, w, e, Replies(a)).0
    case Timeout(h, produce) => Fired(c, w, h, produce)
    case Expiry(h, streams) => Expire(w, h, streams)
    case Settle(item, produce) => Settled(c, w, item, produce)
  }

  /** A serial run is a run of the step machines: handler and manager driven call by call do what Perform says. */
  lemma PerformIsDriven(c: Setup, w: World, op: Op)
    ensures op.Record? ==> Handle(c, w, op.e, Replies(op.a)) == Handled(c, w, op.e, Replies(op.a))
    ensures op.Record? ==> Perform(c, w, op) == Handle(c, w, op.e, Replies(op.a)).0
    ensures op.Timeout? ==> Perform(c, w, op) == DriveManager(c, w, NextMember([op.h]), ManagerReplies(op.produce))
    ensures op.Settle? && op.item in w.queue ==>
      Perform(c, w, op) == DriveFlusher(c, Polled(c, w, op.item), Flush(op.item, []), op.produce)
  {
    match op {
      case Record(e, a) => HandleIsHandled(c, w, e, Replies(a));
      case Timeout(h, produce) =>
        var f := ManagerReplies(produce);
        BatchIsFired(c, w, [h], f);
        assert FiredAll(c, w, [h], f) == FiredAll(c, Fired(c, w, h, produce), [], f);
      case Settle(item, produce) => if item in w.queue { SettledIsDriven(c, w, item, produce); }
      case _ =>
    }
  }
}
