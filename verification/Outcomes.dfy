/**
 * What handling a record and working off a batch of timeouts come to, for every combination of replies: told case by
 * case in terms of the world before, the configuration and the replies, and proved of the step machines.
 */
module Outcomes {
  import opened Base
  import opened Projection
  import opened Protocol
  import opened Atomic
  import Timeouts

  // ---------- one record ----------

  /** The filter cannot be asked: nothing happens. */
  lemma UnaskedOutcome(c: Setup, w: World, e: Event, f: Site -> Reply)
    requires c.bloom && !f(AtExists).Fine()
    ensures Handle(c, w, e, f) == (w, false)
  {
    DriveStep(c, w, Exists(e), f);
  }

  lemma AddedOutcome(c: Setup, u: World, e: Event, f: Site -> Reply)
    ensures Drive(c, u, Add(e), f) ==
      (u.(bloom := if f(AtAdd).Took() then u.bloom + {e.hash} + f(AtAdd).collisions else u.bloom,
          timeouts := if f(AtAdd).Fine() && c.Schedules() && f(AtSchedule).Took()
                      then u.timeouts[e.hash := Deadline(c, f(AtSchedule).at)] else u.timeouts),
       f(AtAdd).Fine())
  {
    DriveStep(c, u, Add(e), f);
    if f(AtAdd).Fine() && c.Schedules() {
      DriveStep(c, u.(bloom := u.bloom + {e.hash} + f(AtAdd).collisions), Schedule(e), f);
    }
  }

  /**
   * A key the filter does not know: the cell is written, the key added and, with a scheduler and a positive ttl, its
   * timeout set to the clock plus the ttl, in seconds. A failing write or addition ends the handler with an error; the
   * outcome of scheduling does not matter.
   */
  lemma FirstOutcome(c: Setup, w: World, e: Event, f: Site -> Reply)
    requires c.bloom && f(AtExists).Fine() && e.hash !in w.bloom
    ensures var (v, ok) := Handle(c, w, e, f);
      var before := if e.hash in w.rows then w.rows[e.hash].cells else map[];
      && v.rows ==
           (if f(AtWriteOnly).Took() then w.rows[e.hash := Row(e.raw, before[e.stream := e.payload])] else w.rows)
      && v.bloom == w.bloom +
           (if f(AtWriteOnly).Fine() && f(AtAdd).Took() then {e.hash} + f(AtAdd).collisions else {})
      && v.timeouts == (
           if f(AtWriteOnly).Fine() && f(AtAdd).Fine() && c.scheduler && c.join.ttl > 0 && f(AtSchedule).Took()
           then w.timeouts[e.hash := (f(AtSchedule).at + c.join.ttl) / 1_000_000_000] else w.timeouts)
      && v.tracker == w.tracker && v.queue == w.queue && v.out == w.out
      && (ok <==> f(AtWriteOnly).Fine() && f(AtAdd).Fine())
  {
    DriveStep(c, w, Exists(e), f);
    DriveStep(c, w, WriteOnly(e), f);
    if f(AtWriteOnly).Fine() {
      AddedOutcome(c, Upsert(w, e), e, f);
    }
  }

  /** The write or the read fails: the cell may be there all the same, and the record counts as failed. */
  lemma UnreadOutcome(c: Setup, w: World, e: Event, f: Site -> Reply)
    requires !c.bloom || (f(AtExists).Fine() && e.hash in w.bloom)
    requires !f(AtWrite).Fine() || !f(AtRead).Fine()
    ensures var (v, ok) := Handle(c, w, e, f);
      var before := if e.hash in w.rows then w.rows[e.hash].cells else map[];
      && !ok
      && v == (if f(AtWrite).Took() then w.(rows := w.rows[e.hash := Row(e.raw, before[e.stream := e.payload])]) else w)
  {
    if c.bloom { DriveStep(c, w, Exists(e), f); }
    DriveStep(c, w, Write(e), f);
    if f(AtWrite).Fine() { DriveStep(c, Upsert(w, e), Read(e), f); }
  }

  /** Without a filter, or with a key it knows, the cell is written and the row, now `u`'s, is read back. */
  predicate ReadBack(c: Setup, w: World, e: Event, f: Site -> Reply, u: World) {
    var before := if e.hash in w.rows then w.rows[e.hash].cells else map[];
    && (!c.bloom || (f(AtExists).Fine() && e.hash in w.bloom)) && f(AtWrite).Fine() && f(AtRead).Fine()
    && u == w.(rows := w.rows[e.hash := Row(e.raw, before[e.stream := e.payload])])
  }

  lemma AfterReadBack(c: Setup, w: World, e: Event, f: Site -> Reply, u: World)
    requires ReadBack(c, w, e, f, u)
    ensures Handle(c, w, e, f) == Drive(c, u, AfterRead(c, e, Some(u.rows[e.hash])), f)
  {
    if c.bloom { DriveStep(c, w, Exists(e), f); }
    DriveStep(c, w, Write(e), f);
    DriveStep(c, u, Read(e), f);
  }

  /** A row still short of a stream, unless its key had a partial: nothing more. */
  lemma ShortOutcome(c: Setup, w: World, e: Event, f: Site -> Reply, u: World)
    requires ReadBack(c, w, e, f, u) && |u.rows[e.hash].cells| < c.N()
    requires !(c.tracker && c.corrections && f(AtContains).Fine() && e.hash in w.tracker)
    ensures Handle(c, w, e, f) == (u, true)
  {
    AfterReadBack(c, w, e, f, u);
    if c.Corrects() { DriveStep(c, u, Contains(e, u.rows[e.hash]), f); }
  }

  lemma ForgottenOutcome(c: Setup, u: World, e: Event, f: Site -> Reply)
    ensures Drive(c, u, Forget(e), f) ==
      (u.(tracker := if f(AtForget).Took() then u.tracker - {e.hash} else u.tracker,
          rows := if f(AtDropLate).Took() then u.rows - {e.hash} else u.rows), true)
  {
    DriveStep(c, u, Forget(e), f);
    DriveStep(c, HandlerStep(c, u, Forget(e), f(AtForget)).0, DropLate(e), f);
  }

  lemma CorrectedOutcome(c: Setup, u: World, e: Event, f: Site -> Reply, row: Row, text: string)
    ensures var (v, ok) := Drive(c, u, Correct(e, row, text), f);
      && ok
      && v.out == (if c.producer && f(AtCorrect).Took()
                   then u.out + [Sent(Late, e.hash, text, row.raw, e.hash, row.cells)] else u.out)
      && v.tracker == (if f(AtForget).Took() then u.tracker - {e.hash} else u.tracker)
      && v.rows == (if f(AtDropLate).Took() then u.rows - {e.hash} else u.rows)
      && v.bloom == u.bloom && v.timeouts == u.timeouts && v.queue == u.queue
  {
    DriveStep(c, u, Correct(e, row, text), f);
    ForgottenOutcome(c, HandlerStep(c, u, Correct(e, row, text), f(AtCorrect)).0, e, f);
  }

  lemma LateRow(c: Setup, w: World, e: Event, f: Site -> Reply, u: World)
    requires ReadBack(c, w, e, f, u) && |u.rows[e.hash].cells| < c.N()
    requires c.tracker && c.corrections && f(AtContains).Fine() && e.hash in w.tracker
    ensures var row := u.rows[e.hash];
      Handle(c, w, e, f) == if c.Doc(row.cells).None? then (u, false)
                            else Drive(c, u, Correct(e, row, c.Doc(row.cells).value), f)
  {
    AfterReadBack(c, w, e, f, u);
    DriveStep(c, u, Contains(e, u.rows[e.hash]), f);
  }

  /**
   * A key on the tracker, with a tracker and a corrections topic: what the row holds is sent as a correction under the
   * key's hash, the key is taken off the tracker and the row deleted, whatever these calls answer. A row that does not
   * project is an error.
   */
  lemma LateOutcome(c: Setup, w: World, e: Event, f: Site -> Reply, u: World)
    requires ReadBack(c, w, e, f, u) && |u.rows[e.hash].cells| < c.N()
    requires c.tracker && c.corrections && f(AtContains).Fine() && e.hash in w.tracker
    ensures c.Doc(u.rows[e.hash].cells).None? ==> Handle(c, w, e, f) == (u, false)
    ensures c.Doc(u.rows[e.hash].cells).Some? ==>
      var (v, ok) := Handle(c, w, e, f);
      var text := c.Doc(u.rows[e.hash].cells).value;
      && ok
      && v.out == (if c.producer && f(AtCorrect).Took()
                   then w.out + [Sent(Late, e.hash, text, e.raw, e.hash, u.rows[e.hash].cells)] else w.out)
      && v.tracker == (if f(AtForget).Took() then w.tracker - {e.hash} else w.tracker)
      && v.rows == (if f(AtDropLate).Took() then w.rows - {e.hash} else u.rows)
      && v.bloom == w.bloom && v.timeouts == w.timeouts && v.queue == w.queue
  {
    var row := u.rows[e.hash];
    LateRow(c, w, e, f, u);
    if c.Doc(row.cells).Some? { CorrectedOutcome(c, u, e, f, row, c.Doc(row.cells).value); }
  }

  lemma FullRow(c: Setup, w: World, e: Event, f: Site -> Reply, u: World)
    requires ReadBack(c, w, e, f, u) && |u.rows[e.hash].cells| >= c.N()
    ensures var row := u.rows[e.hash];
      if c.Doc(row.cells).None? then Handle(c, w, e, f) == (u, false)
      else if c.delayQueue && c.join.postJoinDelay > 0
      then Handle(c, w, e, f) == Drive(c, u, Enqueue(e, row.cells, c.Doc(row.cells).value), f)
      else Handle(c, w, e, f) == Drive(c, u, Publish(e, row.cells, c.Doc(row.cells).value), f)
  {
    AfterReadBack(c, w, e, f, u);
    if c.Doc(u.rows[e.hash].cells).Some? { DocumentText(c, u.rows[e.hash].cells); }
  }

  /**
   * A full row, with a settle delay: its document goes into the delay queue under the record's message key, due at the
   * clock plus the delay. A durable queue may refuse it, which is no error; in memory it is simply appended.
   */
  lemma QueuedOutcome(c: Setup, w: World, e: Event, f: Site -> Reply, u: World)
    requires ReadBack(c, w, e, f, u) && |u.rows[e.hash].cells| >= c.N() && c.delayQueue && c.join.postJoinDelay > 0
    ensures c.Doc(u.rows[e.hash].cells).None? ==> Handle(c, w, e, f) == (u, false)
    ensures c.Doc(u.rows[e.hash].cells).Some? ==>
      var (v, ok) := Handle(c, w, e, f);
      var text, publishAt := c.Doc(u.rows[e.hash].cells).value, f(AtEnqueue).at + c.join.postJoinDelay;
      var item := Item(e.hash, text, e.msgKey, publishAt, u.rows[e.hash].cells);
      && ok
      && v.rows == u.rows && v.bloom == w.bloom && v.timeouts == w.timeouts && v.tracker == w.tracker && v.out == w.out
      && v.queue == (if !c.durable then w.queue + [item]
                     else if f(AtEnqueue).Took() then Without(w.queue, item) + [item] else w.queue)
  {
    FullRow(c, w, e, f, u);
    var row := u.rows[e.hash];
    if c.Doc(row.cells).Some? { DriveStep(c, u, Enqueue(e, row.cells, c.Doc(row.cells).value), f); }
  }

  lemma PublishedOutcome(c: Setup, u: World, e: Event, f: Site -> Reply, cells: Cells, text: string)
    ensures var (v, ok) := Drive(c, u, Publish(e, cells, text), f);
      && v.out == (if c.producer && f(AtPublish).Took()
                   then u.out + [Sent(Main, e.msgKey, text, "", e.hash, cells)] else u.out)
      && v.rows == (if (c.producer ==> f(AtPublish).Fine()) && f(AtDrop).Took() then u.rows - {e.hash} else u.rows)
      && v.bloom == u.bloom && v.timeouts == u.timeouts && v.tracker == u.tracker && v.queue == u.queue
      && (ok <==> (c.producer ==> f(AtPublish).Fine()) && f(AtDrop).Fine())
  {
    DriveStep(c, u, Publish(e, cells, text), f);
    if c.producer ==> f(AtPublish).Fine() {
      DriveStep(c, HandlerStep(c, u, Publish(e, cells, text), f(AtPublish)).0, Drop(e), f);
    }
  }

  /**
   * A full row, without a settle delay: its document is published under the record's message key, and the row is
   * deleted unless the produce reported an error. Errors of either call are the handler's.
   */
  lemma JoinedOutcome(c: Setup, w: World, e: Event, f: Site -> Reply, u: World)
    requires ReadBack(c, w, e, f, u) && |u.rows[e.hash].cells| >= c.N()
    requires !(c.delayQueue && c.join.postJoinDelay > 0)
    ensures c.Doc(u.rows[e.hash].cells).None? ==> Handle(c, w, e, f) == (u, false)
    ensures c.Doc(u.rows[e.hash].cells).Some? ==>
      var (v, ok) := Handle(c, w, e, f);
      var text := c.Doc(u.rows[e.hash].cells).value;
      && v.out == (if c.producer && f(AtPublish).Took()
                   then w.out + [Sent(Main, e.msgKey, text, "", e.hash, u.rows[e.hash].cells)] else w.out)
      && v.rows == (if (c.producer ==> f(AtPublish).Fine()) && f(AtDrop).Took() then w.rows - {e.hash} else u.rows)
      && v.bloom == w.bloom && v.timeouts == w.timeouts && v.tracker == w.tracker && v.queue == w.queue
      && (ok <==> (c.producer ==> f(AtPublish).Fine()) && f(AtDrop).Fine())
  {
    FullRow(c, w, e, f, u);
    var row := u.rows[e.hash];
    if c.Doc(row.cells).Some? { PublishedOutcome(c, u, e, f, row.cells, c.Doc(row.cells).value); }
  }

  /** The row of the event's key with its cell written, and nothing else changed. */
  function WrittenTo(w: World, e: Event): World {
    var before := if e.hash in w.rows then w.rows[e.hash].cells else map[];
    w.(rows := w.rows[e.hash := Row(e.raw, before[e.stream := e.payload])])
  }

  /** Which of these it is. */
  lemma HandleOutcome(c: Setup, w: World, e: Event, f: Site -> Reply) returns (u: World)
    ensures var (v, ok) := Handle(c, w, e, f);
      || (v == w && !ok)
      || (c.bloom && f(AtExists).Fine() && e.hash !in w.bloom)
      || (u == WrittenTo(w, e) && ((v == u && !ok) || ReadBack(c, w, e, f, u)))
  {
    u := WrittenTo(w, e);
    if c.bloom && !f(AtExists).Fine() {
      UnaskedOutcome(c, w, e, f);
    } else if !(c.bloom && e.hash !in w.bloom) && (!f(AtWrite).Fine() || !f(AtRead).Fine()) {
      UnreadOutcome(c, w, e, f);
    }
  }

  lemma ReadBackOutcome(c: Setup, w: World, e: Event, f: Site -> Reply, u: World)
    requires ReadBack(c, w, e, f, u)
    ensures var (v, _) := Handle(c, w, e, f);
      && v.timeouts == w.timeouts && (v.rows == u.rows || v.rows == w.rows - {e.hash})
      && (v.out == w.out ||
          exists m :: v.out == w.out + [m] && m.hash == e.hash && m.cells == u.rows[e.hash].cells &&
            c.Doc(m.cells) == Some(m.text) &&
            if |m.cells| >= c.N() then m.kind == Main && m.key == e.msgKey
            else m.kind == Late && m.key == e.hash && m.joinKey == e.raw && c.tracker && c.corrections)
      && forall i | i in v.queue && i !in w.queue ::
           && i.hash == e.hash && i.msgKey == e.msgKey && c.Doc(i.cells) == Some(i.text)
           && i.publishAt == f(AtEnqueue).at + c.join.postJoinDelay
  {
    if |u.rows[e.hash].cells| < c.N() {
      if c.tracker && c.corrections && f(AtContains).Fine() && e.hash in w.tracker {
        LateOutcome(c, w, e, f, u);
      } else {
        ShortOutcome(c, w, e, f, u);
      }
    } else if c.delayQueue && c.join.postJoinDelay > 0 {
      QueuedOutcome(c, w, e, f, u);
    } else {
      JoinedOutcome(c, w, e, f, u);
    }
  }

  /** What handling a record can add: one message, one queued join, one cell, one deadline. */
  lemma HandleAdds(c: Setup, w: World, e: Event, f: Site -> Reply)
    ensures var (v, _) := Handle(c, w, e, f);
      && (v.rows == w.rows || v.rows == w.rows - {e.hash} || v.rows == WrittenTo(w, e).rows)
      && (v.timeouts == w.timeouts ||
          (v.timeouts == w.timeouts[e.hash := (f(AtSchedule).at + c.join.ttl) / 1_000_000_000] &&
           c.bloom && e.hash !in w.bloom && c.scheduler && c.join.ttl > 0))
      && (v.out == w.out ||
          exists m :: v.out == w.out + [m] && m.hash == e.hash && m.cells == WrittenTo(w, e).rows[e.hash].cells &&
            c.Doc(m.cells) == Some(m.text) &&
            if |m.cells| >= c.N() then m.kind == Main && m.key == e.msgKey
            else m.kind == Late && m.key == e.hash && m.joinKey == e.raw && c.tracker && c.corrections)
      && forall i | i in v.queue && i !in w.queue ::
           && i.hash == e.hash && i.msgKey == e.msgKey && c.Doc(i.cells) == Some(i.text)
           && i.publishAt == f(AtEnqueue).at + c.join.postJoinDelay
  {
    var u := HandleOutcome(c, w, e, f);
    if c.bloom && f(AtExists).Fine() && e.hash !in w.bloom {
      FirstOutcome(c, w, e, f);
    } else if ReadBack(c, w, e, f, u) {
      ReadBackOutcome(c, w, e, f, u);
    }
  }

  // ---------- the calls of one record ----------

  /** The calls a handler makes, in order. */
  function Calls(c: Setup, w: World, pc: Pc, f: Site -> Reply): seq<Site>
    decreases CallsLeft(pc)
  {
    if pc.Ended? then [] else
    CallsRunOut(c, w, pc, f(SiteOf(pc)));
    var (v, next) := HandlerStep(c, w, pc, f(SiteOf(pc)));
    [SiteOf(pc)] + Calls(c, v, next, f)
  }

  lemma CallsStep(c: Setup, w: World, pc: Pc, f: Site -> Reply)
    requires !pc.Ended?
    ensures var (v, next) := HandlerStep(c, w, pc, f(SiteOf(pc)));
      Calls(c, w, pc, f) == [SiteOf(pc)] + Calls(c, v, next, f)
  {
  }

  lemma AddCalls(c: Setup, u: World, e: Event, f: Site -> Reply)
    ensures Calls(c, u, Add(e), f) ==
      if f(AtAdd).Fine() && c.scheduler && c.join.ttl > 0 then [AtAdd, AtSchedule] else [AtAdd]
  {
    CallsStep(c, u, Add(e), f);
    if f(AtAdd).Fine() && c.Schedules() {
      CallsStep(c, HandlerStep(c, u, Add(e), f(AtAdd)).0, Schedule(e), f);
    }
  }

  /** A key unknown to the filter: the cell is written before the key is added, and that before it is scheduled. */
  lemma FirstCalls(c: Setup, w: World, e: Event, f: Site -> Reply)
    requires c.bloom && (f(AtExists).Fine() ==> e.hash !in w.bloom)
    ensures Calls(c, w, Start(c, e), f) ==
      if !f(AtExists).Fine() then [AtExists]
      else if !f(AtWriteOnly).Fine() then [AtExists, AtWriteOnly]
      else if !(f(AtAdd).Fine() && c.scheduler && c.join.ttl > 0) then [AtExists, AtWriteOnly, AtAdd]
      else [AtExists, AtWriteOnly, AtAdd, AtSchedule]
  {
    CallsStep(c, w, Exists(e), f);
    if f(AtExists).Fine() {
      CallsStep(c, w, WriteOnly(e), f);
      if f(AtWriteOnly).Fine() { AddCalls(c, Upsert(w, e), e, f); }
    }
  }

  /** The calls up to and including the read-back. */
  function Prelude(c: Setup): seq<Site> {
    if c.bloom then [AtExists, AtWrite, AtRead] else [AtWrite, AtRead]
  }

  lemma WriteReadCalls(c: Setup, w: World, e: Event, f: Site -> Reply)
    ensures var u := Upsert(w, e);
      Calls(c, w, Write(e), f) ==
        if !f(AtWrite).Fine() then [AtWrite]
        else if !f(AtRead).Fine() then [AtWrite, AtRead]
        else [AtWrite, AtRead] + Calls(c, u, AfterRead(c, e, Some(u.rows[e.hash])), f)
  {
    CallsStep(c, w, Write(e), f);
    if f(AtWrite).Fine() { CallsStep(c, Upsert(w, e), Read(e), f); }
  }

  lemma ReadBackCalls(c: Setup, w: World, e: Event, f: Site -> Reply, u: World)
    requires ReadBack(c, w, e, f, u)
    ensures Calls(c, w, Start(c, e), f) == Prelude(c) + Calls(c, u, AfterRead(c, e, Some(u.rows[e.hash])), f)
  {
    if c.bloom { CallsStep(c, w, Exists(e), f); }
    WriteReadCalls(c, w, e, f);
  }

  /** A failing write or read is the last call. */
  lemma UnreadCalls(c: Setup, w: World, e: Event, f: Site -> Reply)
    requires (c.bloom ==> f(AtExists).Fine() && e.hash in w.bloom) && !(f(AtWrite).Fine() && f(AtRead).Fine())
    ensures Calls(c, w, Start(c, e), f) ==
      (if c.bloom then [AtExists] else []) + if f(AtWrite).Fine() then [AtWrite, AtRead] else [AtWrite]
  {
    if c.bloom { CallsStep(c, w, Exists(e), f); }
    WriteReadCalls(c, w, e, f);
  }

  lemma CorrectionCalls(c: Setup, u: World, e: Event, f: Site -> Reply, row: Row, text: string)
    ensures Calls(c, u, Correct(e, row, text), f) == [AtCorrect, AtForget, AtDropLate]
  {
    CallsStep(c, u, Correct(e, row, text), f);
    var a := HandlerStep(c, u, Correct(e, row, text), f(AtCorrect)).0;
    CallsStep(c, a, Forget(e), f);
    CallsStep(c, HandlerStep(c, a, Forget(e), f(AtForget)).0, DropLate(e), f);
  }

  /** A short row: the tracker is asked where corrections are made; a correction goes out before tracker and row do. */
  lemma ShortCalls(c: Setup, w: World, e: Event, f: Site -> Reply, u: World)
    requires ReadBack(c, w, e, f, u) && |u.rows[e.hash].cells| < c.N()
    ensures Calls(c, w, Start(c, e), f) == Prelude(c) +
      if !(c.tracker && c.corrections) then []
      else if f(AtContains).Fine() && e.hash in w.tracker && c.Doc(u.rows[e.hash].cells).Some?
      then [AtContains, AtCorrect, AtForget, AtDropLate] else [AtContains]
  {
    var row := u.rows[e.hash];
    ReadBackCalls(c, w, e, f, u);
    if c.Corrects() {
      CallsStep(c, u, Contains(e, row), f);
      if f(AtContains).Fine() && e.hash in w.tracker && c.Doc(row.cells).Some? {
        CorrectionCalls(c, u, e, f, row, c.Doc(row.cells).value);
      }
    }
  }

  lemma JoinCalls(c: Setup, u: World, e: Event, f: Site -> Reply, cells: Cells, text: string)
    ensures Calls(c, u, Enqueue(e, cells, text), f) == [AtEnqueue]
    ensures Calls(c, u, Publish(e, cells, text), f) ==
      if c.producer && !f(AtPublish).Fine() then [AtPublish] else [AtPublish, AtDrop]
  {
    CallsStep(c, u, Enqueue(e, cells, text), f);
    CallsStep(c, u, Publish(e, cells, text), f);
    if c.producer ==> f(AtPublish).Fine() {
      CallsStep(c, HandlerStep(c, u, Publish(e, cells, text), f(AtPublish)).0, Drop(e), f);
    }
  }

  /** A full row: its join is queued, or published and then the row deleted. */
  lemma FullCalls(c: Setup, w: World, e: Event, f: Site -> Reply, u: World)
    requires ReadBack(c, w, e, f, u) && |u.rows[e.hash].cells| >= c.N()
    ensures Calls(c, w, Start(c, e), f) == Prelude(c) +
      if c.Doc(u.rows[e.hash].cells).None? then []
      else if c.delayQueue && c.join.postJoinDelay > 0 then [AtEnqueue]
      else if c.producer && !f(AtPublish).Fine() then [AtPublish] else [AtPublish, AtDrop]
  {
    var row := u.rows[e.hash];
    ReadBackCalls(c, w, e, f, u);
    if c.Doc(row.cells).Some? {
      DocumentText(c, row.cells);
      JoinCalls(c, u, e, f, row.cells, c.Doc(row.cells).value);
    }
  }

  // ---------- one batch of timeouts ----------

  type Answer = (Hash, MSite) -> Reply

  /** The row of the key is read, and a stream is missing. */
  predicate ReadShort(c: Setup, w: World, k: Hash, f: Answer) {
    f(k, AtGet).Fine() && k in w.rows && |w.rows[k].cells| < c.N()
  }

  /** Its partial goes out, or there is none to send: under inner policy, or without a producer. */
  predicate GoesThrough(c: Setup, w: World, k: Hash, f: Answer) {
    ReadShort(c, w, k, f) &&
    (c.Partials() ==> c.Doc(w.rows[k].cells).Some? && (c.producer ==> f(k, AtPartial).Fine()))
  }

  /** It is asked to take the key off the timeout set. */
  predicate Unlists(c: Setup, w: World, k: Hash, f: Answer) {
    ReadShort(c, w, k, f) ==> GoesThrough(c, w, k, f)
  }

  predicate SendsPartial(c: Setup, w: World, k: Hash, f: Answer) {
    && ReadShort(c, w, k, f) && c.Partials() && c.producer
    && c.Doc(w.rows[k].cells).Some? && f(k, AtPartial).Took()
  }

  function PartialOf(c: Setup, w: World, k: Hash, f: Answer): seq<Sent> {
    if SendsPartial(c, w, k, f) then [Sent(Partial, k, c.Doc(w.rows[k].cells).value, "", k, w.rows[k].cells)] else []
  }

  /** What the manager's calls for one member leave of the world. */
  function Passed(c: Setup, w: World, k: Hash, f: Answer): World {
    World(
      if GoesThrough(c, w, k, f) && f(k, AtDropRow).Took() then w.rows - {k} else w.rows,
      w.bloom,
      if Unlists(c, w, k, f) && f(k, AtUnschedule).Took() then w.timeouts - {k} else w.timeouts,
      if GoesThrough(c, w, k, f) && c.Partials() && c.tracker && f(k, AtTrack).Took()
      then w.tracker + {k} else w.tracker,
      w.queue,
      w.out + PartialOf(c, w, k, f))
  }

  lemma UnlistPasses(c: Setup, w: World, k: Hash, rest: seq<Hash>, f: Answer)
    ensures DriveManager(c, w, Unschedule(k, rest), f) ==
      DriveManager(c, if f(k, AtUnschedule).Took() then w.(timeouts := w.timeouts - {k}) else w, NextMember(rest), f)
  {
    ManagerDriveStep(c, w, Unschedule(k, rest), f);
  }

  lemma DropPasses(c: Setup, w: World, k: Hash, rest: seq<Hash>, f: Answer)
    ensures DriveManager(c, w, DropRow(k, rest), f) ==
      DriveManager(c, w.(rows := if f(k, AtDropRow).Took() then w.rows - {k} else w.rows,
        timeouts := if f(k, AtUnschedule).Took() then w.timeouts - {k} else w.timeouts), NextMember(rest), f)
  {
    ManagerDriveStep(c, w, DropRow(k, rest), f);
    UnlistPasses(c, ManagerStep(c, w, DropRow(k, rest), f(k, AtDropRow)).0, k, rest, f);
  }

  lemma TrackPasses(c: Setup, w: World, k: Hash, rest: seq<Hash>, f: Answer)
    ensures DriveManager(c, w, Tracked(c, k, rest), f) ==
      DriveManager(c, w.(rows := if f(k, AtDropRow).Took() then w.rows - {k} else w.rows,
        timeouts := if f(k, AtUnschedule).Took() then w.timeouts - {k} else w.timeouts,
        tracker := if c.tracker && f(k, AtTrack).Took() then w.tracker + {k} else w.tracker), NextMember(rest), f)
  {
    if c.tracker {
      ManagerDriveStep(c, w, Track(k, rest), f);
      DropPasses(c, ManagerStep(c, w, Track(k, rest), f(k, AtTrack)).0, k, rest, f);
    } else {
      DropPasses(c, w, k, rest, f);
    }
  }

  lemma PartialPasses(c: Setup, w: World, k: Hash, rest: seq<Hash>, f: Answer)
    requires ReadShort(c, w, k, f) && c.Partials() && c.producer && c.Doc(w.rows[k].cells).Some?
    ensures DriveManager(c, w, PublishPartial(k, rest, w.rows[k].cells, c.Doc(w.rows[k].cells).value), f) ==
      DriveManager(c, Passed(c, w, k, f), NextMember(rest), f)
  {
    var m := PublishPartial(k, rest, w.rows[k].cells, c.Doc(w.rows[k].cells).value);
    ManagerDriveStep(c, w, m, f);
    assert w.out + [] == w.out;
    if f(k, AtPartial).Fine() { TrackPasses(c, ManagerStep(c, w, m, f(k, AtPartial)).0, k, rest, f); }
  }

  lemma MemberPasses(c: Setup, w: World, k: Hash, rest: seq<Hash>, f: Answer)
    ensures DriveManager(c, w, Get(k, rest), f) == DriveManager(c, Passed(c, w, k, f), NextMember(rest), f)
  {
    ManagerDriveStep(c, w, Get(k, rest), f);
    assert w.out + [] == w.out;
    if !ReadShort(c, w, k, f) {
      UnlistPasses(c, w, k, rest, f);
    } else if !c.Partials() {
      DropPasses(c, w, k, rest, f);
    } else if c.Doc(w.rows[k].cells).Some? {
      if c.producer { PartialPasses(c, w, k, rest, f); } else { TrackPasses(c, w, k, rest, f); }
    }
  }

  lemma PassedElsewhere(c: Setup, w: World, k: Hash, f: Answer, other: Hash)
    requires other != k
    ensures Timeouts.Kept(w, Passed(c, w, k, f), other)
  {
  }

  /** It looks at nothing but the key's own row. */
  lemma PassedAlike(c: Setup, w: World, u: World, k: Hash, f: Answer)
    requires Timeouts.Kept(w, u, k)
    ensures Timeouts.Kept(Passed(c, w, k, f), Passed(c, u, k, f), k)
    ensures PartialOf(c, w, k, f) == PartialOf(c, u, k, f)
  {
    assert RowAt(w, k) == RowAt(u, k);
  }

  /** The members passed one after the other. */
  function PassedAll(c: Setup, w: World, batch: seq<Hash>, f: Answer): World
    decreases |batch|
  {
    if batch == [] then w else PassedAll(c, Passed(c, w, batch[0], f), batch[1..], f)
  }

  lemma {:induction false} BatchIsPassed(c: Setup, w: World, batch: seq<Hash>, f: Answer)
    ensures DriveManager(c, w, NextMember(batch), f) == PassedAll(c, w, batch, f)
    decreases |batch|
  {
    if batch != [] {
      MemberPasses(c, w, batch[0], batch[1..], f);
      BatchIsPassed(c, Passed(c, w, batch[0], f), batch[1..], f);
    }
  }

  lemma {:induction false} BatchPasses(c: Setup, w: World, batch: seq<Hash>, f: Answer, k: Hash)
    requires Timeouts.Distinct(batch)
    ensures Timeouts.Kept(if k in batch then Passed(c, w, k, f) else w, PassedAll(c, w, batch, f), k)
    decreases |batch|
  {
    if batch != [] {
      var h, rest := batch[0], batch[1..];
      assert batch == [h] + rest;
      BatchPasses(c, Passed(c, w, h, f), rest, f, k);
      if k != h {
        PassedElsewhere(c, w, h, f, k);
        PassedAlike(c, w, Passed(c, w, h, f), k, f);
      }
    }
  }

  /**
   * What becomes of a member of a batch, whatever all the calls answer. Its row is short if it is read and misses a
   * stream. It is held up if it is short, under partial policy, and it does not project or its produce is not
   * acknowledged. Its deadline stays if and only if it is held up or its removal, asked for otherwise, has no effect;
   * its row goes if and only if it is short, not held up, and its deletion has effect; and then it is tracked under
   * partial policy, if there is a tracker that takes it.
   */
  lemma MemberFate(c: Setup, w: World, batch: seq<Hash>, f: Answer, k: Hash)
    requires Timeouts.Distinct(batch) && k in batch
    ensures var v := DriveManager(c, w, NextMember(batch), f);
      var short := f(k, AtGet).Fine() && k in w.rows && |w.rows[k].cells| < |c.join.streamIDs|;
      var held := short && c.join.egress == "partial" &&
        (c.Doc(w.rows[k].cells).None? || (c.producer && !f(k, AtPartial).Fine()));
      && (k in v.timeouts <==> k in w.timeouts && (held || !f(k, AtUnschedule).Took()))
      && (k in v.timeouts ==> v.timeouts[k] == w.timeouts[k])
      && RowAt(v, k) == (if short && !held && f(k, AtDropRow).Took() then None else RowAt(w, k))
      && (k in v.tracker <==>
            (k in w.tracker || (short && !held && c.join.egress == "partial" && c.tracker && f(k, AtTrack).Took())))
  {
    BatchIsPassed(c, w, batch, f);
    BatchPasses(c, w, batch, f, k);
  }

  /** So a key whose row could not be read is taken off the timeout set, its row left where it is, for good. */
  lemma UnreadIsUnlisted(c: Setup, w: World, batch: seq<Hash>, f: Answer, k: Hash)
    requires Timeouts.Distinct(batch) && k in batch && !f(k, AtGet).Fine() && f(k, AtUnschedule).Took()
    ensures var v := DriveManager(c, w, NextMember(batch), f); k !in v.timeouts && RowAt(v, k) == RowAt(w, k)
  {
    MemberFate(c, w, batch, f, k);
  }

  /** What the members of a batch send, in its order. */
  function Gathered(batch: seq<Hash>, sends: Hash -> seq<Sent>): seq<Sent> {
    if batch == [] then [] else Gathered(batch[..|batch| - 1], sends) + sends(batch[|batch| - 1])
  }

  function Sends(c: Setup, w: World, f: Answer): Hash -> seq<Sent> {
    k => PartialOf(c, w, k, f)
  }

  lemma {:induction false} GatheredCons(h: Hash, rest: seq<Hash>, sends: Hash -> seq<Sent>, later: Hash -> seq<Sent>)
    requires forall k | k in rest :: sends(k) == later(k)
    ensures Gathered([h] + rest, sends) == sends(h) + Gathered(rest, later)
  {
    if rest == [] {
      assert ([h] + rest)[..0] == [];
    } else {
      var init := rest[..|rest| - 1];
      GatheredCons(h, init, sends, later);
      assert ([h] + rest)[..|rest|] == [h] + init;
    }
  }

  lemma SameLater(c: Setup, w: World, h: Hash, k: Hash, f: Answer)
    requires h != k
    ensures Sends(c, w, f)(k) == Sends(c, Passed(c, w, h, f), f)(k)
  {
    PassedElsewhere(c, w, h, f, k);
    PassedAlike(c, w, Passed(c, w, h, f), k, f);
  }

  lemma FirstSends(c: Setup, w: World, h: Hash, rest: seq<Hash>, f: Answer)
    requires h !in rest
    ensures var u := Passed(c, w, h, f);
      w.out + Gathered([h] + rest, Sends(c, w, f)) == u.out + Gathered(rest, Sends(c, u, f))
  {
    var u := Passed(c, w, h, f);
    forall k | k in rest ensures Sends(c, w, f)(k) == Sends(c, u, f)(k) { SameLater(c, w, h, k, f); }
    GatheredCons(h, rest, Sends(c, w, f), Sends(c, u, f));
    assert u.out == w.out + Sends(c, w, f)(h);
  }

  lemma {:induction false} BatchSends(c: Setup, w: World, batch: seq<Hash>, f: Answer)
    requires Timeouts.Distinct(batch)
    ensures PassedAll(c, w, batch, f).out == w.out + Gathered(batch, Sends(c, w, f))
    decreases |batch|
  {
    if batch != [] {
      BatchSends(c, Passed(c, w, batch[0], f), batch[1..], f);
      FirstSends(c, w, batch[0], batch[1..], f);
      assert batch == [batch[0]] + batch[1..];
    }
  }

  /** The places in the batch of those that send a message. */
  lemma {:induction false} GatheredAt(batch: seq<Hash>, sends: Hash -> seq<Sent>) returns (at: seq<nat>)
    requires forall k :: |sends(k)| <= 1
    ensures forall i, j | 0 <= i < j < |at| :: at[i] < at[j]
    ensures forall j: nat :: j in at <==> j < |batch| && sends(batch[j]) != []
    ensures |Gathered(batch, sends)| == |at|
    ensures forall i | 0 <= i < |at| :: at[i] < |batch| && sends(batch[at[i]]) == [Gathered(batch, sends)[i]]
  {
    at := [];
    if batch != [] {
      var n := |batch| - 1;
      at := GatheredAt(batch[..n], sends);
      forall i | 0 <= i < |at| ensures at[i] < n { assert at[i] in at; }
      if sends(batch[n]) != [] { at := at + [n]; }
    }
  }

  /**
   * The messages of a batch, whatever all the calls answer, in its order: one for each member, at the places `at`,
   * whose row is read and misses a stream, under partial policy, whose row projects and whose produce has effect. Each
   * is the projection of the row, under the key's hash.
   */
  lemma BatchMessages(c: Setup, w: World, batch: seq<Hash>, f: Answer) returns (at: seq<nat>)
    requires Timeouts.Distinct(batch)
    ensures forall i, j | 0 <= i < j < |at| :: at[i] < at[j]
    ensures forall j: nat :: j in at <==>
      && j < |batch| && f(batch[j], AtGet).Fine()
      && batch[j] in w.rows && |w.rows[batch[j]].cells| < |c.join.streamIDs| && c.join.egress == "partial"
      && c.Doc(w.rows[batch[j]].cells).Some? && c.producer && f(batch[j], AtPartial).Took()
    ensures var v := DriveManager(c, w, NextMember(batch), f);
      && w.out <= v.out && |v.out| == |w.out| + |at|
      && forall i | 0 <= i < |at| ::
           at[i] < |batch| &&
           var k := batch[at[i]];
           && k in w.rows && c.Doc(w.rows[k].cells).Some?
           && v.out[|w.out| + i] == Sent(Partial, k, c.Doc(w.rows[k].cells).value, "", k, w.rows[k].cells)
  {
    BatchIsPassed(c, w, batch, f);
    BatchSends(c, w, batch, f);
    at := GatheredAt(batch, Sends(c, w, f));
    var v := DriveManager(c, w, NextMember(batch), f);
    forall i | 0 <= i < |at| ensures [v.out[|w.out| + i]] == PartialOf(c, w, batch[at[i]], f) {
      assert v.out[|w.out| + i] == Gathered(batch, Sends(c, w, f))[i];
    }
  }

  // ---------- the calls for one member ----------

  /** The calls a manager makes, in order. */
  function MemberCalls(c: Setup, w: World, m: Mpc, f: Answer): seq<(Hash, MSite)>
    decreases StepsLeft(m)
  {
    if m.Resting? then [] else
    StepsRunOut(c, w, m, f(m.h, MSiteOf(m)));
    var (v, next) := ManagerStep(c, w, m, f(m.h, MSiteOf(m)));
    [(m.h, MSiteOf(m))] + MemberCalls(c, v, next, f)
  }

  lemma MemberCallsStep(c: Setup, w: World, m: Mpc, f: Answer)
    requires !m.Resting?
    ensures var (v, next) := ManagerStep(c, w, m, f(m.h, MSiteOf(m)));
      MemberCalls(c, w, m, f) == [(m.h, MSiteOf(m))] + MemberCalls(c, v, next, f)
  {
  }

  lemma UnlistCalls(c: Setup, w: World, k: Hash, f: Answer)
    ensures MemberCalls(c, w, Unschedule(k, []), f) == [(k, AtUnschedule)]
  {
    MemberCallsStep(c, w, Unschedule(k, []), f);
  }

  lemma DropCalls(c: Setup, w: World, k: Hash, f: Answer)
    ensures MemberCalls(c, w, DropRow(k, []), f) == [(k, AtDropRow), (k, AtUnschedule)]
  {
    MemberCallsStep(c, w, DropRow(k, []), f);
    UnlistCalls(c, ManagerStep(c, w, DropRow(k, []), f(k, AtDropRow)).0, k, f);
  }

  lemma TrackCalls(c: Setup, w: World, k: Hash, f: Answer)
    ensures MemberCalls(c, w, Tracked(c, k, []), f) ==
      (if c.tracker then [(k, AtTrack)] else []) + [(k, AtDropRow), (k, AtUnschedule)]
  {
    if c.tracker {
      MemberCallsStep(c, w, Track(k, []), f);
      DropCalls(c, ManagerStep(c, w, Track(k, []), f(k, AtTrack)).0, k, f);
    } else {
      DropCalls(c, w, k, f);
    }
  }

  lemma PartialCalls(c: Setup, w: World, k: Hash, f: Answer, cells: Cells, text: string)
    ensures MemberCalls(c, w, PublishPartial(k, [], cells, text), f) ==
      [(k, AtPartial)] + if !f(k, AtPartial).Fine() then []
        else (if c.tracker then [(k, AtTrack)] else []) + [(k, AtDropRow), (k, AtUnschedule)]
  {
    MemberCallsStep(c, w, PublishPartial(k, [], cells, text), f);
    TrackCalls(c, ManagerStep(c, w, PublishPartial(k, [], cells, text), f(k, AtPartial)).0, k, f);
  }

  /**
   * The calls for a due key: after the read nothing but its removal from the timeout set, unless its row was read and
   * misses a stream. Then the partial goes out first, the key is tracked next, and the row deleted before the key is
   * taken off the set.
   */
  lemma CallsForMember(c: Setup, w: World, k: Hash, f: Answer)
    ensures var partial := if c.producer then [(k, AtPartial)] else [];
      var track := if c.tracker then [(k, AtTrack)] else [];
      MemberCalls(c, w, Get(k, []), f) == [(k, AtGet)] +
      if !(f(k, AtGet).Fine() && k in w.rows && |w.rows[k].cells| < |c.join.streamIDs|) then [(k, AtUnschedule)]
      else if c.join.egress != "partial" then [(k, AtDropRow), (k, AtUnschedule)]
      else if c.Doc(w.rows[k].cells).None? then []
      else if c.producer && !f(k, AtPartial).Fine() then [(k, AtPartial)]
      else partial + track + [(k, AtDropRow), (k, AtUnschedule)]
  {
    MemberCallsStep(c, w, Get(k, []), f);
    if !ReadShort(c, w, k, f) {
      UnlistCalls(c, w, k, f);
    } else if !c.Partials() {
      DropCalls(c, w, k, f);
    } else if c.Doc(w.rows[k].cells).Some? {
      if c.producer {
        PartialCalls(c, w, k, f, w.rows[k].cells, c.Doc(w.rows[k].cells).value);
      } else {
        TrackCalls(c, w, k, f);
      }
    }
  }
}
