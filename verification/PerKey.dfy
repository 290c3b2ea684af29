/**
 * A join is a per-key affair. Whatever a run does with one key (its row, its partials, its queued joins and its
 * messages) is what the run of that key's own operations does, so interleavings that agree key by key publish the
 * same per key and end with the same store. When nothing fails and nothing times out, that run is a fold over the
 * key's records: last write wins, emit and start over at N.
 */
module PerKey {
  import opened Base
  import opened Projection
  import opened Protocol
  import opened Atomic
  import opened BloomRefinement

  function KeyOf(op: Op): Hash {
    match op
    case Record(e, _) => e.hash
    case Timeout(h, _) => h
    case Expiry(h, _) => h
    case Settle(item, _) => item.hash
  }

  /** The operations on one key, in order. */
  function OpsOf(ops: seq<Op>, k: Hash): seq<Op> {
    if ops == [] then [] else
    OpsOf(ops[..|ops| - 1], k) + if KeyOf(ops[|ops| - 1]) == k then [ops[|ops| - 1]] else []
  }

  function SentFor(out: seq<Sent>, k: Hash): seq<Sent> {
    if out == [] then [] else
    SentFor(out[..|out| - 1], k) + if out[|out| - 1].hash == k then [out[|out| - 1]] else []
  }

  function QueuedFor(queue: seq<Item>, k: Hash): seq<Item> {
    if queue == [] then []
    else if queue[0].hash == k then [queue[0]] + QueuedFor(queue[1..], k)
    else QueuedFor(queue[1..], k)
  }

  function EntryFor<V>(m: map<Hash, V>, k: Hash): map<Hash, V> {
    if k in m then map[k := m[k]] else map[]
  }

  /** What a world holds of one key. */
  function View(w: World, k: Hash): World {
    World(
      EntryFor(w.rows, k),
      {},
      EntryFor(w.timeouts, k),
      if k in w.tracker then {k} else {},
      QueuedFor(w.queue, k),
      SentFor(w.out, k))
  }

  // ---------- one operation ----------

  lemma SentForPush(out: seq<Sent>, m: Sent, k: Hash)
    ensures SentFor(out + [m], k) == SentFor(out, k) + if m.hash == k then [m] else []
  {
    assert (out + [m])[..|out|] == out;
  }

  lemma {:induction false} QueuedForPush(queue: seq<Item>, item: Item, k: Hash)
    ensures QueuedFor(queue + [item], k) == QueuedFor(queue, k) + if item.hash == k then [item] else []
  {
    if queue != [] {
      QueuedForPush(queue[1..], item, k);
      assert (queue + [item])[1..] == queue[1..] + [item];
    }
  }

  lemma QueuedForCons(q: Item, qs: seq<Item>, k: Hash)
    ensures QueuedFor([q] + qs, k) == if q.hash == k then [q] + QueuedFor(qs, k) else QueuedFor(qs, k)
  {
    assert ([q] + qs)[1..] == qs;
  }

  lemma WithoutCons(q: Item, qs: seq<Item>, item: Item)
    ensures Without([q] + qs, item) == if SameMember(q, item) then Without(qs, item) else [q] + Without(qs, item)
  {
    assert ([q] + qs)[1..] == qs;
  }

  lemma {:induction false} QueuedForWithout(queue: seq<Item>, item: Item, k: Hash)
    ensures QueuedFor(Without(queue, item), k) ==
      if item.hash == k then Without(QueuedFor(queue, k), item) else QueuedFor(queue, k)
  {
    if queue != [] {
      var q, qs := queue[0], queue[1..];
      QueuedForWithout(qs, item, k);
      assert queue == [q] + qs;
      WithoutCons(q, qs, item);
      QueuedForCons(q, Without(qs, item), k);
      WithoutCons(q, QueuedFor(qs, k), item);
    }
  }

  lemma MinusCons(q: Item, qs: seq<Item>, item: Item)
    ensures Minus([q] + qs, item) == if q == item then qs else [q] + Minus(qs, item)
  {
    assert ([q] + qs)[1..] == qs;
  }

  lemma {:induction false} QueuedForMinus(queue: seq<Item>, item: Item, k: Hash)
    ensures QueuedFor(Minus(queue, item), k) ==
      if item.hash == k then Minus(QueuedFor(queue, k), item) else QueuedFor(queue, k)
  {
    if queue != [] {
      var q, qs := queue[0], queue[1..];
      QueuedForMinus(qs, item, k);
      assert queue == [q] + qs;
      MinusCons(q, qs, item);
      QueuedForCons(q, Minus(qs, item), k);
      MinusCons(q, QueuedFor(qs, k), item);
    }
  }

  lemma {:induction false} QueuedForMember(queue: seq<Item>, item: Item)
    ensures item in queue <==> item in QueuedFor(queue, item.hash)
  {
    if queue != [] { QueuedForMember(queue[1..], item); }
  }

  lemma EnqueuedView(c: Setup, queue: seq<Item>, item: Item, k: Hash)
    ensures QueuedFor(Enqueued(c, queue, item), k) ==
      if item.hash == k then Enqueued(c, QueuedFor(queue, k), item) else QueuedFor(queue, k)
  {
    QueuedForWithout(queue, item, k);
    QueuedForPush(if c.durable then Without(queue, item) else queue, item, k);
  }

  /** An effect on `h` concerns only `h`. */
  predicate About(x: Effect, h: Hash) {
    (x.sent.Some? ==> x.sent.value.hash == h) && (x.queued.Some? ==> x.queued.value.hash == h)
  }

  lemma EntryForRemoval<V>(m: map<Hash, V>, h: Hash, k: Hash)
    ensures EntryFor(m - {h}, k) == if h == k then EntryFor(m, k) - {k} else EntryFor(m, k)
  {
  }

  lemma EnactOut(c: Setup, w: World, h: Hash, x: Effect, k: Hash)
    requires About(x, h)
    ensures SentFor(Enact(c, w, h, x).out, k) == if h == k then Enact(c, View(w, k), k, x).out else SentFor(w.out, k)
  {
    if x.sent.Some? { SentForPush(w.out, x.sent.value, k); }
  }

  lemma EnactQueue(c: Setup, w: World, h: Hash, x: Effect, k: Hash)
    requires About(x, h)
    ensures QueuedFor(Enact(c, w, h, x).queue, k) ==
      if h == k then Enact(c, View(w, k), k, x).queue else QueuedFor(w.queue, k)
  {
    if x.queued.Some? { EnqueuedView(c, w.queue, x.queued.value, k); }
  }

  lemma EnactMaps(c: Setup, w: World, h: Hash, x: Effect, k: Hash)
    ensures EntryFor(Enact(c, w, h, x).rows, k) ==
      if h == k then Enact(c, View(w, k), k, x).rows else EntryFor(w.rows, k)
    ensures EntryFor(Enact(c, w, h, x).timeouts, k) ==
      if h == k then Enact(c, View(w, k), k, x).timeouts else EntryFor(w.timeouts, k)
  {
    EntryForRemoval(w.rows, h, k);
    EntryForRemoval(w.timeouts, h, k);
  }

  lemma EnactTracker(c: Setup, w: World, h: Hash, x: Effect, k: Hash)
    ensures View(Enact(c, w, h, x), k).tracker ==
      if h == k then Enact(c, View(w, k), k, x).tracker else View(w, k).tracker
  {
  }

  lemma SameWorld(w: World, v: World)
    requires w.rows == v.rows && w.bloom == v.bloom && w.timeouts == v.timeouts
    requires w.tracker == v.tracker && w.queue == v.queue && w.out == v.out
    ensures w == v
  {
  }

  lemma EnactView(c: Setup, w: World, h: Hash, x: Effect, k: Hash)
    requires About(x, h)
    ensures View(Enact(c, w, h, x), k) == if h == k then Enact(c, View(w, k), k, x) else View(w, k)
  {
    EnactOut(c, w, h, x, k);
    EnactQueue(c, w, h, x, k);
    EnactMaps(c, w, h, x, k);
    EnactTracker(c, w, h, x, k);
    SameWorld(View(Enact(c, w, h, x), k), if h == k then Enact(c, View(w, k), k, x) else View(w, k));
  }

  lemma UpsertView(w: World, e: Event, k: Hash)
    ensures View(Upsert(w, e), k) == if e.hash == k then Upsert(View(w, k), e) else View(w, k)
  {
  }

  lemma DecisionAbout(c: Setup, row: Row, tracked: bool, e: Event, f: Site -> Reply)
    ensures About(Decide(c, row, tracked, e, f), e.hash)
  {
  }

  lemma AfterWriteView(c: Setup, w: World, e: Event, f: Site -> Reply, k: Hash)
    requires e.hash in w.rows
    ensures View(AfterWrite(c, w, e, f).0, k) == if e.hash == k then AfterWrite(c, View(w, k), e, f).0 else View(w, k)
  {
    var x := Decide(c, w.rows[e.hash], e.hash in w.tracker, e, f);
    DecisionAbout(c, w.rows[e.hash], e.hash in w.tracker, e, f);
    EnactView(c, w, e.hash, x, k);
  }

  lemma RecordView(c: Setup, w: World, e: Event, a: Answers, k: Hash)
    requires !c.bloom
    ensures View(Perform(c, w, Record(e, a)), k) ==
      if e.hash == k then Perform(c, View(w, k), Record(e, a)) else View(w, k)
  {
    UpsertView(w, e, k);
    AfterWriteView(c, Upsert(w, e), e, Replies(a), k);
  }

  lemma TimingAbout(c: Setup, row: Option<Row>, h: Hash, produce: Reply)
    ensures About(Timing(c, row, h, produce), h)
  {
  }

  lemma FiredView(c: Setup, w: World, h: Hash, produce: Reply, k: Hash)
    ensures View(Fired(c, w, h, produce), k) == if h == k then Fired(c, View(w, k), h, produce) else View(w, k)
  {
    var x := Timing(c, RowAt(w, h), h, produce);
    TimingAbout(c, RowAt(w, h), h, produce);
    EnactView(c, w, h, x, k);
  }

  lemma ExpireView(w: World, h: Hash, streams: set<string>, k: Hash)
    ensures View(Expire(w, h, streams), k) == if h == k then Expire(View(w, k), h, streams) else View(w, k)
  {
  }

  lemma SettledView(c: Setup, w: World, item: Item, produce: Reply, k: Hash)
    ensures View(Settled(c, w, item, produce), k) ==
      if item.hash == k then Settled(c, View(w, k), item, produce) else View(w, k)
  {
    QueuedForMember(w.queue, item);
    if item in w.queue {
      var v := w.(queue := Taken(c, w.queue, item));
      QueuedForWithout(w.queue, item, k);
      QueuedForMinus(w.queue, item, k);
      var sent := Accepted(c, produce, Sent(Delayed, item.msgKey, item.text, "", item.hash, item.cells));
      var done := !c.producer || produce.Fine();
      EnactView(c, v, item.hash, Effect(sent, done, None, false, None, true), k);
    }
  }

  lemma PerformView(c: Setup, w: World, op: Op, k: Hash)
    requires !c.bloom
    ensures View(Perform(c, w, op), k) == if KeyOf(op) == k then Perform(c, View(w, k), op) else View(w, k)
  {
    match op {
      case Record(e, a) => RecordView(c, w, e, a, k);
      case Timeout(h, produce) => FiredView(c, w, h, produce, k);
      case Expiry(h, streams) => ExpireView(w, h, streams, k);
      case Settle(item, produce) => SettledView(c, w, item, produce, k);
    }
  }

  lemma PerformKeyed(c: Setup, w: World, v: World, op: Op, k: Hash)
    requires !c.bloom && View(w, k) == v
    ensures View(Perform(c, w, op), k) == if KeyOf(op) == k then Perform(c, v, op) else v
  {
    PerformView(c, w, op, k);
  }

  // ---------- whole runs ----------

  lemma RunSnoc(c: Setup, ops: seq<Op>, op: Op)
    ensures Run(c, ops + [op]) == Perform(c, Run(c, ops), op)
  {
    assert (ops + [op])[..|ops|] == ops;
  }

  lemma OpsOfSnoc(ops: seq<Op>, op: Op, k: Hash)
    ensures OpsOf(ops + [op], k) == if KeyOf(op) == k then OpsOf(ops, k) + [op] else OpsOf(ops, k)
  {
    assert (ops + [op])[..|ops|] == ops;
  }

  lemma RunViewSnoc(c: Setup, ops: seq<Op>, op: Op, k: Hash)
    requires !c.bloom && View(Run(c, ops), k) == Run(c, OpsOf(ops, k))
    ensures View(Run(c, ops + [op]), k) == Run(c, OpsOf(ops + [op], k))
  {
    OpsOfSnoc(ops, op, k);
    RunSnoc(c, ops, op);
    RunSnoc(c, OpsOf(ops, k), op);
    PerformKeyed(c, Run(c, ops), Run(c, OpsOf(ops, k)), op, k);
  }

  lemma EmptyView(k: Hash)
    ensures View(EMPTY_WORLD, k) == EMPTY_WORLD
  {
  }

  /** Without the filter, a key's share of a run is the run of the key's share. */
  lemma {:induction false} RunView(c: Setup, ops: seq<Op>, k: Hash)
    requires !c.bloom
    ensures View(Run(c, ops), k) == Run(c, OpsOf(ops, k))
  {
    if ops != [] {
      var init, op := ops[..|ops| - 1], ops[|ops| - 1];
      assert init + [op] == ops;
      RunView(c, init, k);
      RunViewSnoc(c, init, op, k);
    } else {
      EmptyView(k);
    }
  }

  ghost predicate SameByKey(a: seq<Op>, b: seq<Op>) {
    forall k :: OpsOf(a, k) == OpsOf(b, k)
  }

  /** The same rows and tracker, and for every key the same messages and queued joins in the same order. */
  ghost predicate SameOutcome(w: World, v: World) {
    w.rows == v.rows && w.tracker == v.tracker
    && forall k :: SentFor(w.out, k) == SentFor(v.out, k) && QueuedFor(w.queue, k) == QueuedFor(v.queue, k)
  }

  lemma EntriesDecide<V>(m: map<Hash, V>, n: map<Hash, V>)
    requires forall k :: EntryFor(m, k) == EntryFor(n, k)
    ensures m == n
  {
    forall k ensures k in m <==> k in n ensures k in m && k in n ==> m[k] == n[k] {
      assert EntryFor(m, k) == EntryFor(n, k);
      assert k in m <==> k in EntryFor(m, k);
      assert k in n <==> k in EntryFor(n, k);
    }
  }

  lemma ViewsDecide(w: World, v: World)
    requires forall k :: View(w, k) == View(v, k)
    ensures SameOutcome(w, v) && w.timeouts == v.timeouts
  {
    forall k
      ensures EntryFor(w.rows, k) == EntryFor(v.rows, k)
      ensures EntryFor(w.timeouts, k) == EntryFor(v.timeouts, k)
      ensures k in w.tracker <==> k in v.tracker
      ensures SentFor(w.out, k) == SentFor(v.out, k) && QueuedFor(w.queue, k) == QueuedFor(v.queue, k)
    {
      assert View(w, k) == View(v, k);
    }
    EntriesDecide(w.rows, v.rows);
    EntriesDecide(w.timeouts, v.timeouts);
  }

  lemma PlainInterleavingsAgree(c: Setup, a: seq<Op>, b: seq<Op>)
    requires !c.bloom && SameByKey(a, b)
    ensures SameOutcome(Run(c, a), Run(c, b))
  {
    forall k ensures View(Run(c, a), k) == View(Run(c, b), k) {
      RunView(c, a, k);
      RunView(c, b, k);
    }
    ViewsDecide(Run(c, a), Run(c, b));
  }

  /** The operation without the false positives it happens to cause. */
  function Bare(op: Op): Op {
    match op
    case Record(e, a) => Record(e, a.(collisions := {}))
    case _ => op
  }

  function Bared(ops: seq<Op>): (r: seq<Op>)
    ensures |r| == |ops|
  {
    if ops == [] then [] else Bared(ops[..|ops| - 1]) + [Bare(ops[|ops| - 1])]
  }

  lemma BareDecision(c: Setup, row: Row, tracked: bool, e: Event, a: Answers)
    ensures Decide(c, row, tracked, e, Replies(a)) == Decide(c, row, tracked, e, Replies(a.(collisions := {})))
  {
  }

  lemma BarePerform(c: Setup, w: World, op: Op)
    requires !c.bloom
    ensures Perform(c, w, op) == Perform(c, w, Bare(op))
  {
    if op.Record? {
      BareDecision(c, Upsert(w, op.e).rows[op.e.hash], op.e.hash in w.tracker, op.e, op.a);
    }
  }

  lemma {:induction false} BareRun(c: Setup, ops: seq<Op>)
    requires !c.bloom
    ensures Run(c, ops) == Run(c, Bared(ops))
  {
    if ops != [] {
      var init, op := ops[..|ops| - 1], ops[|ops| - 1];
      BareRun(c, init);
      BarePerform(c, Run(c, init), op);
      RunSnoc(c, Bared(init), Bare(op));
    }
  }

  /**
   * Interleavings that agree key by key end alike, with the filter too once there are two streams, whatever false
   * positives it shows on either side.
   */
  lemma InterleavingsAgree(c: Setup, a: seq<Op>, b: seq<Op>)
    requires (c.bloom ==> c.N() >= 2) && SameByKey(Bared(a), Bared(b))
    ensures SameOutcome(Run(c, a), Run(c, b))
  {
    var p := Plain(c);
    BareRun(p, a);
    BareRun(p, b);
    PlainInterleavingsAgree(p, Bared(a), Bared(b));
    if c.bloom {
      RunAgrees(c, a);
      RunAgrees(c, b);
    } else {
      assert p == c;
    }
  }

  // ---------- the fold over a key's records ----------

  /** One key so far: the participants held since its last join, and the joins emitted. */
  datatype Progress = Progress(held: Cells, joins: seq<Sent>)

  function Advance(c: Setup, s: Progress, e: Event): Progress
    requires Decodes(c.decode, s.held[e.stream := e.payload])
  {
    var cells := s.held[e.stream := e.payload];
    if |cells| < c.N() then s.(held := cells)
    else Progress(map[], s.joins + [Sent(Main, e.msgKey, c.Doc(cells).value, "", e.hash, cells)])
  }

  predicate AllDecode(c: Setup, es: seq<Event>) {
    forall e | e in es :: c.decode(e.payload).Some?
  }

  function Fold(c: Setup, es: seq<Event>): (s: Progress)
    requires AllDecode(c, es)
    ensures Decodes(c.decode, s.held)
  {
    if es == [] then Progress(map[], []) else
    Advance(c, Fold(c, es[..|es| - 1]), es[|es| - 1])
  }

  const FINE := Answers(Reply(Done, {}, 0), Reply(Done, {}, 0), {}, 0, 0)

  function Records(es: seq<Event>): (ops: seq<Op>)
    ensures |ops| == |es|
  {
    seq(|es|, i requires 0 <= i < |es| => Record(es[i], FINE))
  }

  /** The world of one key that has got this far. */
  predicate At(w: World, k: Hash, s: Progress) {
    && w.rows.Keys == (if s.held == map[] then {} else {k})
    && CellsAt(w, k) == s.held
    && w.out == s.joins
    && w.tracker == {} && w.queue == []
  }

  lemma EnactAdvances(c: Setup, w: World, k: Hash, joins: seq<Sent>, cells: Cells, x: Effect, s: Progress)
    requires w.rows.Keys == {k} && w.rows[k].cells == cells && cells != map[]
    requires w.out == joins && w.tracker == {} && w.queue == []
    requires x.tracked == None && x.queued == None
    requires s.held == if x.deleted then map[] else cells
    requires s.joins == if x.sent.Some? then joins + [x.sent.value] else joins
    ensures At(Enact(c, w, k, x), k, s)
  {
  }

  lemma AdvanceDecides(c: Setup, row: Row, s: Progress, e: Event)
    requires !c.Delays() && c.producer && row.cells == s.held[e.stream := e.payload] && Decodes(c.decode, row.cells)
    ensures var x := Decide(c, row, false, e, Replies(FINE));
      && x.tracked == None && x.queued == None
      && Advance(c, s, e).held == (if x.deleted then map[] else row.cells)
      && Advance(c, s, e).joins == (if x.sent.Some? then s.joins + [x.sent.value] else s.joins)
  {
  }

  lemma RecordAdvances(c: Setup, w: World, k: Hash, s: Progress, e: Event)
    requires !c.bloom && !c.Delays() && c.producer && At(w, k, s) && e.hash == k
    requires Decodes(c.decode, s.held) && c.decode(e.payload).Some?
    ensures At(Perform(c, w, Record(e, FINE)), k, Advance(c, s, e))
  {
    var v, cells := Upsert(w, e), s.held[e.stream := e.payload];
    assert v.rows[k].cells == cells && v.rows.Keys == {k};
    AdvanceDecides(c, v.rows[k], s, e);
    EnactAdvances(c, v, k, s.joins, cells, Decide(c, v.rows[k], false, e, Replies(FINE)), Advance(c, s, e));
  }

  lemma HandlingFoldsSnoc(c: Setup, k: Hash, es: seq<Event>, e: Event)
    requires !c.bloom && !c.Delays() && c.producer && AllDecode(c, es) && c.decode(e.payload).Some? && e.hash == k
    requires At(Run(c, Records(es)), k, Fold(c, es))
    ensures At(Run(c, Records(es) + [Record(e, FINE)]), k, Advance(c, Fold(c, es), e))
  {
    RunSnoc(c, Records(es), Record(e, FINE));
    RecordAdvances(c, Run(c, Records(es)), k, Fold(c, es), e);
  }

  lemma RecordsSnoc(es: seq<Event>)
    requires es != []
    ensures Records(es) == Records(es[..|es| - 1]) + [Record(es[|es| - 1], FINE)]
  {
  }

  /** When nothing fails, times out or is delayed, handling one key's records is folding them. */
  lemma {:induction false} HandlingFolds(c: Setup, k: Hash, es: seq<Event>)
    requires !c.bloom && !c.Delays() && c.producer && AllDecode(c, es) && forall e | e in es :: e.hash == k
    ensures At(Run(c, Records(es)), k, Fold(c, es))
  {
    if es == [] {
      assert Records(es) == [];
    } else {
      RecordsSnoc(es);
      HandlingFolds(c, k, es[..|es| - 1]);
      HandlingFoldsSnoc(c, k, es[..|es| - 1], es[|es| - 1]);
    }
  }

  function EventsOf(es: seq<Event>, k: Hash): (r: seq<Event>)
    ensures forall e | e in r :: e in es && e.hash == k
  {
    if es == [] then [] else
    EventsOf(es[..|es| - 1], k) + if es[|es| - 1].hash == k then [es[|es| - 1]] else []
  }

  lemma {:induction false} RecordsOf(es: seq<Event>, k: Hash)
    ensures OpsOf(Records(es), k) == Records(EventsOf(es, k))
  {
    if es == [] {
      assert Records(es) == [];
    } else {
      var init, e := es[..|es| - 1], es[|es| - 1];
      RecordsOf(init, k);
      assert Records(es)[..|es| - 1] == Records(init);
      assert Records(EventsOf(init, k) + [e]) == Records(EventsOf(init, k)) + [Record(e, FINE)];
    }
  }

  lemma {:induction false} FoldPlain(c: Setup, es: seq<Event>)
    requires AllDecode(c, es)
    ensures Fold(Plain(c), es) == Fold(c, es)
  {
    if es != [] { FoldPlain(c, es[..|es| - 1]); }
  }

  /** The joins published for a key, and the participants its row ends with, are the fold over the key's own records. */
  lemma EgressIsFold(c: Setup, es: seq<Event>, k: Hash)
    requires (c.bloom ==> c.N() >= 2) && !c.Delays() && c.producer && AllDecode(c, es)
    ensures AllDecode(c, EventsOf(es, k))
    ensures SentFor(Run(c, Records(es)).out, k) == Fold(c, EventsOf(es, k)).joins
    ensures CellsAt(Run(c, Records(es)), k) == Fold(c, EventsOf(es, k)).held
  {
    var mine := EventsOf(es, k);
    var p := Plain(c);
    if c.bloom { RunAgrees(c, Records(es)); } else { assert p == c; }
    RunView(p, Records(es), k);
    RecordsOf(es, k);
    HandlingFolds(p, k, mine);
    FoldPlain(c, mine);
  }
}
