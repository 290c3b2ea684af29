/**
 * Serial handling as runs of the full system: each record is delivered to one handler that is run to its end. With N
 * records of different streams and one key, the last handler gets as far as publishing or queueing their join.
 */
module SerialRuns {
  import opened Base
  import opened Projection
  import opened Protocol
  import opened Provenance
  import opened Atomic
  import Serial = BloomRefinement
  import PerKey
  import LateArrival

  const DONE := Reply(Done, {}, 0)

  predicate CalmAction(a: Action) {
    match a
    case RunHandler(_, r) => r.Fine()
    case RunManager(_, r) => r.Fine()
    case RunFlusher(_, r) => r.Fine()
    case Deliver(_, _) => true
    case PollTimeouts(_, _) => true
    case PollDelays(_, _, _) => true
    case _ => false
  }

  /** Nothing fails, is killed, is lost or expires. */
  predicate Calm(actions: seq<Action>) {
    forall a | a in actions :: CalmAction(a)
  }

  /** The records delivered are among these. */
  predicate DeliversOnly(actions: seq<Action>, es: seq<Event>) {
    forall a | a in actions && a.Deliver? :: a.e in es
  }

  /** A run in which only handler 0 is at work, nothing fails, and just these records are delivered. */
  predicate Serially(c: Setup, actions: seq<Action>, s: System, es: seq<Event>) {
    && s == Run(c, actions) && Calm(actions) && DeliversOnly(actions, es)
    && s.threads.Keys <= {0} && s.managers == map[] && s.flushers == map[]
  }

  lemma OneMore(c: Setup, actions: seq<Action>, s: System, es: seq<Event>, a: Action)
    requires Serially(c, actions, s, es) && CalmAction(a)
    requires (a.RunHandler? && a.t == 0) || (a.Deliver? && a.t == 0 && a.e in es)
    ensures Serially(c, actions + [a], Step(c, s, a), es)
  {
    RunSnoc(c, actions, a);
  }

  // ---------- one record ----------

  /** Handler 0 is run to its end, `f` giving the replies. */
  lemma {:induction false} DriveActions(c: Setup, actions: seq<Action>, s: System, es: seq<Event>, pc: Pc,
      f: Site -> Reply) returns (all: seq<Action>, n: System)
    requires Serially(c, actions, s, es) && 0 in s.threads && s.threads[0] == pc && forall x :: f(x).Fine()
    ensures Serially(c, all, n, es) && n.w == Drive(c, s.w, pc, f).0 && Free(n, 0)
    decreases CallsLeft(pc)
  {
    if pc.Ended? {
      all, n := actions, s;
    } else {
      var a := RunHandler(0, f(SiteOf(pc)));
      var (w, next) := HandlerStep(c, s.w, pc, f(SiteOf(pc)));
      CallsRunOut(c, s.w, pc, f(SiteOf(pc)));
      DriveStep(c, s.w, pc, f);
      OneMore(c, actions, s, es, a);
      all, n := DriveActions(c, actions + [a], s.(w := w, threads := s.threads[0 := next]), es, next, f);
    }
  }

  lemma RecordDriven(c: Setup, w: World, e: Event)
    ensures Perform(c, w, Record(e, PerKey.FINE)) == Drive(c, w, Start(c, e), Replies(PerKey.FINE)).0
    ensures forall x :: Replies(PerKey.FINE)(x).Fine()
  {
    PerformIsDriven(c, w, Record(e, PerKey.FINE));
  }

  lemma Delivered(c: Setup, s: System, e: Event)
    requires Free(s, 0) && c.decode(e.payload).Some?
    ensures var n := Step(c, s, Deliver(0, e)); n.w == s.w && 0 in n.threads && n.threads[0] == Start(c, e)
  {
  }

  lemma RecordActions(c: Setup, actions: seq<Action>, s: System, es: seq<Event>, e: Event)
    returns (all: seq<Action>, n: System)
    requires Serially(c, actions, s, es) && Free(s, 0) && c.decode(e.payload).Some? && e in es
    ensures Serially(c, all, n, es) && Free(n, 0) && n.w == Perform(c, s.w, Record(e, PerKey.FINE))
  {
    var a := Deliver(0, e);
    Delivered(c, s, e);
    RecordDriven(c, s.w, e);
    OneMore(c, actions, s, es, a);
    all, n := DriveActions(c, actions + [a], Step(c, s, a), es, Start(c, e), Replies(PerKey.FINE));
  }

  /** Handling records one after the other is a run of the full system. */
  lemma {:induction false} SerialActions(c: Setup, all: seq<Event>, es: seq<Event>)
    returns (actions: seq<Action>, s: System)
    requires PerKey.AllDecode(c, all) && es <= all
    ensures Serially(c, actions, s, all) && Free(s, 0) && s.w == Serial.Run(c, PerKey.Records(es))
  {
    if es == [] {
      actions, s := [], INIT;
      assert PerKey.Records(es) == [];
    } else {
      var init, e := es[..|es| - 1], es[|es| - 1];
      assert e == all[|es| - 1];
      actions, s := SerialActions(c, all, init);
      PerKey.RecordsSnoc(es);
      PerKey.RunSnoc(c, PerKey.Records(init), Record(e, PerKey.FINE));
      actions, s := RecordActions(c, actions, s, all, e);
    }
  }

  // ---------- a key's records gathered in its row ----------

  /** The world of a key whose records so far are in its row, with nothing published or queued. */
  predicate Gathering(c: Setup, w: World, h: Hash, cells: Cells) {
    && CellsAt(w, h) == cells && w.tracker == {} && w.queue == [] && w.out == []
    && (c.bloom && cells != map[] ==> h in w.bloom)
  }

  lemma GatherDecides(c: Setup, row: Row, e: Event)
    requires |row.cells| < c.N()
    ensures Decide(c, row, false, e, Replies(PerKey.FINE)) == Nothing(true)
  {
  }

  /** A record of an incomplete row, or one the filter lets pass without reading back, is only written. */
  lemma GatherStep(c: Setup, w: World, e: Event, cells: Cells)
    requires Gathering(c, w, e.hash, cells)
    requires |cells[e.stream := e.payload]| < c.N() || (c.bloom && e.hash !in w.bloom)
    ensures Gathering(c, Perform(c, w, Record(e, PerKey.FINE)), e.hash, cells[e.stream := e.payload])
  {
    var v := Upsert(w, e);
    assert v.rows[e.hash].cells == cells[e.stream := e.payload];
    if c.bloom && e.hash !in w.bloom {
    } else {
      GatherDecides(c, v.rows[e.hash], e);
    }
  }

  lemma {:induction false} GatherAll(c: Setup, es: seq<Event>, h: Hash)
    requires |es| < c.N() && forall e | e in es :: e.hash == h
    ensures Gathering(c, Serial.Run(c, PerKey.Records(es)), h, LateArrival.Gathered(es))
  {
    if es == [] {
      assert PerKey.Records(es) == [];
    } else {
      var init, e := es[..|es| - 1], es[|es| - 1];
      GatherAll(c, init, h);
      PerKey.RecordsSnoc(es);
      PerKey.RunSnoc(c, PerKey.Records(init), Record(e, PerKey.FINE));
      LateArrival.GatheredCount(es);
      GatherStep(c, Serial.Run(c, PerKey.Records(init)), e, LateArrival.Gathered(init));
    }
  }

  // ---------- the record that completes them ----------

  predicate OnePerStream(es: seq<Event>) {
    forall i, j | 0 <= i < j < |es| :: es[i].stream != es[j].stream
  }

  function StreamsOf(es: seq<Event>): set<string> {
    set e | e in es :: e.stream
  }

  /** N usable records of different streams and one key. */
  predicate FullSet(c: Setup, es: seq<Event>, h: Hash) {
    |es| == c.N() >= 1 && OnePerStream(es) && PerKey.AllDecode(c, es) && forall e | e in es :: e.hash == h
  }

  lemma {:induction false} GatheredStreams(es: seq<Event>)
    requires OnePerStream(es)
    ensures LateArrival.Gathered(es).Keys == StreamsOf(es) && |LateArrival.Gathered(es)| == |es|
  {
    if es == [] {
      assert StreamsOf(es) == {};
    } else {
      var n := |es| - 1;
      GatheredStreams(es[..n]);
      assert StreamsOf(es) == StreamsOf(es[..n]) + {es[n].stream};
      assert LateArrival.Gathered(es).Keys == LateArrival.Gathered(es[..n]).Keys + {es[n].stream};
    }
  }

  lemma GatheredDecode(c: Setup, es: seq<Event>)
    requires PerKey.AllDecode(c, es)
    ensures Decodes(c.decode, LateArrival.Gathered(es))
  {
    forall s | s in LateArrival.Gathered(es) ensures c.decode(LateArrival.Gathered(es)[s]).Some? {
      LateArrival.GatheredIn(es, s);
    }
  }

  lemma LastOf(c: Setup, es: seq<Event>, h: Hash)
    requires FullSet(c, es, h)
    ensures var n := |es| - 1; var cells := LateArrival.Gathered(es[..n]);
      && (forall e | e in es[..n] :: e.hash == h) && es[n] in es && es[n].hash == h && c.decode(es[n].payload).Some?
      && LateArrival.Gathered(es) == cells[es[n].stream := es[n].payload] && (n > 0 ==> cells != map[])
  {
    GatheredStreams(es[..|es| - 1]);
  }

  /** What the filter has not seen is written without reading back; then it knows the key. */
  lemma WrittenAgain(c: Setup, actions: seq<Action>, s: System, es: seq<Event>, e: Event, cells: Cells)
    returns (all: seq<Action>, n: System, more: Cells)
    requires Serially(c, actions, s, es) && Free(s, 0) && c.decode(e.payload).Some? && e in es
    requires Gathering(c, s.w, e.hash, cells) && c.bloom && e.hash !in s.w.bloom
    ensures Serially(c, all, n, es) && Free(n, 0) && Gathering(c, n.w, e.hash, more) && e.hash in n.w.bloom
    ensures more == cells[e.stream := e.payload]
  {
    GatherStep(c, s.w, e, cells);
    all, n := RecordActions(c, actions, s, es, e);
    more := cells[e.stream := e.payload];
  }

  /** All but the last record are in the row, and the filter, if there is one, knows the key. */
  lemma AllButLast(c: Setup, es: seq<Event>, h: Hash) returns (actions: seq<Action>, s: System, cells: Cells)
    requires FullSet(c, es, h)
    ensures Serially(c, actions, s, es) && Free(s, 0) && Gathering(c, s.w, h, cells) && (c.bloom ==> h in s.w.bloom)
    ensures var e := es[|es| - 1]; cells[e.stream := e.payload] == LateArrival.Gathered(es)
  {
    var n := |es| - 1;
    LastOf(c, es, h);
    actions, s := SerialActions(c, es, es[..n]);
    GatherAll(c, es[..n], h);
    cells := LateArrival.Gathered(es[..n]);
    if c.bloom && h !in s.w.bloom {
      actions, s, cells := WrittenAgain(c, actions, s, es, es[n], cells);
    }
  }

  /** From its start a handler writes, after asking the filter if there is one, and reads back. */
  lemma WritesAndReads(c: Setup, actions: seq<Action>, s: System, es: seq<Event>, e: Event)
    returns (all: seq<Action>, n: System)
    requires Serially(c, actions, s, es) && 0 in s.threads && s.threads[0] == Start(c, e)
    requires c.bloom ==> e.hash in s.w.bloom
    ensures Serially(c, all, n, es) && n.w == Upsert(s.w, e)
    ensures 0 in n.threads && n.threads[0] == AfterRead(c, e, RowAt(n.w, e.hash))
  {
    var call := RunHandler(0, DONE);
    all, n := actions, s;
    if c.bloom {
      OneMore(c, all, n, es, call);
      all, n := all + [call], Step(c, n, call);
    }
    assert n.w == s.w && n.threads[0] == Write(e);
    OneMore(c, all, n, es, call);
    all, n := all + [call], Step(c, n, call);
    OneMore(c, all, n, es, call);
    all, n := all + [call], Step(c, n, call);
  }

  lemma FullRowGoesOut(c: Setup, e: Event, row: Row)
    requires |row.cells| >= c.N() && Decodes(c.decode, row.cells)
    ensures c.Doc(row.cells).Some?
    ensures AfterRead(c, e, Some(row)) == var text := c.Doc(row.cells).value;
      if c.Delays() then Enqueue(e, row.cells, text) else Publish(e, row.cells, text)
  {
    DocumentText(c, row.cells);
  }

  /** The last record's handler has read the row back and is about to publish or queue the join. */
  lemma Ready(c: Setup, es: seq<Event>, h: Hash) returns (actions: seq<Action>, s: System)
    requires FullSet(c, es, h)
    ensures Serially(c, actions, s, es) && 0 in s.threads && Gathering(c, s.w, h, LateArrival.Gathered(es))
    ensures var e, cells := es[|es| - 1], LateArrival.Gathered(es);
      && cells.Keys == StreamsOf(es) && c.Doc(cells).Some?
      && s.threads[0] ==
         if c.Delays() then Enqueue(e, cells, c.Doc(cells).value) else Publish(e, cells, c.Doc(cells).value)
  {
    var e, full := es[|es| - 1], LateArrival.Gathered(es);
    var cells;
    actions, s, cells := AllButLast(c, es, h);
    GatheredStreams(es);
    GatheredDecode(c, es);
    var a := Deliver(0, e);
    Delivered(c, s, e);
    OneMore(c, actions, s, es, a);
    actions, s := WritesAndReads(c, actions + [a], Step(c, s, a), es, e);
    assert s.w.rows[h].cells == full;
    FullRowGoesOut(c, e, s.w.rows[h]);
  }

  lemma DueAlone(item: Item, now: int)
    requires item.publishAt <= now
    ensures Due([item], now) == [item]
  {
    assert [item][1..] == [];
    assert Due([], now) == [];
  }
}
