/**
 * Every handler, timeout manager and delay flusher of every process, interleaved call by call, with any call
 * failing, any of them killed at any moment and any cell expiring. Over all such runs: whatever is published was
 * consumed, joins are complete, and a correction follows the partial it corrects.
 */
module Provenance {
  import opened Base
  import opened Projection
  import opened Protocol

  /** A consumed record, as far as rows remember it. */
  datatype Fact = Fact(hash: Hash, stream: string, payload: Payload)

  datatype System = System(
    w: World,
    threads: map<nat, Pc>,
    managers: map<nat, Mpc>,
    flushers: map<nat, Fpc>,
    known: set<Fact>)

  datatype Action =
    | Deliver(t: nat, e: Event)
    | RunHandler(t: nat, r: Reply)
    | PollTimeouts(m: nat, members: seq<Hash>)
    | RunManager(m: nat, r: Reply)
    | PollDelays(f: nat, items: seq<Item>, now: int)
    | RunFlusher(f: nat, r: Reply)
    | ExpireCells(h: Hash, streams: set<string>)
    | KillHandler(t: nat)
    | KillManager(m: nat)
    | KillFlusher(f: nat)
    | LoseQueue

  const INIT := System(EMPTY_WORLD, map[], map[], map[], {})

  predicate Free(s: System, t: nat) {
    t !in s.threads || s.threads[t].Ended?
  }

  function Due(queue: seq<Item>, now: int): (r: seq<Item>)
    ensures forall i | i in r :: i in queue
  {
    if queue == [] then [] else (if queue[0].publishAt <= now then [queue[0]] else []) + Due(queue[1..], now)
  }

  function Later(queue: seq<Item>, now: int): (r: seq<Item>)
    ensures forall i | i in r :: i in queue
  {
    if queue == [] then [] else (if queue[0].publishAt <= now then [] else [queue[0]]) + Later(queue[1..], now)
  }

  /** One action; an action that is not possible leaves everything as it is. */
  function Step(c: Setup, s: System, a: Action): System {
    match a
    case Deliver(t, e) =>
      if Free(s, t) && c.decode(e.payload).Some? then
        s.(threads := s.threads[t := Start(c, e)], known := s.known + {Fact(e.hash, e.stream, e.payload)})
      else s
    case RunHandler(t, r) =>
      if t !in s.threads then s else
      var (w, pc) := HandlerStep(c, s.w, s.threads[t], r);
      s.(w := w, threads := s.threads[t := pc])
    case PollTimeouts(m, members) =>
      if (m in s.managers && !s.managers[m].Resting?) || exists h :: h in members && h !in s.w.timeouts then s
      else s.(managers := s.managers[m := NextMember(members)])
    case RunManager(m, r) =>
      if m !in s.managers then s else
      var (w, pc) := ManagerStep(c, s.w, s.managers[m], r);
      s.(w := w, managers := s.managers[m := pc])
    case PollDelays(f, items, now) =>
      if f in s.flushers && !s.flushers[f].Quiet? then s
      else if !c.durable then
        s.(w := s.w.(queue := Later(s.w.queue, now)), flushers := s.flushers[f := NextItem(Due(s.w.queue, now))])
      else if forall i | i in items :: i in s.w.queue then s.(flushers := s.flushers[f := NextItem(items)])
      else s
    case RunFlusher(f, r) =>
      if f !in s.flushers then s else
      var (w, pc) := FlusherStep(c, s.w, s.flushers[f], r);
      s.(w := w, flushers := s.flushers[f := pc])
    case ExpireCells(h, streams) => s.(w := Expire(s.w, h, streams))
    case KillHandler(t) => s.(threads := s.threads - {t})
    case KillManager(m) => s.(managers := s.managers - {m})
    case KillFlusher(f) => s.(flushers := s.flushers - {f})
    case LoseQueue => if c.durable then s else s.(w := s.w.(queue := []))
  }

  function Run(c: Setup, actions: seq<Action>): System {
    if actions == [] then INIT else Step(c, Run(c, actions[..|actions| - 1]), actions[|actions| - 1])
  }

  lemma RunSnoc(c: Setup, actions: seq<Action>, a: Action)
    ensures Run(c, actions + [a]) == Step(c, Run(c, actions), a)
  {
    assert (actions + [a])[..|actions|] == actions;
  }

  // ---------- what every step keeps ----------

  predicate Sourced(known: set<Fact>, h: Hash, cells: Cells) {
    forall s | s in cells :: Fact(h, s, cells[s]) in known
  }

  predicate Decodable(c: Setup, known: set<Fact>) {
    forall f | f in known :: c.decode(f.payload).Some?
  }

  predicate PartialSent(out: seq<Sent>, h: Hash) {
    exists i :: 0 <= i < |out| && out[i].kind == Partial && out[i].hash == h
  }

  /** `cells` is a sourced participant map of `h` whose document is `text`. */
  predicate Genuine(c: Setup, known: set<Fact>, h: Hash, cells: Cells, text: string) {
    Sourced(known, h, cells) && c.Doc(cells) == Some(text)
  }

  predicate GoodMessage(c: Setup, known: set<Fact>, out: seq<Sent>, i: nat)
    requires i < |out|
  {
    var m := out[i];
    && Genuine(c, known, m.hash, m.cells, m.text)
    && (m.kind == Main || m.kind == Delayed ==> |m.cells| >= c.N())
    && (m.kind == Partial || m.kind == Late ==> |m.cells| < c.N())
    && (m.kind == Partial || m.kind == Late ==> m.key == m.hash)
    && (m.kind == Late ==> PartialSent(out[..i], m.hash))
  }

  predicate Justified(c: Setup, out: seq<Sent>, h: Hash) {
    c.producer ==> PartialSent(out, h)
  }

  predicate GoodPc(c: Setup, known: set<Fact>, out: seq<Sent>, pc: Pc) {
    && Fact(pc.e.hash, pc.e.stream, pc.e.payload) in known
    && match pc
       case Contains(e, row) => Sourced(known, e.hash, row.cells) && |row.cells| < c.N()
       case Correct(e, row, text) =>
         Genuine(c, known, e.hash, row.cells, text) && |row.cells| < c.N() && Justified(c, out, e.hash)
       case Enqueue(e, cells, text) => Genuine(c, known, e.hash, cells, text) && |cells| >= c.N()
       case Publish(e, cells, text) => Genuine(c, known, e.hash, cells, text) && |cells| >= c.N()
       case _ => true
  }

  predicate GoodMpc(c: Setup, known: set<Fact>, out: seq<Sent>, m: Mpc) {
    match m
    case PublishPartial(h, _, cells, text) => c.producer && Genuine(c, known, h, cells, text) && |cells| < c.N()
    case Track(h, _) => Justified(c, out, h)
    case _ => true
  }

  predicate GoodItem(c: Setup, known: set<Fact>, item: Item) {
    Genuine(c, known, item.hash, item.cells, item.text) && |item.cells| >= c.N()
  }

  predicate GoodFpc(c: Setup, known: set<Fact>, f: Fpc) {
    f.Quiet? || (GoodItem(c, known, f.item) && forall i | i in f.rest :: GoodItem(c, known, i))
  }

  predicate GoodWorld(c: Setup, known: set<Fact>, w: World) {
    && Decodable(c, known)
    && (forall h | h in w.rows :: Sourced(known, h, w.rows[h].cells))
    && (forall h | h in w.tracker :: Justified(c, w.out, h))
    && (forall i | i in w.queue :: GoodItem(c, known, i))
    && (forall i | 0 <= i < |w.out| :: GoodMessage(c, known, w.out, i))
  }

  predicate Inv(c: Setup, s: System) {
    && GoodWorld(c, s.known, s.w)
    && (forall t | t in s.threads :: GoodPc(c, s.known, s.w.out, s.threads[t]))
    && (forall m | m in s.managers :: GoodMpc(c, s.known, s.w.out, s.managers[m]))
    && (forall f | f in s.flushers :: GoodFpc(c, s.known, s.flushers[f]))
  }

  // ---------- growth keeps what was established ----------

  lemma PartialSentGrows(out: seq<Sent>, more: seq<Sent>, h: Hash)
    requires PartialSent(out, h) && out <= more
    ensures PartialSent(more, h)
  {
    var i :| 0 <= i < |out| && out[i].kind == Partial && out[i].hash == h;
    assert more[i] == out[i];
  }

  lemma JustifiedGrows(c: Setup, out: seq<Sent>, more: seq<Sent>, h: Hash)
    requires Justified(c, out, h) && out <= more
    ensures Justified(c, more, h)
  {
    if c.producer { PartialSentGrows(out, more, h); }
  }

  /** Producing one genuine message keeps every message good. */
  lemma ProduceGood(c: Setup, known: set<Fact>, w: World, m: Sent)
    requires GoodWorld(c, known, w)
    requires Genuine(c, known, m.hash, m.cells, m.text)
    requires m.kind == Main || m.kind == Delayed ==> |m.cells| >= c.N()
    requires m.kind == Partial || m.kind == Late ==> |m.cells| < c.N() && m.key == m.hash
    requires m.kind == Late ==> PartialSent(w.out, m.hash)
    ensures GoodWorld(c, known, Produce(w, m))
  {
    var out := w.out + [m];
    forall i | 0 <= i < |out| ensures GoodMessage(c, known, out, i) {
      assert out[..i] == w.out[..i];
      if i < |w.out| { assert GoodMessage(c, known, w.out, i); } else { assert w.out[..i] == w.out; }
    }
    forall h | h in w.tracker ensures Justified(c, out, h) { JustifiedGrows(c, w.out, out, h); }
  }

  lemma SourcedDecodes(c: Setup, known: set<Fact>, h: Hash, cells: Cells)
    requires Sourced(known, h, cells) && Decodable(c, known)
    ensures c.Doc(cells).Some?
  {
    forall s | s in cells ensures c.decode(cells[s]).Some? {
      assert Fact(h, s, cells[s]) in known;
    }
  }

  lemma UpsertGood(c: Setup, known: set<Fact>, w: World, e: Event)
    requires GoodWorld(c, known, w) && Fact(e.hash, e.stream, e.payload) in known
    ensures GoodWorld(c, known, Upsert(w, e))
  {
    assert Sourced(known, e.hash, CellsAt(w, e.hash)[e.stream := e.payload]);
  }

  lemma CompletionGood(c: Setup, known: set<Fact>, out: seq<Sent>, e: Event, row: Option<Row>)
    requires Fact(e.hash, e.stream, e.payload) in known
    requires row.Some? ==> Sourced(known, e.hash, row.value.cells)
    ensures GoodPc(c, known, out, Completion(c, e, row))
  {
  }

  /** The two calls of a handler that may produce a message. */
  lemma SendingStepGood(c: Setup, known: set<Fact>, w: World, pc: Pc, r: Reply)
    requires GoodWorld(c, known, w) && GoodPc(c, known, w.out, pc) && (pc.Correct? || pc.Publish?)
    ensures var (w', pc') := HandlerStep(c, w, pc, r);
      GoodWorld(c, known, w') && w.out <= w'.out && GoodPc(c, known, w'.out, pc')
  {
    match pc {
      case Correct(e, row, text) =>
        if c.producer { ProduceGood(c, known, w, Sent(Late, e.hash, text, row.raw, e.hash, row.cells)); }
      case Publish(e, cells, text) => ProduceGood(c, known, w, Sent(Main, e.msgKey, text, "", e.hash, cells));
    }
  }

  /** The calls that change the world without producing anything. */
  lemma EffectStepGood(c: Setup, known: set<Fact>, w: World, pc: Pc, r: Reply)
    requires GoodWorld(c, known, w) && GoodPc(c, known, w.out, pc)
    requires !pc.Correct? && !pc.Publish? && !pc.Read? && !pc.Contains?
    ensures var (w', pc') := HandlerStep(c, w, pc, r);
      GoodWorld(c, known, w') && w.out == w'.out && GoodPc(c, known, w'.out, pc')
  {
    if pc.WriteOnly? || pc.Write? { UpsertGood(c, known, w, pc.e); }
  }

  /** One handler call keeps the world good, only adds messages, and leaves the handler in good order. */
  lemma HandlerStepGood(c: Setup, known: set<Fact>, w: World, pc: Pc, r: Reply)
    requires GoodWorld(c, known, w) && GoodPc(c, known, w.out, pc)
    ensures var (w', pc') := HandlerStep(c, w, pc, r);
      GoodWorld(c, known, w') && w.out <= w'.out && GoodPc(c, known, w'.out, pc')
  {
    match pc {
      case Read(e) => CompletionGood(c, known, w.out, e, RowAt(w, e.hash));
      case Contains(e, row) => CompletionGood(c, known, w.out, e, Some(row));
      case Correct(e, row, text) => SendingStepGood(c, known, w, pc, r);
      case Publish(e, cells, text) => SendingStepGood(c, known, w, pc, r);
      case _ => EffectStepGood(c, known, w, pc, r);
    }
  }

  lemma ManagerStepGood(c: Setup, known: set<Fact>, w: World, m: Mpc, r: Reply)
    requires GoodWorld(c, known, w) && GoodMpc(c, known, w.out, m)
    ensures var (w', m') := ManagerStep(c, w, m, r);
      GoodWorld(c, known, w') && w.out <= w'.out && GoodMpc(c, known, w'.out, m')
  {
    match m {
      case PublishPartial(h, rest, cells, text) =>
        var sent := Sent(Partial, h, text, "", h, cells);
        ProduceGood(c, known, w, sent);
        assert (w.out + [sent])[|w.out|] == sent;
      case _ =>
    }
  }

  lemma FlusherStepGood(c: Setup, known: set<Fact>, w: World, f: Fpc, r: Reply)
    requires GoodWorld(c, known, w) && GoodFpc(c, known, f)
    ensures var (w', f') := FlusherStep(c, w, f, r);
      GoodWorld(c, known, w') && w.out <= w'.out && GoodFpc(c, known, f')
  {
    match f {
      case Flush(item, rest) =>
        ProduceGood(c, known, w, Sent(Delayed, item.msgKey, item.text, "", item.hash, item.cells));
      case _ =>
    }
  }

  /** Everyone else's standing survives a step that only adds messages. */
  lemma OthersKept(c: Setup, s: System, w: World)
    requires Inv(c, s) && s.w.out <= w.out
    ensures forall t | t in s.threads :: GoodPc(c, s.known, w.out, s.threads[t])
    ensures forall m | m in s.managers :: GoodMpc(c, s.known, w.out, s.managers[m])
  {
    forall t | t in s.threads ensures GoodPc(c, s.known, w.out, s.threads[t]) {
      if s.threads[t].Correct? { JustifiedGrows(c, s.w.out, w.out, s.threads[t].e.hash); }
    }
    forall m | m in s.managers ensures GoodMpc(c, s.known, w.out, s.managers[m]) {
      if s.managers[m].Track? { JustifiedGrows(c, s.w.out, w.out, s.managers[m].h); }
    }
  }

  lemma DeliverKeeps(c: Setup, s: System, t: nat, e: Event)
    requires Inv(c, s)
    ensures Inv(c, Step(c, s, Deliver(t, e)))
  {
    var s' := Step(c, s, Deliver(t, e));
    var known := s'.known;
    assert s.known <= known;
    forall i | 0 <= i < |s.w.out| ensures GoodMessage(c, known, s.w.out, i) {
      assert GoodMessage(c, s.known, s.w.out, i);
    }
  }

  lemma HandlerKeeps(c: Setup, s: System, t: nat, r: Reply)
    requires Inv(c, s) && t in s.threads
    ensures Inv(c, Step(c, s, RunHandler(t, r)))
  {
    HandlerStepGood(c, s.known, s.w, s.threads[t], r);
    OthersKept(c, s, HandlerStep(c, s.w, s.threads[t], r).0);
  }

  lemma ManagerKeeps(c: Setup, s: System, m: nat, r: Reply)
    requires Inv(c, s) && m in s.managers
    ensures Inv(c, Step(c, s, RunManager(m, r)))
  {
    ManagerStepGood(c, s.known, s.w, s.managers[m], r);
    OthersKept(c, s, ManagerStep(c, s.w, s.managers[m], r).0);
  }

  lemma FlusherKeeps(c: Setup, s: System, f: nat, r: Reply)
    requires Inv(c, s) && f in s.flushers
    ensures Inv(c, Step(c, s, RunFlusher(f, r)))
  {
    FlusherStepGood(c, s.known, s.w, s.flushers[f], r);
    OthersKept(c, s, FlusherStep(c, s.w, s.flushers[f], r).0);
  }

  lemma ExpiryKeeps(c: Setup, s: System, h: Hash, streams: set<string>)
    requires Inv(c, s)
    ensures Inv(c, Step(c, s, ExpireCells(h, streams)))
  {
    assert Sourced(s.known, h, CellsAt(s.w, h) - streams);
  }

  lemma PollKeeps(c: Setup, s: System, a: Action)
    requires Inv(c, s) && (a.PollTimeouts? || a.PollDelays? || a.LoseQueue?)
    ensures Inv(c, Step(c, s, a))
  {
  }

  lemma StepKeeps(c: Setup, s: System, a: Action)
    requires Inv(c, s)
    ensures Inv(c, Step(c, s, a))
  {
    match a {
      case Deliver(t, e) => DeliverKeeps(c, s, t, e);
      case RunHandler(t, r) => if t in s.threads { HandlerKeeps(c, s, t, r); }
      case RunManager(m, r) => if m in s.managers { ManagerKeeps(c, s, m, r); }
      case RunFlusher(f, r) => if f in s.flushers { FlusherKeeps(c, s, f, r); }
      case ExpireCells(h, streams) => ExpiryKeeps(c, s, h, streams);
      case PollTimeouts(_, _) => PollKeeps(c, s, a);
      case PollDelays(_, _, _) => PollKeeps(c, s, a);
      case LoseQueue => PollKeeps(c, s, a);
      case _ =>
    }
  }

  lemma {:induction false} RunKeeps(c: Setup, actions: seq<Action>)
    ensures Inv(c, Run(c, actions))
  {
    if actions != [] {
      RunKeeps(c, actions[..|actions| - 1]);
      StepKeeps(c, Run(c, actions[..|actions| - 1]), actions[|actions| - 1]);
    }
  }

  // ---------- the results ----------

  /** A record with this hash, stream and payload was consumed during the run. */
  predicate Consumed(actions: seq<Action>, h: Hash, stream: string, payload: Payload) {
    exists i :: 0 <= i < |actions| && actions[i].Deliver? && actions[i].e.hash == h
      && actions[i].e.stream == stream && actions[i].e.payload == payload
  }

  lemma {:induction false} KnownWasConsumed(c: Setup, actions: seq<Action>, f: Fact)
    requires f in Run(c, actions).known
    ensures Consumed(actions, f.hash, f.stream, f.payload)
  {
    var n := |actions| - 1;
    if f in Run(c, actions[..n]).known {
      KnownWasConsumed(c, actions[..n], f);
      assert Consumed(actions[..n], f.hash, f.stream, f.payload);
    } else {
      assert actions[n].Deliver?;
    }
  }

  /** Nothing is invented: every published text is the document of participants that were all consumed under its key. */
  lemma PublishedWasConsumed(c: Setup, actions: seq<Action>, i: nat)
    requires i < |Run(c, actions).w.out|
    ensures var m := Run(c, actions).w.out[i];
      && c.Doc(m.cells) == Some(m.text)
      && forall s | s in m.cells :: Consumed(actions, m.hash, s, m.cells[s])
  {
    RunKeeps(c, actions);
    var s := Run(c, actions);
    assert GoodMessage(c, s.known, s.w.out, i);
    forall st | st in s.w.out[i].cells ensures Consumed(actions, s.w.out[i].hash, st, s.w.out[i].cells[st]) {
      KnownWasConsumed(c, actions, Fact(s.w.out[i].hash, st, s.w.out[i].cells[st]));
    }
  }

  /** Joins are complete and timeout or late messages are not, on every run. */
  lemma JoinsAreComplete(c: Setup, actions: seq<Action>, i: nat)
    requires i < |Run(c, actions).w.out|
    ensures var m := Run(c, actions).w.out[i]; (m.kind == Main || m.kind == Delayed) <==> |m.cells| >= c.N()
  {
    RunKeeps(c, actions);
    assert GoodMessage(c, Run(c, actions).known, Run(c, actions).w.out, i);
  }

  /** A correction never comes before an accepted partial of the same key. */
  lemma CorrectionFollowsPartial(c: Setup, actions: seq<Action>, i: nat)
    requires i < |Run(c, actions).w.out| && Run(c, actions).w.out[i].kind == Late
    ensures var out := Run(c, actions).w.out;
      exists j :: 0 <= j < i && out[j].kind == Partial && out[j].hash == out[i].hash
  {
    RunKeeps(c, actions);
    var out := Run(c, actions).w.out;
    assert GoodMessage(c, Run(c, actions).known, out, i);
    var j :| 0 <= j < |out[..i]| && out[..i][j].kind == Partial && out[..i][j].hash == out[i].hash;
    assert out[j] == out[..i][j];
  }

  /** Projection never fails on a row the system can reach, so no handler stops for it. */
  lemma ProjectionCannotFail(c: Setup, actions: seq<Action>, h: Hash)
    requires h in Run(c, actions).w.rows
    ensures c.Doc(Run(c, actions).w.rows[h].cells).Some?
  {
    RunKeeps(c, actions);
    SourcedDecodes(c, Run(c, actions).known, h, Run(c, actions).w.rows[h].cells);
  }
}
