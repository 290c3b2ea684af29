/**
 * Whether state is deleted only after its egress (docs/PRODUCTION_READINESS.md), over all runs of the full system.
 * A handler or a timeout manager reads a row, publishes what it read, and then deletes whatever the row holds by then;
 * with a settle delay a flusher publishes and deletes on behalf of the handler that read. Here every cell carries the
 * step that wrote it, and every message and every queued join the read it was made from; so it can be said which
 * records a deletion takes away that are in no message.
 */
module Deletion {
  import opened Base
  import opened Projection
  import opened Protocol
  import opened Provenance

  /** A process that may delete a row. */
  datatype Process = Handler(t: nat) | Manager(m: nat) | Flusher(f: nat)

  datatype Access = Access(p: Process, h: Hash)

  /** A read of a row: its step, and for every cell found the step that had written it. */
  datatype Snapshot = Snapshot(at: nat, writes: map<string, nat>)

  /** Queued joins, each with the read it was made from. */
  type Joins = seq<(Item, Snapshot)>

  /**
   * The system, the last write of each cell, the last read of each handler and manager, the handlers whose last
   * correction was refused, and the reads behind the delay queue, behind what flushers have taken up, and behind each
   * message.
   */
  datatype Trace = Trace(
    s: System,
    writes: map<(Hash, string), nat>,
    seen: map<Process, Snapshot>,
    refused: set<nat>,
    queue: Joins,
    taken: map<nat, Joins>,
    sent: seq<Snapshot>)
  {
    function Written(h: Hash, stream: string): nat {
      if (h, stream) in writes then writes[(h, stream)] else 0
    }

    function Snap(h: Hash, now: nat): Snapshot {
      Snapshot(now, map st | st in CellsAt(s.w, h) :: Written(h, st))
    }

    function TakenBy(f: nat): Joins {
      if f in taken then taken[f] else []
    }

    /** The read the process acts upon; a flusher's is that of the join at hand. */
    function ReadBy(p: Process): Snapshot {
      if p.Flusher? then (if TakenBy(p.f) == [] then Snapshot(0, map[]) else TakenBy(p.f)[0].1)
      else if p in seen then seen[p] else Snapshot(0, map[])
    }
  }

  // ---------- queued joins and their reads ----------

  function ItemsOf(js: Joins): (r: seq<Item>)
    ensures |r| == |js|
  {
    seq(|js|, i requires 0 <= i < |js| => js[i].0)
  }

  function DropMember(js: Joins, item: Item): (r: Joins)
    ensures forall x | x in r :: x in js
  {
    if js == [] then [] else (if SameMember(js[0].0, item) then [] else [js[0]]) + DropMember(js[1..], item)
  }

  function DueJoins(js: Joins, now: int): (r: Joins)
    ensures forall x | x in r :: x in js
  {
    if js == [] then [] else (if js[0].0.publishAt <= now then [js[0]] else []) + DueJoins(js[1..], now)
  }

  function LaterJoins(js: Joins, now: int): (r: Joins)
    ensures forall x | x in r :: x in js
  {
    if js == [] then [] else (if js[0].0.publishAt <= now then [] else [js[0]]) + LaterJoins(js[1..], now)
  }

  lemma ItemsCons(x: (Item, Snapshot), js: Joins)
    ensures ItemsOf([x] + js) == [x.0] + ItemsOf(js)
  {
  }

  lemma ItemsSnoc(js: Joins, x: (Item, Snapshot))
    ensures ItemsOf(js + [x]) == ItemsOf(js) + [x.0]
  {
  }

  lemma ItemsTail(js: Joins)
    requires js != []
    ensures ItemsOf(js) == [js[0].0] + ItemsOf(js[1..])
    ensures ItemsOf(js)[0] == js[0].0 && ItemsOf(js)[1..] == ItemsOf(js[1..])
  {
  }

  /** The item with the read it was queued with. */
  function Found(js: Joins, item: Item): (x: (Item, Snapshot))
    requires item in ItemsOf(js)
    ensures x in js && x.0 == item
  {
    ItemsTail(js);
    if js[0].0 == item then js[0] else Found(js[1..], item)
  }

  function FoundAll(js: Joins, items: seq<Item>): (r: Joins)
    requires forall i | i in items :: i in ItemsOf(js)
    ensures ItemsOf(r) == items && forall x | x in r :: x in js
  {
    seq(|items|, i requires 0 <= i < |items| => Found(js, items[i]))
  }

  lemma {:induction false} DropMemberItems(js: Joins, item: Item)
    ensures ItemsOf(DropMember(js, item)) == Without(ItemsOf(js), item)
  {
    if js != [] {
      ItemsTail(js);
      DropMemberItems(js[1..], item);
      ItemsCons(js[0], DropMember(js[1..], item));
    }
  }

  lemma {:induction false} DueItems(js: Joins, now: int)
    ensures ItemsOf(DueJoins(js, now)) == Due(ItemsOf(js), now)
    ensures ItemsOf(LaterJoins(js, now)) == Later(ItemsOf(js), now)
  {
    if js != [] {
      ItemsTail(js);
      DueItems(js[1..], now);
      ItemsCons(js[0], DueJoins(js[1..], now));
      ItemsCons(js[0], LaterJoins(js[1..], now));
    }
  }

  // ---------- what each action does ----------

  /** The record whose cell this action writes. */
  function WriteOf(s: System, a: Action): Option<Event> {
    if a.RunHandler? && a.t in s.threads && (s.threads[a.t].Write? || s.threads[a.t].WriteOnly?) && a.r.Took()
    then Some(s.threads[a.t].e)
    else None
  }

  function ReadOf(s: System, a: Action): Option<Access> {
    match a
    case RunHandler(t, r) =>
      if t in s.threads && s.threads[t].Read? && r.Fine() then Some(Access(Handler(t), s.threads[t].e.hash)) else None
    case RunManager(m, r) =>
      if m in s.managers && s.managers[m].Get? && r.Fine() then Some(Access(Manager(m), s.managers[m].h)) else None
    case _ => None
  }

  /** The row this action deletes: that of a published join, of a late arrival, of a timeout, or of a flushed join. */
  function DeleteOf(s: System, a: Action): Option<Access> {
    match a
    case RunHandler(t, r) =>
      if t in s.threads && (s.threads[t].Drop? || s.threads[t].DropLate?) && r.Took()
      then Some(Access(Handler(t), s.threads[t].e.hash))
      else None
    case RunManager(m, r) =>
      if m in s.managers && s.managers[m].DropRow? && r.Took()
      then Some(Access(Manager(m), s.managers[m].h))
      else None
    case RunFlusher(f, r) =>
      if f in s.flushers && s.flushers[f].Clear? && r.Took() then Some(Access(Flusher(f), s.flushers[f].item.hash))
      else None
    case _ => None
  }

  function ActorOf(a: Action): Process {
    match a
    case RunManager(m, _) => Manager(m)
    case RunFlusher(f, _) => Flusher(f)
    case RunHandler(t, _) => Handler(t)
    case _ => Handler(0)
  }

  /** The join this action queues. */
  function JoinOf(c: Setup, s: System, a: Action): Option<Item> {
    if a.RunHandler? && a.t in s.threads && s.threads[a.t].Enqueue? && (a.r.Took() || !c.durable) then
      var pc := s.threads[a.t];
      Some(JoinItem(c, pc.e, pc.cells, pc.text, a.r.at))
    else None
  }

  predicate MayPoll(s: System, f: nat) {
    f !in s.flushers || s.flushers[f].Quiet?
  }

  function NextQueue(c: Setup, tr: Trace, a: Action): Joins {
    match a
    case RunHandler(t, _) =>
      (match JoinOf(c, tr.s, a)
       case None => tr.queue
       case Some(item) =>
         (if c.durable then DropMember(tr.queue, item) else tr.queue) + [(item, tr.ReadBy(Handler(t)))])
    case PollDelays(f, _, now) => if MayPoll(tr.s, f) && !c.durable then LaterJoins(tr.queue, now) else tr.queue
    case RunFlusher(f, r) =>
      if f in tr.s.flushers && tr.s.flushers[f].Dequeue? && r.Took() then DropMember(tr.queue, tr.s.flushers[f].item)
      else tr.queue
    case LoseQueue => if c.durable then tr.queue else []
    case _ => tr.queue
  }

  function NextTaken(c: Setup, tr: Trace, a: Action): map<nat, Joins> {
    match a
    case PollDelays(f, items, now) =>
      if !MayPoll(tr.s, f) then tr.taken
      else if !c.durable then tr.taken[f := DueJoins(tr.queue, now)]
      else if forall i | i in items :: i in ItemsOf(tr.queue) then tr.taken[f := FoundAll(tr.queue, items)]
      else tr.taken
    case RunFlusher(f, r) =>
      if f !in tr.s.flushers || tr.TakenBy(f) == [] then tr.taken else
      var next := FlusherStep(c, tr.s.w, tr.s.flushers[f], r).1;
      if next.Quiet? || next.Flush? then tr.taken[f := tr.TakenBy(f)[1..]] else tr.taken
    case _ => tr.taken
  }

  function NextRefused(s: System, a: Action, refused: set<nat>): set<nat> {
    if a.RunHandler? && a.t in s.threads && s.threads[a.t].Correct?
    then (if a.r.Took() then refused - {a.t} else refused + {a.t})
    else refused
  }

  function Next(c: Setup, tr: Trace, a: Action, now: nat): Trace {
    var s := Step(c, tr.s, a);
    Trace(s,
      match WriteOf(tr.s, a) { case None => tr.writes case Some(e) => tr.writes[(e.hash, e.stream) := now] },
      match ReadOf(tr.s, a) { case None => tr.seen case Some(x) => tr.seen[x.p := tr.Snap(x.h, now)] },
      NextRefused(tr.s, a, tr.refused),
      NextQueue(c, tr, a),
      NextTaken(c, tr, a),
      if |s.w.out| > |tr.s.w.out| then tr.sent + [tr.ReadBy(ActorOf(a))] else tr.sent)
  }

  function Traced(c: Setup, actions: seq<Action>): Trace {
    if actions == [] then Trace(INIT, map[], map[], {}, [], map[], []) else
    Next(c, Traced(c, actions[..|actions| - 1]), actions[|actions| - 1], |actions| - 1)
  }

  lemma {:induction false} TracedRun(c: Setup, actions: seq<Action>)
    ensures Traced(c, actions).s == Run(c, actions)
  {
    if actions != [] { TracedRun(c, actions[..|actions| - 1]); }
  }

  // ---------- what every step keeps ----------

  /** Step `n` wrote the record's cell. */
  predicate Wrote(c: Setup, actions: seq<Action>, n: nat, f: Fact) {
    n < |actions| &&
    match WriteOf(Traced(c, actions[..n]).s, actions[n])
    case None => false
    case Some(e) => f == Fact(e.hash, e.stream, e.payload)
  }

  /** Every cell that is there and was written before the read is in the snapshot. */
  predicate Fits(tr: Trace, h: Hash, snap: Snapshot, now: nat) {
    && snap.at <= now
    && (forall st | st in snap.writes :: snap.writes[st] < snap.at)
    && (forall st | st in CellsAt(tr.s.w, h) && tr.Written(h, st) < snap.at ::
          st in snap.writes && snap.writes[st] == tr.Written(h, st))
  }

  /** The participants are those whose writes the snapshot lists. */
  predicate Shows(c: Setup, actions: seq<Action>, h: Hash, cells: Cells, snap: Snapshot) {
    && cells.Keys == snap.writes.Keys
    && forall st | st in cells :: Wrote(c, actions, snap.writes[st], Fact(h, st, cells[st]))
  }

  /** A message of the key was made from this read. */
  predicate Sends(tr: Trace, h: Hash, snap: Snapshot) {
    |tr.sent| == |tr.s.w.out| && exists i :: 0 <= i < |tr.sent| && tr.s.w.out[i].hash == h && tr.sent[i] == snap
  }

  ghost predicate GoodCells(c: Setup, actions: seq<Action>, tr: Trace) {
    forall h, st | st in CellsAt(tr.s.w, h) ::
      Wrote(c, actions, tr.Written(h, st), Fact(h, st, CellsAt(tr.s.w, h)[st]))
  }

  predicate GoodSent(c: Setup, actions: seq<Action>, tr: Trace) {
    && |tr.sent| == |tr.s.w.out|
    && forall i | 0 <= i < |tr.sent| ::
      Fits(tr, tr.s.w.out[i].hash, tr.sent[i], |actions|) &&
      Shows(c, actions, tr.s.w.out[i].hash, tr.s.w.out[i].cells, tr.sent[i])
  }

  /** These participants are what the process read last. */
  predicate HasRead(c: Setup, actions: seq<Action>, tr: Trace, p: Process, h: Hash, cells: Cells) {
    Fits(tr, h, tr.ReadBy(p), |actions|) && Shows(c, actions, h, cells, tr.ReadBy(p))
  }

  /** Each queued join is of the read it is listed with. */
  predicate GoodJoins(c: Setup, actions: seq<Action>, tr: Trace, js: Joins) {
    forall x | x in js ::
      Fits(tr, x.0.hash, x.1, |actions|) && Shows(c, actions, x.0.hash, x.0.cells, x.1)
  }

  /** The participants a handler has in hand. */
  function InHand(pc: Pc): Option<Cells> {
    match pc
    case Contains(_, row) => Some(row.cells)
    case Correct(_, row, _) => Some(row.cells)
    case Enqueue(_, cells, _) => Some(cells)
    case Publish(_, cells, _) => Some(cells)
    case _ => None
  }

  /** The handler is past its produce, which took effect. */
  predicate Past(c: Setup, refused: bool, pc: Pc) {
    c.producer && (pc.Drop? || ((pc.Forget? || pc.DropLate?) && !refused))
  }

  predicate HandlerGood(c: Setup, actions: seq<Action>, tr: Trace, t: nat, pc: Pc) {
    && (InHand(pc).Some? ==> HasRead(c, actions, tr, Handler(t), pc.e.hash, InHand(pc).value))
    && (Past(c, t in tr.refused, pc) ==> Sends(tr, pc.e.hash, tr.ReadBy(Handler(t))))
  }

  predicate ManagerGood(c: Setup, actions: seq<Action>, tr: Trace, m: nat, pc: Mpc) {
    var p, snap := Manager(m), tr.ReadBy(Manager(m));
    match pc
    case PublishPartial(h, _, cells, _) => HasRead(c, actions, tr, p, h, cells)
    case Track(h, _) => c.producer && c.Partials() ==> Sends(tr, h, snap)
    case DropRow(h, _) => c.producer && c.Partials() ==> Sends(tr, h, snap)
    case _ => true
  }

  /** What a flusher has taken up and not done with yet. */
  function AtWork(pc: Fpc): seq<Item> {
    if pc.Quiet? then [] else [pc.item] + pc.rest
  }

  predicate FlusherGood(c: Setup, actions: seq<Action>, tr: Trace, f: nat, pc: Fpc) {
    && ItemsOf(tr.TakenBy(f)) == AtWork(pc)
    && GoodJoins(c, actions, tr, tr.TakenBy(f))
    && (pc.Clear? && c.producer ==> Sends(tr, pc.item.hash, tr.ReadBy(Flusher(f))))
  }

  ghost predicate GoodTrace(c: Setup, actions: seq<Action>, tr: Trace) {
    && GoodCells(c, actions, tr)
    && GoodSent(c, actions, tr)
    && ItemsOf(tr.queue) == tr.s.w.queue && GoodJoins(c, actions, tr, tr.queue)
    && (forall t | t in tr.s.threads :: HandlerGood(c, actions, tr, t, tr.s.threads[t]))
    && (forall m | m in tr.s.managers :: ManagerGood(c, actions, tr, m, tr.s.managers[m]))
    && (forall f | f in tr.s.flushers :: FlusherGood(c, actions, tr, f, tr.s.flushers[f]))
  }

  // ---------- facts that stay ----------

  lemma TracedSnoc(c: Setup, actions: seq<Action>, a: Action)
    ensures Traced(c, actions + [a]) == Next(c, Traced(c, actions), a, |actions|)
  {
    assert (actions + [a])[..|actions|] == actions;
  }

  lemma WroteStays(c: Setup, actions: seq<Action>, a: Action, n: nat, f: Fact)
    requires Wrote(c, actions, n, f)
    ensures Wrote(c, actions + [a], n, f)
  {
    assert (actions + [a])[..n] == actions[..n];
  }

  lemma WroteNow(c: Setup, actions: seq<Action>, a: Action)
    ensures var x := WriteOf(Traced(c, actions).s, a);
      x.Some? ==> Wrote(c, actions + [a], |actions|, Fact(x.value.hash, x.value.stream, x.value.payload))
  {
    assert (actions + [a])[..|actions|] == actions;
  }

  /** The action writes this cell. */
  predicate WritesCell(s: System, a: Action, h: Hash, st: string) {
    var x := WriteOf(s, a);
    x.Some? && x.value.hash == h && x.value.stream == st
  }

  lemma HandlerCell(c: Setup, w: World, pc: Pc, r: Reply, h: Hash, st: string)
    requires st in CellsAt(HandlerStep(c, w, pc, r).0, h)
    ensures var cells := CellsAt(HandlerStep(c, w, pc, r).0, h);
      if (pc.Write? || pc.WriteOnly?) && r.Took() && pc.e.hash == h && pc.e.stream == st then cells[st] == pc.e.payload
      else st in CellsAt(w, h) && cells[st] == CellsAt(w, h)[st]
  {
  }

  lemma ManagerCell(c: Setup, w: World, m: Mpc, r: Reply, h: Hash, st: string)
    requires st in CellsAt(ManagerStep(c, w, m, r).0, h)
    ensures st in CellsAt(w, h) && CellsAt(ManagerStep(c, w, m, r).0, h)[st] == CellsAt(w, h)[st]
  {
  }

  lemma FlusherCell(c: Setup, w: World, f: Fpc, r: Reply, h: Hash, st: string)
    requires st in CellsAt(FlusherStep(c, w, f, r).0, h)
    ensures st in CellsAt(w, h) && CellsAt(FlusherStep(c, w, f, r).0, h)[st] == CellsAt(w, h)[st]
  {
  }

  /** A cell is there because this action wrote it, or it was there before. */
  lemma CellFrom(c: Setup, s: System, a: Action, h: Hash, st: string)
    requires st in CellsAt(Step(c, s, a).w, h)
    ensures var cells := CellsAt(Step(c, s, a).w, h);
      if WritesCell(s, a, h, st) then cells[st] == WriteOf(s, a).value.payload
      else st in CellsAt(s.w, h) && cells[st] == CellsAt(s.w, h)[st]
  {
    match a {
      case RunHandler(t, r) => if t in s.threads { HandlerCell(c, s.w, s.threads[t], r, h, st); }
      case RunManager(m, r) => if m in s.managers { ManagerCell(c, s.w, s.managers[m], r, h, st); }
      case RunFlusher(f, r) => if f in s.flushers { FlusherCell(c, s.w, s.flushers[f], r, h, st); }
      case _ =>
    }
  }

  lemma WrittenNext(c: Setup, tr: Trace, a: Action, now: nat, h: Hash, st: string)
    ensures Next(c, tr, a, now).Written(h, st) == if WritesCell(tr.s, a, h, st) then now else tr.Written(h, st)
  {
  }

  lemma FitsStays(c: Setup, tr: Trace, a: Action, now: nat, h: Hash, snap: Snapshot)
    requires Fits(tr, h, snap, now)
    ensures Fits(Next(c, tr, a, now), h, snap, now + 1)
  {
    var n := Next(c, tr, a, now);
    forall st | st in CellsAt(n.s.w, h) && n.Written(h, st) < snap.at
      ensures st in snap.writes && snap.writes[st] == n.Written(h, st)
    {
      CellFrom(c, tr.s, a, h, st);
      WrittenNext(c, tr, a, now, h, st);
    }
  }

  lemma ShowsStays(c: Setup, actions: seq<Action>, a: Action, h: Hash, cells: Cells, snap: Snapshot)
    requires Shows(c, actions, h, cells, snap)
    ensures Shows(c, actions + [a], h, cells, snap)
  {
    forall st | st in cells ensures Wrote(c, actions + [a], snap.writes[st], Fact(h, st, cells[st])) {
      WroteStays(c, actions, a, snap.writes[st], Fact(h, st, cells[st]));
    }
  }

  lemma CellsStay(c: Setup, actions: seq<Action>, tr: Trace, a: Action)
    requires tr == Traced(c, actions) && GoodCells(c, actions, tr)
    ensures GoodCells(c, actions + [a], Next(c, tr, a, |actions|))
  {
    var n := Next(c, tr, a, |actions|);
    forall h, st | st in CellsAt(n.s.w, h)
      ensures Wrote(c, actions + [a], n.Written(h, st), Fact(h, st, CellsAt(n.s.w, h)[st]))
    {
      CellFrom(c, tr.s, a, h, st);
      WrittenNext(c, tr, a, |actions|, h, st);
      if WritesCell(tr.s, a, h, st) {
        WroteNow(c, actions, a);
      } else {
        WroteStays(c, actions, a, tr.Written(h, st), Fact(h, st, CellsAt(tr.s.w, h)[st]));
      }
    }
  }

  /** A read shows the row as it is. */
  lemma SnapShows(c: Setup, actions: seq<Action>, tr: Trace, h: Hash)
    requires GoodCells(c, actions, tr)
    ensures Fits(tr, h, tr.Snap(h, |actions|), |actions|)
    ensures Shows(c, actions, h, CellsAt(tr.s.w, h), tr.Snap(h, |actions|))
  {
    forall st | st in CellsAt(tr.s.w, h)
      ensures Wrote(c, actions, tr.Written(h, st), Fact(h, st, CellsAt(tr.s.w, h)[st]))
    {
    }
  }

  // ---------- standing processes ----------

  lemma OutGrows(c: Setup, s: System, a: Action)
    ensures s.w.out <= Step(c, s, a).w.out && |Step(c, s, a).w.out| <= |s.w.out| + 1
  {
  }

  lemma SendsStays(c: Setup, tr: Trace, a: Action, now: nat, h: Hash, snap: Snapshot)
    requires Sends(tr, h, snap)
    ensures Sends(Next(c, tr, a, now), h, snap)
  {
    OutGrows(c, tr.s, a);
    var n := Next(c, tr, a, now);
    var i :| 0 <= i < |tr.sent| && tr.s.w.out[i].hash == h && tr.sent[i] == snap;
    assert n.s.w.out[i].hash == h && n.sent[i] == snap;
  }

  /** Who has not read anew stays as good as before. */
  lemma ReadStays(c: Setup, actions: seq<Action>, tr: Trace, a: Action, p: Process, h: Hash, cells: Cells)
    requires HasRead(c, actions, tr, p, h, cells) && !p.Flusher?
    requires ReadOf(tr.s, a).Some? ==> ReadOf(tr.s, a).value.p != p
    ensures HasRead(c, actions + [a], Next(c, tr, a, |actions|), p, h, cells)
  {
    FitsStays(c, tr, a, |actions|, h, tr.ReadBy(p));
    ShowsStays(c, actions, a, h, cells, tr.ReadBy(p));
  }

  lemma JoinsStay(c: Setup, actions: seq<Action>, tr: Trace, a: Action, js: Joins)
    requires GoodJoins(c, actions, tr, js)
    ensures GoodJoins(c, actions + [a], Next(c, tr, a, |actions|), js)
  {
    forall x | x in js
      ensures Fits(Next(c, tr, a, |actions|), x.0.hash, x.1, |actions| + 1)
      ensures Shows(c, actions + [a], x.0.hash, x.0.cells, x.1)
    {
      FitsStays(c, tr, a, |actions|, x.0.hash, x.1);
      ShowsStays(c, actions, a, x.0.hash, x.0.cells, x.1);
    }
  }

  lemma HandlerStays(c: Setup, actions: seq<Action>, tr: Trace, a: Action, t: nat, pc: Pc)
    requires HandlerGood(c, actions, tr, t, pc)
    requires ReadOf(tr.s, a).Some? ==> ReadOf(tr.s, a).value.p != Handler(t)
    requires t in NextRefused(tr.s, a, tr.refused) <==> t in tr.refused
    ensures HandlerGood(c, actions + [a], Next(c, tr, a, |actions|), t, pc)
  {
    if InHand(pc).Some? { ReadStays(c, actions, tr, a, Handler(t), pc.e.hash, InHand(pc).value); }
    if Past(c, t in tr.refused, pc) { SendsStays(c, tr, a, |actions|, pc.e.hash, tr.ReadBy(Handler(t))); }
  }

  lemma ManagerStays(c: Setup, actions: seq<Action>, tr: Trace, a: Action, m: nat, pc: Mpc)
    requires ManagerGood(c, actions, tr, m, pc)
    requires ReadOf(tr.s, a).Some? ==> ReadOf(tr.s, a).value.p != Manager(m)
    ensures ManagerGood(c, actions + [a], Next(c, tr, a, |actions|), m, pc)
  {
    var p := Manager(m);
    match pc {
      case PublishPartial(h, _, cells, _) => ReadStays(c, actions, tr, a, p, h, cells);
      case Track(h, _) => if c.producer && c.Partials() { SendsStays(c, tr, a, |actions|, h, tr.ReadBy(p)); }
      case DropRow(h, _) => if c.producer && c.Partials() { SendsStays(c, tr, a, |actions|, h, tr.ReadBy(p)); }
      case _ =>
    }
  }

  // ---------- the process that makes the call ----------

  /** The message of a call is of what its process has read. */
  predicate SendsRead(c: Setup, actions: seq<Action>, tr: Trace, a: Action) {
    |Step(c, tr.s, a).w.out| > |tr.s.w.out| ==>
      var m, p := Step(c, tr.s, a).w.out[|tr.s.w.out|], ActorOf(a);
      HasRead(c, actions, tr, p, m.hash, m.cells)
  }

  lemma MessageStays(c: Setup, actions: seq<Action>, tr: Trace, a: Action, m: Sent, snap: Snapshot)
    requires Fits(tr, m.hash, snap, |actions|) && Shows(c, actions, m.hash, m.cells, snap)
    ensures Fits(Next(c, tr, a, |actions|), m.hash, snap, |actions| + 1)
    ensures Shows(c, actions + [a], m.hash, m.cells, snap)
  {
    FitsStays(c, tr, a, |actions|, m.hash, snap);
    ShowsStays(c, actions, a, m.hash, m.cells, snap);
  }

  /** Message `i` after the action, and the read behind it. */
  lemma SentWas(c: Setup, tr: Trace, a: Action, now: nat, i: nat)
    requires |tr.sent| == |tr.s.w.out| && i < |Next(c, tr, a, now).sent|
    ensures var n := Next(c, tr, a, now);
      && |n.sent| == |n.s.w.out|
      && (i < |tr.sent| ==> n.s.w.out[i] == tr.s.w.out[i] && n.sent[i] == tr.sent[i])
      && (i >= |tr.sent| ==> i == |tr.s.w.out| < |n.s.w.out| && n.sent[i] == tr.ReadBy(ActorOf(a)))
  {
    OutGrows(c, tr.s, a);
  }

  lemma SentStays(c: Setup, actions: seq<Action>, tr: Trace, a: Action)
    requires GoodSent(c, actions, tr) && SendsRead(c, actions, tr, a)
    ensures GoodSent(c, actions + [a], Next(c, tr, a, |actions|))
  {
    var n := Next(c, tr, a, |actions|);
    OutGrows(c, tr.s, a);
    forall i | 0 <= i < |n.sent|
      ensures Fits(n, n.s.w.out[i].hash, n.sent[i], |actions| + 1)
      ensures Shows(c, actions + [a], n.s.w.out[i].hash, n.s.w.out[i].cells, n.sent[i])
    {
      SentWas(c, tr, a, |actions|, i);
      MessageStays(c, actions, tr, a, n.s.w.out[i], n.sent[i]);
    }
  }

  /** The message just produced is there, with the read behind it. */
  lemma JustSent(c: Setup, actions: seq<Action>, tr: Trace, a: Action)
    requires |tr.sent| == |tr.s.w.out| && |Step(c, tr.s, a).w.out| > |tr.s.w.out|
    ensures Sends(Next(c, tr, a, |actions|), Step(c, tr.s, a).w.out[|tr.s.w.out|].hash, tr.ReadBy(ActorOf(a)))
  {
    OutGrows(c, tr.s, a);
    var n := Next(c, tr, a, |actions|);
    assert n.sent[|tr.sent|] == tr.ReadBy(ActorOf(a));
  }

  /** Whatever follows from a row has that row in hand, or nothing. */
  lemma CompletionInHand(c: Setup, e: Event, row: Option<Row>)
    ensures var pc := Completion(c, e, row);
      pc.e == e && (pc.Ended? || ((pc.Publish? || pc.Enqueue?) && row.Some? && pc.cells == row.value.cells))
  {
  }

  /** So does what follows a read, or the question whether the key had a partial. */
  predicate Follows(e: Event, row: Option<Row>, pc: Pc) {
    && pc.e == e && !pc.Drop? && !pc.Forget? && !pc.DropLate?
    && (InHand(pc).Some? ==> row.Some? && InHand(pc).value == row.value.cells)
  }

  lemma NextHandler(c: Setup, tr: Trace, t: nat, r: Reply, now: nat)
    requires t in tr.s.threads
    ensures var n := Next(c, tr, RunHandler(t, r), now);
      t in n.s.threads && n.s.threads[t] == HandlerStep(c, tr.s.w, tr.s.threads[t], r).1
  {
  }

  lemma RowRead(c: Setup, actions: seq<Action>, tr: Trace, a: Action, x: Access)
    requires GoodCells(c, actions, tr) && ReadOf(tr.s, a) == Some(x)
    ensures HasRead(c, actions + [a], Next(c, tr, a, |actions|), x.p, x.h, CellsAt(tr.s.w, x.h))
  {
    SnapShows(c, actions, tr, x.h);
    FitsStays(c, tr, a, |actions|, x.h, tr.Snap(x.h, |actions|));
    ShowsStays(c, actions, a, x.h, CellsAt(tr.s.w, x.h), tr.Snap(x.h, |actions|));
  }

  lemma ReadFollows(c: Setup, w: World, e: Event, r: Reply)
    ensures Follows(e, RowAt(w, e.hash), HandlerStep(c, w, Read(e), r).1)
    ensures !r.Fine() ==> HandlerStep(c, w, Read(e), r).1 == Ended(e, false)
  {
    CompletionInHand(c, e, RowAt(w, e.hash));
  }

  lemma ContainsFollows(c: Setup, w: World, e: Event, row: Row, r: Reply)
    ensures Follows(e, Some(row), HandlerStep(c, w, Contains(e, row), r).1)
  {
    CompletionInHand(c, e, Some(row));
  }

  lemma GoesOn(c: Setup, actions: seq<Action>, n: Trace, t: nat, e: Event, row: Option<Row>, pc: Pc)
    requires Follows(e, row, pc)
    requires InHand(pc).Some? && row.Some? ==> HasRead(c, actions, n, Handler(t), e.hash, row.value.cells)
    ensures HandlerGood(c, actions, n, t, pc)
  {
  }

  lemma AfterOwnRead(c: Setup, actions: seq<Action>, tr: Trace, t: nat, r: Reply)
    requires GoodCells(c, actions, tr) && t in tr.s.threads && tr.s.threads[t].Read?
    ensures var a := RunHandler(t, r); var n := Next(c, tr, a, |actions|);
      t in n.s.threads && HandlerGood(c, actions + [a], n, t, n.s.threads[t])
  {
    var a, e := RunHandler(t, r), tr.s.threads[t].e;
    NextHandler(c, tr, t, r, |actions|);
    ReadFollows(c, tr.s.w, e, r);
    if r.Fine() { RowRead(c, actions, tr, a, Access(Handler(t), e.hash)); }
    var n := Next(c, tr, a, |actions|);
    GoesOn(c, actions + [a], n, t, e, RowAt(tr.s.w, e.hash), n.s.threads[t]);
  }

  lemma AfterContains(c: Setup, actions: seq<Action>, tr: Trace, t: nat, r: Reply)
    requires t in tr.s.threads && tr.s.threads[t].Contains?
    requires HandlerGood(c, actions, tr, t, tr.s.threads[t])
    ensures var a := RunHandler(t, r); var n := Next(c, tr, a, |actions|);
      t in n.s.threads && HandlerGood(c, actions + [a], n, t, n.s.threads[t])
  {
    var a, e, row := RunHandler(t, r), tr.s.threads[t].e, tr.s.threads[t].row;
    NextHandler(c, tr, t, r, |actions|);
    ContainsFollows(c, tr.s.w, e, row, r);
    ReadStays(c, actions, tr, a, Handler(t), e.hash, row.cells);
    var n := Next(c, tr, a, |actions|);
    GoesOn(c, actions + [a], n, t, e, Some(row), n.s.threads[t]);
  }

  /** A correction is followed by the tracker call, an accepted join by its row's deletion. */
  lemma AfterProduce(c: Setup, w: World, pc: Pc, r: Reply)
    requires pc.Correct? || pc.Publish?
    ensures var n := HandlerStep(c, w, pc, r).1;
      n == (if pc.Correct? then Forget(pc.e) else if !c.producer || r.Fine() then Drop(pc.e) else Ended(pc.e, false))
    ensures c.producer && r.Took() ==>
      |HandlerStep(c, w, pc, r).0.out| > |w.out| && HandlerStep(c, w, pc, r).0.out[|w.out|].hash == pc.e.hash
  {
  }

  lemma AfterSending(c: Setup, actions: seq<Action>, tr: Trace, t: nat, r: Reply)
    requires |tr.sent| == |tr.s.w.out|
    requires t in tr.s.threads && (tr.s.threads[t].Correct? || tr.s.threads[t].Publish?)
    ensures var a := RunHandler(t, r); var n := Next(c, tr, a, |actions|);
      t in n.s.threads && HandlerGood(c, actions + [a], n, t, n.s.threads[t])
  {
    var a, pc := RunHandler(t, r), tr.s.threads[t];
    NextHandler(c, tr, t, r, |actions|);
    AfterProduce(c, tr.s.w, pc, r);
    if c.producer && r.Took() { JustSent(c, actions, tr, a); }
  }

  lemma AfterForget(c: Setup, actions: seq<Action>, tr: Trace, t: nat, r: Reply)
    requires t in tr.s.threads && tr.s.threads[t].Forget? && HandlerGood(c, actions, tr, t, tr.s.threads[t])
    ensures var a := RunHandler(t, r); var n := Next(c, tr, a, |actions|);
      t in n.s.threads && HandlerGood(c, actions + [a], n, t, n.s.threads[t])
  {
    var a := RunHandler(t, r);
    NextHandler(c, tr, t, r, |actions|);
    HandlerStays(c, actions, tr, a, t, tr.s.threads[t]);
  }

  lemma AfterOther(c: Setup, actions: seq<Action>, tr: Trace, t: nat, r: Reply)
    requires t in tr.s.threads && HandlerGood(c, actions, tr, t, tr.s.threads[t])
    requires var pc := tr.s.threads[t];
      !pc.Read? && !pc.Contains? && !pc.Correct? && !pc.Publish? && !pc.Forget?
    ensures var a := RunHandler(t, r); var n := Next(c, tr, a, |actions|);
      t in n.s.threads && HandlerGood(c, actions + [a], n, t, n.s.threads[t])
  {
    HandlerStays(c, actions, tr, RunHandler(t, r), t, tr.s.threads[t]);
    NextHandler(c, tr, t, r, |actions|);
  }

  lemma AfterOwnCall(c: Setup, actions: seq<Action>, tr: Trace, t: nat, r: Reply)
    requires GoodCells(c, actions, tr) && |tr.sent| == |tr.s.w.out|
    requires t in tr.s.threads && HandlerGood(c, actions, tr, t, tr.s.threads[t])
    ensures var a := RunHandler(t, r); var n := Next(c, tr, a, |actions|);
      t in n.s.threads && HandlerGood(c, actions + [a], n, t, n.s.threads[t])
  {
    match tr.s.threads[t] {
      case Read(_) => AfterOwnRead(c, actions, tr, t, r);
      case Contains(_, _) => AfterContains(c, actions, tr, t, r);
      case Correct(_, _, _) => AfterSending(c, actions, tr, t, r);
      case Publish(_, _, _) => AfterSending(c, actions, tr, t, r);
      case Forget(_) => AfterForget(c, actions, tr, t, r);
      case _ => AfterOther(c, actions, tr, t, r);
    }
  }

  lemma HandlerSends(c: Setup, actions: seq<Action>, tr: Trace, t: nat, r: Reply)
    requires GoodTrace(c, actions, tr) && t in tr.s.threads
    ensures SendsRead(c, actions, tr, RunHandler(t, r))
  {
    assert HandlerGood(c, actions, tr, t, tr.s.threads[t]);
  }

  lemma ManagerSends(c: Setup, actions: seq<Action>, tr: Trace, m: nat, r: Reply)
    requires GoodTrace(c, actions, tr) && m in tr.s.managers
    ensures SendsRead(c, actions, tr, RunManager(m, r))
  {
    assert ManagerGood(c, actions, tr, m, tr.s.managers[m]);
  }

  lemma NextManager(c: Setup, tr: Trace, m: nat, r: Reply, now: nat)
    requires m in tr.s.managers
    ensures var n := Next(c, tr, RunManager(m, r), now);
      m in n.s.managers && n.s.managers[m] == ManagerStep(c, tr.s.w, tr.s.managers[m], r).1
  {
  }

  lemma ExpiredStands(c: Setup, actions: seq<Action>, n: Trace, m: nat, h: Hash, rest: seq<Hash>, row: Option<Row>)
    requires row.Some? ==> HasRead(c, actions, n, Manager(m), h, row.value.cells)
    ensures ManagerGood(c, actions, n, m, Expired(c, h, rest, row))
  {
  }

  lemma AfterGet(c: Setup, actions: seq<Action>, tr: Trace, m: nat, r: Reply)
    requires GoodCells(c, actions, tr) && m in tr.s.managers && tr.s.managers[m].Get?
    ensures var a := RunManager(m, r); var n := Next(c, tr, a, |actions|);
      m in n.s.managers && ManagerGood(c, actions + [a], n, m, n.s.managers[m])
  {
    var a, h, rest := RunManager(m, r), tr.s.managers[m].h, tr.s.managers[m].rest;
    NextManager(c, tr, m, r, |actions|);
    if r.Fine() { RowRead(c, actions, tr, a, Access(Manager(m), h)); }
    var row := if r.Fine() then RowAt(tr.s.w, h) else None;
    ExpiredStands(c, actions + [a], Next(c, tr, a, |actions|), m, h, rest, row);
  }

  lemma AfterPartial(c: Setup, actions: seq<Action>, tr: Trace, m: nat, r: Reply)
    requires |tr.sent| == |tr.s.w.out| && m in tr.s.managers && tr.s.managers[m].PublishPartial?
    ensures var a := RunManager(m, r); var n := Next(c, tr, a, |actions|);
      m in n.s.managers && ManagerGood(c, actions + [a], n, m, n.s.managers[m])
  {
    NextManager(c, tr, m, r, |actions|);
    if r.Took() { JustSent(c, actions, tr, RunManager(m, r)); }
  }

  lemma AfterManagerCall(c: Setup, actions: seq<Action>, tr: Trace, m: nat, r: Reply)
    requires GoodCells(c, actions, tr) && |tr.sent| == |tr.s.w.out|
    requires m in tr.s.managers && ManagerGood(c, actions, tr, m, tr.s.managers[m])
    ensures var a := RunManager(m, r); var n := Next(c, tr, a, |actions|);
      m in n.s.managers && ManagerGood(c, actions + [a], n, m, n.s.managers[m])
  {
    match tr.s.managers[m] {
      case Get(_, _) => AfterGet(c, actions, tr, m, r);
      case PublishPartial(_, _, _, _) => AfterPartial(c, actions, tr, m, r);
      case _ =>
        ManagerStays(c, actions, tr, RunManager(m, r), m, tr.s.managers[m]);
        NextManager(c, tr, m, r, |actions|);
    }
  }

  /** A process the action does not run is as it was, or just starts. */
  lemma OthersUntouched(c: Setup, s: System, a: Action)
    ensures var n := Step(c, s, a);
      && (forall t | t in n.threads && !(a.RunHandler? && a.t == t) ::
            (t in s.threads && n.threads[t] == s.threads[t]) || n.threads[t].Exists? || n.threads[t].Write?)
      && (forall m | m in n.managers && !(a.RunManager? && a.m == m) ::
            (m in s.managers && n.managers[m] == s.managers[m]) || n.managers[m].Resting? || n.managers[m].Get?)
      && (a.RunHandler? && a.t in n.threads ==> a.t in s.threads)
      && (a.RunManager? && a.m in n.managers ==> a.m in s.managers)
  {
  }

  // ---------- the delay queue ----------

  lemma HandlerQueue(c: Setup, w: World, pc: Pc, r: Reply)
    ensures HandlerStep(c, w, pc, r).0.queue ==
      if pc.Enqueue? && (r.Took() || !c.durable)
      then Enqueued(c, w.queue, JoinItem(c, pc.e, pc.cells, pc.text, r.at))
      else w.queue
  {
  }

  lemma FlusherQueue(c: Setup, w: World, pc: Fpc, r: Reply)
    ensures FlusherStep(c, w, pc, r).0.queue ==
      if pc.Dequeue? && r.Took() then Without(w.queue, pc.item) else w.queue
  {
  }

  lemma ManagerQueue(c: Setup, w: World, m: Mpc, r: Reply)
    ensures ManagerStep(c, w, m, r).0.queue == w.queue
  {
  }

  lemma Requeued(c: Setup, js: Joins, item: Item, snap: Snapshot)
    ensures ItemsOf((if c.durable then DropMember(js, item) else js) + [(item, snap)]) ==
      Enqueued(c, ItemsOf(js), item)
  {
    DropMemberItems(js, item);
    ItemsSnoc(if c.durable then DropMember(js, item) else js, (item, snap));
  }

  lemma QueueItems(c: Setup, tr: Trace, a: Action)
    requires ItemsOf(tr.queue) == tr.s.w.queue
    ensures ItemsOf(NextQueue(c, tr, a)) == Step(c, tr.s, a).w.queue
  {
    match a {
      case RunHandler(t, r) =>
        if t in tr.s.threads {
          HandlerQueue(c, tr.s.w, tr.s.threads[t], r);
          if JoinOf(c, tr.s, a).Some? { Requeued(c, tr.queue, JoinOf(c, tr.s, a).value, tr.ReadBy(Handler(t))); }
        }
      case RunManager(m, r) => if m in tr.s.managers { ManagerQueue(c, tr.s.w, tr.s.managers[m], r); }
      case PollDelays(_, _, now) => DueItems(tr.queue, now);
      case RunFlusher(f, r) =>
        if f in tr.s.flushers {
          FlusherQueue(c, tr.s.w, tr.s.flushers[f], r);
          if tr.s.flushers[f].Dequeue? { DropMemberItems(tr.queue, tr.s.flushers[f].item); }
        }
      case _ =>
    }
  }

  lemma QueueGood(c: Setup, actions: seq<Action>, tr: Trace, a: Action)
    requires GoodTrace(c, actions, tr)
    ensures GoodJoins(c, actions + [a], Next(c, tr, a, |actions|), NextQueue(c, tr, a))
  {
    var js := tr.queue;
    if JoinOf(c, tr.s, a).Some? {
      var item := JoinOf(c, tr.s, a).value;
      assert HandlerGood(c, actions, tr, a.t, tr.s.threads[a.t]);
      js := tr.queue + [(item, tr.ReadBy(Handler(a.t)))];
    }
    JoinsStay(c, actions, tr, a, js);
    assert forall x | x in NextQueue(c, tr, a) :: x in js;
  }

  lemma FlusherStays(c: Setup, actions: seq<Action>, tr: Trace, a: Action, f: nat, pc: Fpc)
    requires FlusherGood(c, actions, tr, f, pc) && Next(c, tr, a, |actions|).TakenBy(f) == tr.TakenBy(f)
    ensures FlusherGood(c, actions + [a], Next(c, tr, a, |actions|), f, pc)
  {
    JoinsStay(c, actions, tr, a, tr.TakenBy(f));
    if pc.Clear? && c.producer { SendsStays(c, tr, a, |actions|, pc.item.hash, tr.ReadBy(Flusher(f))); }
  }

  lemma NextItemAtWork(items: seq<Item>)
    ensures AtWork(NextItem(items)) == items
  {
  }

  /** A flusher takes up what is due. */
  lemma AfterPoll(c: Setup, actions: seq<Action>, tr: Trace, a: Action)
    requires GoodTrace(c, actions, tr) && a.PollDelays?
    requires var n := Next(c, tr, a, |actions|); a.f in n.s.flushers
    ensures var n := Next(c, tr, a, |actions|); FlusherGood(c, actions + [a], n, a.f, n.s.flushers[a.f])
  {
    var n, items := Next(c, tr, a, |actions|), a.items;
    if MayPoll(tr.s, a.f) && (!c.durable || forall i | i in items :: i in tr.s.w.queue) {
      DueItems(tr.queue, a.now);
      JoinsStay(c, actions, tr, a, tr.queue);
      NextItemAtWork(if c.durable then items else Due(tr.s.w.queue, a.now));
    } else {
      FlusherStays(c, actions, tr, a, a.f, tr.s.flushers[a.f]);
    }
  }

  /** The flusher goes on with the same join, or with the next one. */
  lemma FlushGoesOn(c: Setup, w: World, pc: Fpc, r: Reply)
    requires !pc.Quiet?
    ensures var n := FlusherStep(c, w, pc, r).1;
      if n.Quiet? || n.Flush? then AtWork(n) == pc.rest && !n.Clear?
      else AtWork(n) == AtWork(pc) && n.item == pc.item && (n.Clear? ==> pc.Flush?)
    ensures pc.Flush? && c.producer && r.Took() ==>
      |FlusherStep(c, w, pc, r).0.out| > |w.out| && FlusherStep(c, w, pc, r).0.out[|w.out|].hash == pc.item.hash
    ensures pc.Flush? && FlusherStep(c, w, pc, r).1.Clear? && c.producer ==> r.Took()
  {
    NextItemAtWork(pc.rest);
  }

  lemma AfterFlusherCall(c: Setup, actions: seq<Action>, tr: Trace, f: nat, r: Reply)
    requires |tr.sent| == |tr.s.w.out| && f in tr.s.flushers && FlusherGood(c, actions, tr, f, tr.s.flushers[f])
    ensures var a := RunFlusher(f, r); var n := Next(c, tr, a, |actions|);
      f in n.s.flushers && FlusherGood(c, actions + [a], n, f, n.s.flushers[f])
  {
    var a, pc := RunFlusher(f, r), tr.s.flushers[f];
    var n := Next(c, tr, a, |actions|);
    if pc.Quiet? {
      FlusherStays(c, actions, tr, a, f, pc);
    } else {
      FlushGoesOn(c, tr.s.w, pc, r);
      JoinsStay(c, actions, tr, a, tr.TakenBy(f));
      ItemsTail(tr.TakenBy(f));
      if n.s.flushers[f].Clear? && c.producer { JustSent(c, actions, tr, a); }
    }
  }

  lemma FlusherSends(c: Setup, actions: seq<Action>, tr: Trace, f: nat, r: Reply)
    requires GoodTrace(c, actions, tr) && f in tr.s.flushers
    ensures SendsRead(c, actions, tr, RunFlusher(f, r))
  {
    var pc := tr.s.flushers[f];
    assert FlusherGood(c, actions, tr, f, pc);
    if pc.Flush? {
      ItemsTail(tr.TakenBy(f));
      assert tr.TakenBy(f)[0] in tr.TakenBy(f);
    }
  }

  lemma FlusherNext(c: Setup, actions: seq<Action>, tr: Trace, a: Action, f: nat)
    requires GoodTrace(c, actions, tr)
    requires var n := Next(c, tr, a, |actions|); f in n.s.flushers
    ensures var n := Next(c, tr, a, |actions|); FlusherGood(c, actions + [a], n, f, n.s.flushers[f])
  {
    if a.RunFlusher? && a.f == f {
      AfterFlusherCall(c, actions, tr, f, a.r);
    } else if a.PollDelays? && a.f == f {
      AfterPoll(c, actions, tr, a);
    } else {
      FlusherStays(c, actions, tr, a, f, tr.s.flushers[f]);
    }
  }

  // ---------- every step ----------

  lemma SendsOnlyRead(c: Setup, actions: seq<Action>, tr: Trace, a: Action)
    requires GoodTrace(c, actions, tr)
    ensures SendsRead(c, actions, tr, a)
  {
    match a {
      case RunHandler(t, r) => if t in tr.s.threads { HandlerSends(c, actions, tr, t, r); }
      case RunManager(m, r) => if m in tr.s.managers { ManagerSends(c, actions, tr, m, r); }
      case RunFlusher(f, r) => if f in tr.s.flushers { FlusherSends(c, actions, tr, f, r); }
      case _ =>
    }
  }

  lemma HandlerNext(c: Setup, actions: seq<Action>, tr: Trace, a: Action, t: nat)
    requires GoodTrace(c, actions, tr)
    requires var n := Next(c, tr, a, |actions|); t in n.s.threads
    ensures var n := Next(c, tr, a, |actions|); HandlerGood(c, actions + [a], n, t, n.s.threads[t])
  {
    OthersUntouched(c, tr.s, a);
    if a.RunHandler? && a.t == t {
      AfterOwnCall(c, actions, tr, t, a.r);
    } else if t in tr.s.threads && Step(c, tr.s, a).threads[t] == tr.s.threads[t] {
      HandlerStays(c, actions, tr, a, t, tr.s.threads[t]);
    }
  }

  lemma ManagerNext(c: Setup, actions: seq<Action>, tr: Trace, a: Action, m: nat)
    requires GoodTrace(c, actions, tr)
    requires var n := Next(c, tr, a, |actions|); m in n.s.managers
    ensures var n := Next(c, tr, a, |actions|); ManagerGood(c, actions + [a], n, m, n.s.managers[m])
  {
    OthersUntouched(c, tr.s, a);
    if a.RunManager? && a.m == m {
      AfterManagerCall(c, actions, tr, m, a.r);
    } else if m in tr.s.managers && Step(c, tr.s, a).managers[m] == tr.s.managers[m] {
      ManagerStays(c, actions, tr, a, m, tr.s.managers[m]);
    }
  }

  lemma ProcessesGood(c: Setup, actions: seq<Action>, tr: Trace, a: Action)
    requires GoodTrace(c, actions, tr)
    ensures var n := Next(c, tr, a, |actions|);
      && (forall t | t in n.s.threads :: HandlerGood(c, actions + [a], n, t, n.s.threads[t]))
      && (forall m | m in n.s.managers :: ManagerGood(c, actions + [a], n, m, n.s.managers[m]))
      && (forall f | f in n.s.flushers :: FlusherGood(c, actions + [a], n, f, n.s.flushers[f]))
  {
    var n := Next(c, tr, a, |actions|);
    forall t | t in n.s.threads ensures HandlerGood(c, actions + [a], n, t, n.s.threads[t]) {
      HandlerNext(c, actions, tr, a, t);
    }
    forall m | m in n.s.managers ensures ManagerGood(c, actions + [a], n, m, n.s.managers[m]) {
      ManagerNext(c, actions, tr, a, m);
    }
    forall f | f in n.s.flushers ensures FlusherGood(c, actions + [a], n, f, n.s.flushers[f]) {
      FlusherNext(c, actions, tr, a, f);
    }
  }

  lemma StepGood(c: Setup, actions: seq<Action>, tr: Trace, a: Action)
    requires GoodTrace(c, actions, tr) && tr == Traced(c, actions)
    ensures GoodTrace(c, actions + [a], Next(c, tr, a, |actions|))
  {
    CellsStay(c, actions, tr, a);
    SendsOnlyRead(c, actions, tr, a);
    SentStays(c, actions, tr, a);
    QueueItems(c, tr, a);
    QueueGood(c, actions, tr, a);
    ProcessesGood(c, actions, tr, a);
  }

  lemma SnocGood(c: Setup, actions: seq<Action>, a: Action)
    requires GoodTrace(c, actions, Traced(c, actions))
    ensures GoodTrace(c, actions + [a], Traced(c, actions + [a]))
  {
    StepGood(c, actions, Traced(c, actions), a);
    TracedSnoc(c, actions, a);
  }

  lemma NothingGood(c: Setup)
    ensures GoodTrace(c, [], Traced(c, []))
  {
  }

  lemma {:induction false} TraceGood(c: Setup, actions: seq<Action>)
    ensures GoodTrace(c, actions, Traced(c, actions))
  {
    if actions == [] {
      NothingGood(c);
    } else {
      var n := |actions| - 1;
      TraceGood(c, actions[..n]);
      SnocGood(c, actions[..n], actions[n]);
      assert actions[..n] + [actions[n]] == actions;
    }
  }

  // ---------- what a deletion takes ----------

  /** The record now in this cell is in a message. */
  predicate InMessage(tr: Trace, h: Hash, st: string) {
    exists i :: 0 <= i < |tr.sent| && i < |tr.s.w.out| && tr.s.w.out[i].hash == h &&
      st in tr.sent[i].writes && tr.sent[i].writes[st] == tr.Written(h, st)
  }

  /** A read of the key made after step `n` was published. */
  predicate PublishedSince(tr: Trace, h: Hash, n: nat) {
    exists i :: 0 <= i < |tr.sent| && i < |tr.s.w.out| && tr.s.w.out[i].hash == h && n < tr.sent[i].at
  }

  /** The cells of a row whose records are in no message. */
  function Unsent(tr: Trace, h: Hash): set<string> {
    set st | st in CellsAt(tr.s.w, h) && !InMessage(tr, h, st)
  }

  /** What a message was made from: each participant is the record that the listed step wrote. */
  lemma MessagesShowWrites(c: Setup, actions: seq<Action>, i: nat)
    requires i < |Run(c, actions).w.out|
    ensures var tr, m := Traced(c, actions), Run(c, actions).w.out[i];
      && i < |tr.sent| && m.cells.Keys == tr.sent[i].writes.Keys
      && forall st | st in m.cells :: Wrote(c, actions, tr.sent[i].writes[st], Fact(m.hash, st, m.cells[st]))
  {
    TracedRun(c, actions);
    TraceGood(c, actions);
  }

  /** The record in a cell is in no message if and only if it was written after every published read of its key. */
  lemma InMessageIff(c: Setup, actions: seq<Action>, h: Hash, st: string)
    requires st in CellsAt(Run(c, actions).w, h)
    ensures var tr := Traced(c, actions); InMessage(tr, h, st) <==> PublishedSince(tr, h, tr.Written(h, st))
  {
    TracedRun(c, actions);
    TraceGood(c, actions);
    var tr := Traced(c, actions);
    if PublishedSince(tr, h, tr.Written(h, st)) {
      var i :| 0 <= i < |tr.sent| && tr.s.w.out[i].hash == h && tr.Written(h, st) < tr.sent[i].at;
      assert Fits(tr, h, tr.sent[i], |actions|);
    }
    if InMessage(tr, h, st) {
      var i :| 0 <= i < |tr.sent| && tr.s.w.out[i].hash == h &&
        st in tr.sent[i].writes && tr.sent[i].writes[st] == tr.Written(h, st);
      assert Fits(tr, h, tr.sent[i], |actions|);
    }
  }

  /** The read behind this deletion was published before it. */
  predicate Egressed(tr: Trace, x: Access) {
    Sends(tr, x.h, tr.ReadBy(x.p))
  }

  /**
   * A timeout deletes without egress under inner policy, a late arrival if its own correction was refused, and any
   * process when there is no producer.
   */
  predicate Disciplined(c: Setup, tr: Trace, d: Action) {
    c.producer &&
    match d
    case RunHandler(t, _) => t in tr.s.threads && tr.s.threads[t].DropLate? ==> t !in tr.refused
    case RunManager(_, _) => c.Partials()
    case _ => true
  }

  /** Apart from these, every deletion comes after the publication of what its process had read. */
  lemma DeletionFollowsEgress(c: Setup, actions: seq<Action>, d: Action)
    requires DeleteOf(Run(c, actions), d).Some? && Disciplined(c, Traced(c, actions), d)
    ensures Egressed(Traced(c, actions), DeleteOf(Run(c, actions), d).value)
  {
    TracedRun(c, actions);
    TraceGood(c, actions);
    var tr := Traced(c, actions);
    match d {
      case RunHandler(t, _) => assert HandlerGood(c, actions, tr, t, tr.s.threads[t]);
      case RunManager(m, _) => assert ManagerGood(c, actions, tr, m, tr.s.managers[m]);
      case RunFlusher(f, _) => assert FlusherGood(c, actions, tr, f, tr.s.flushers[f]);
    }
  }

  /**
   * The cells that no one has read and published since they were written. If the deletion is disciplined only those
   * written since its own read can be among them.
   */
  function Overtaken(c: Setup, tr: Trace, d: Action): set<string>
    requires DeleteOf(tr.s, d).Some?
  {
    var x := DeleteOf(tr.s, d).value;
    set st | st in CellsAt(tr.s.w, x.h) && !PublishedSince(tr, x.h, tr.Written(x.h, st)) &&
      (Disciplined(c, tr, d) ==> tr.ReadBy(x.p).at <= tr.Written(x.h, st))
  }

  /** A deletion takes unpublished exactly the records that were written behind its process's back. */
  lemma DeletionTakes(c: Setup, actions: seq<Action>, d: Action)
    requires DeleteOf(Traced(c, actions).s, d).Some?
    ensures var tr := Traced(c, actions); Unsent(tr, DeleteOf(tr.s, d).value.h) == Overtaken(c, tr, d)
  {
    TracedRun(c, actions);
    var tr, x := Traced(c, actions), DeleteOf(Traced(c, actions).s, d).value;
    if Disciplined(c, tr, d) { DeletionFollowsEgress(c, actions, d); }
    forall st | st in CellsAt(tr.s.w, x.h) ensures st in Unsent(tr, x.h) <==> st in Overtaken(c, tr, d) {
      InMessageIff(c, actions, x.h, st);
    }
  }

  /** One message holds every record that is now in the row. */
  predicate WholeRowSent(tr: Trace, h: Hash) {
    exists i :: 0 <= i < |tr.sent| && i < |tr.s.w.out| && tr.s.w.out[i].hash == h &&
      forall st | st in CellsAt(tr.s.w, h) ::
        st in tr.sent[i].writes && tr.sent[i].writes[st] == tr.Written(h, st)
  }

  /** The stream whose cell was written last. */
  lemma {:induction false} LastWritten(tr: Trace, h: Hash, names: set<string>) returns (st: string)
    requires names != {}
    ensures st in names && forall o | o in names :: tr.Written(h, o) <= tr.Written(h, st)
    decreases |names|
  {
    st :| st in names;
    if names != {st} {
      var o := LastWritten(tr, h, names - {st});
      if tr.Written(h, st) <= tr.Written(h, o) { st := o; }
    }
  }

  /** Nothing of a row is unsent if and only if it is empty or a single message has all of it. */
  lemma NothingUnsentIff(c: Setup, actions: seq<Action>, h: Hash)
    ensures var tr := Traced(c, actions);
      Unsent(tr, h) == {} <==> CellsAt(tr.s.w, h) == map[] || WholeRowSent(tr, h)
  {
    TracedRun(c, actions);
    TraceGood(c, actions);
    var tr := Traced(c, actions);
    if CellsAt(tr.s.w, h) != map[] && Unsent(tr, h) == {} {
      var st := LastWritten(tr, h, CellsAt(tr.s.w, h).Keys);
      InMessageIff(c, actions, h, st);
      assert st !in Unsent(tr, h);
      var i :| 0 <= i < |tr.sent| && tr.s.w.out[i].hash == h && tr.Written(h, st) < tr.sent[i].at;
      assert Fits(tr, h, tr.sent[i], |actions|);
    }
  }
}
