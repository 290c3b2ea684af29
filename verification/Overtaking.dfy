/**
 * Records that a deletion overtakes: written after its process read the row, and in no message when the row goes. Over
 * whole runs every written record is in its row, in a message, overwritten, expired or taken this way; nothing is
 * taken this way if and only if no deletion is overtaken; and what is taken this way is gone for good.
 */
module Overtaking {
  import opened Base
  import opened JoinConfig
  import opened Projection
  import opened Protocol
  import opened Provenance
  import opened Deletion
  import opened SerialRuns

  // ---------- exactly when the rule holds of a run ----------

  /** Every row is deleted only when all of its records are in messages. */
  predicate OnlyAfterEgress(c: Setup, actions: seq<Action>) {
    forall i | 0 <= i < |actions| && DeleteOf(Run(c, actions[..i]), actions[i]).Some? ::
      Unsent(Traced(c, actions[..i]), DeleteOf(Run(c, actions[..i]), actions[i]).value.h) == {}
  }

  /** No row is deleted with records that no one has read and published since they were written. */
  predicate NeverOvertaken(c: Setup, actions: seq<Action>) {
    forall i | 0 <= i < |actions| && DeleteOf(Traced(c, actions[..i]).s, actions[i]).Some? ::
      Overtaken(c, Traced(c, actions[..i]), actions[i]) == {}
  }

  /**
   * Over any run, whatever fails or is refused, state is deleted only after its egress if and only if no deletion is
   * overtaken: a disciplined one by a record written since its own read, any other by whatever is not published yet.
   */
  lemma OnlyAfterEgressIff(c: Setup, actions: seq<Action>)
    ensures OnlyAfterEgress(c, actions) <==> NeverOvertaken(c, actions)
  {
    forall i | 0 <= i < |actions| ensures Traced(c, actions[..i]).s == Run(c, actions[..i]) {
      TracedRun(c, actions[..i]);
    }
    forall i | 0 <= i < |actions| && DeleteOf(Traced(c, actions[..i]).s, actions[i]).Some?
      ensures var tr := Traced(c, actions[..i]);
        Unsent(tr, DeleteOf(tr.s, actions[i]).value.h) == Overtaken(c, tr, actions[i])
    {
      DeletionTakes(c, actions[..i], actions[i]);
    }
  }

  // ---------- where every record is ----------

  /** The record written by step `n` is in its cell. */
  predicate Current(tr: Trace, h: Hash, st: string, n: nat) {
    st in CellsAt(tr.s.w, h) && tr.Written(h, st) == n
  }

  /** The record written by step `n` is in a message. */
  predicate IsPublished(tr: Trace, h: Hash, st: string, n: nat) {
    exists i :: 0 <= i < |tr.sent| && i < |tr.s.w.out| && tr.s.w.out[i].hash == h &&
      st in tr.sent[i].writes && tr.sent[i].writes[st] == n
  }

  /** Step `j` replaces the record by one of its stream, or its cell expires. */
  predicate Replaced(c: Setup, actions: seq<Action>, j: nat, h: Hash, st: string, n: nat)
    requires j < |actions|
  {
    var tr, a := Traced(c, actions[..j]), actions[j];
    Current(tr, h, st, n) && (WritesCell(tr.s, a, h, st) || (a.ExpireCells? && a.h == h && st in a.streams))
  }

  /** Step `j` deletes the row while the record is in no message. */
  predicate TakenUnsent(c: Setup, actions: seq<Action>, j: nat, h: Hash, st: string, n: nat)
    requires j < |actions|
  {
    var tr := Traced(c, actions[..j]);
    var x := DeleteOf(tr.s, actions[j]);
    Current(tr, h, st, n) && x.Some? && x.value.h == h && st in Unsent(tr, h)
  }

  predicate Gone(c: Setup, actions: seq<Action>, h: Hash, st: string, n: nat) {
    exists j :: 0 <= j < |actions| && (Replaced(c, actions, j, h, st, n) || TakenUnsent(c, actions, j, h, st, n))
  }

  lemma GoneStays(c: Setup, actions: seq<Action>, a: Action, h: Hash, st: string, n: nat)
    requires Gone(c, actions, h, st, n)
    ensures Gone(c, actions + [a], h, st, n)
  {
    var j :| 0 <= j < |actions| && (Replaced(c, actions, j, h, st, n) || TakenUnsent(c, actions, j, h, st, n));
    var more := actions + [a];
    assert more[..j] == actions[..j] && more[j] == actions[j];
    assert Replaced(c, more, j, h, st, n) || TakenUnsent(c, more, j, h, st, n);
  }

  lemma PublishedStays(c: Setup, tr: Trace, a: Action, now: nat, h: Hash, st: string, n: nat)
    requires IsPublished(tr, h, st, n)
    ensures IsPublished(Next(c, tr, a, now), h, st, n)
  {
    OutGrows(c, tr.s, a);
    var i :| 0 <= i < |tr.sent| && i < |tr.s.w.out| && tr.s.w.out[i].hash == h &&
      st in tr.sent[i].writes && tr.sent[i].writes[st] == n;
    assert Next(c, tr, a, now).sent[i] == tr.sent[i];
  }

  lemma HandlerRemoves(c: Setup, w: World, pc: Pc, r: Reply, h: Hash, st: string)
    requires st in CellsAt(w, h) && st !in CellsAt(HandlerStep(c, w, pc, r).0, h)
    ensures (pc.Drop? || pc.DropLate?) && r.Took() && pc.e.hash == h
  {
  }

  lemma ManagerRemoves(c: Setup, w: World, m: Mpc, r: Reply, h: Hash, st: string)
    requires st in CellsAt(w, h) && st !in CellsAt(ManagerStep(c, w, m, r).0, h)
    ensures m.DropRow? && r.Took() && m.h == h
  {
  }

  lemma FlusherRemoves(c: Setup, w: World, f: Fpc, r: Reply, h: Hash, st: string)
    requires st in CellsAt(w, h) && st !in CellsAt(FlusherStep(c, w, f, r).0, h)
    ensures f.Clear? && r.Took() && f.item.hash == h
  {
  }

  lemma ExpiryRemoves(w: World, h: Hash, streams: set<string>, k: Hash, st: string)
    requires st in CellsAt(w, k) && st !in CellsAt(Expire(w, h, streams), k)
    ensures h == k && st in streams
  {
    assert h == k ==> CellsAt(Expire(w, h, streams), k) == CellsAt(w, h) - streams;
  }

  /** A record leaves its cell by being overwritten, by expiry, or with its row. */
  lemma LeavesBy(c: Setup, tr: Trace, a: Action, now: nat, h: Hash, st: string, n: nat)
    requires Current(tr, h, st, n) && !Current(Next(c, tr, a, now), h, st, n)
    ensures WritesCell(tr.s, a, h, st) || (a.ExpireCells? && a.h == h && st in a.streams) ||
      (DeleteOf(tr.s, a).Some? && DeleteOf(tr.s, a).value.h == h)
  {
    WrittenNext(c, tr, a, now, h, st);
    if !WritesCell(tr.s, a, h, st) {
      match a {
        case RunHandler(t, r) => HandlerRemoves(c, tr.s.w, tr.s.threads[t], r, h, st);
        case RunManager(m, r) => ManagerRemoves(c, tr.s.w, tr.s.managers[m], r, h, st);
        case RunFlusher(f, r) => FlusherRemoves(c, tr.s.w, tr.s.flushers[f], r, h, st);
        case ExpireCells(k, streams) => ExpiryRemoves(tr.s.w, k, streams, h, st);
        case _ =>
      }
    }
  }

  lemma StillSomewhere(c: Setup, actions: seq<Action>, a: Action, h: Hash, st: string, n: nat)
    requires var tr := Traced(c, actions);
      Current(tr, h, st, n) || IsPublished(tr, h, st, n) || Gone(c, actions, h, st, n)
    ensures var tr := Traced(c, actions + [a]);
      Current(tr, h, st, n) || IsPublished(tr, h, st, n) || Gone(c, actions + [a], h, st, n)
  {
    var tr, more := Traced(c, actions), actions + [a];
    TracedSnoc(c, actions, a);
    TraceGood(c, actions);
    if IsPublished(tr, h, st, n) {
      PublishedStays(c, tr, a, |actions|, h, st, n);
    } else if Gone(c, actions, h, st, n) {
      GoneStays(c, actions, a, h, st, n);
    } else if !Current(Traced(c, more), h, st, n) {
      LeavesBy(c, tr, a, |actions|, h, st, n);
      assert more[..|actions|] == actions && more[|actions|] == a;
      assert !InMessage(tr, h, st);
      assert Replaced(c, more, |actions|, h, st, n) || TakenUnsent(c, more, |actions|, h, st, n);
    }
  }

  lemma WrittenNow(c: Setup, tr: Trace, a: Action, now: nat)
    requires WriteOf(tr.s, a).Some?
    ensures var e := WriteOf(tr.s, a).value; Current(Next(c, tr, a, now), e.hash, e.stream, now)
  {
  }

  /**
   * Over any run, with any call failing and any process killed, a written record is in its cell, or in a message, or
   * was overwritten, or expired, or was taken by a deletion while it was in no message.
   */
  lemma {:induction false} EveryRecordSomewhere(c: Setup, actions: seq<Action>, n: nat, f: Fact)
    requires Wrote(c, actions, n, f)
    ensures var tr := Traced(c, actions);
      Current(tr, f.hash, f.stream, n) || IsPublished(tr, f.hash, f.stream, n) || Gone(c, actions, f.hash, f.stream, n)
  {
    var last := |actions| - 1;
    var init, a := actions[..last], actions[last];
    assert init + [a] == actions;
    if n == last {
      TracedSnoc(c, init, a);
      WrittenNow(c, Traced(c, init), a, n);
    } else {
      assert init[..n] == actions[..n];
      EveryRecordSomewhere(c, init, n, f);
      StillSomewhere(c, init, a, f.hash, f.stream, n);
    }
  }

  // ---------- gone for good ----------

  predicate Has(snap: Snapshot, n: nat) {
    n in snap.writes.Values
  }

  /** The record that step `n` wrote is in no message, no queued join, and in nobody's hands. */
  ghost predicate Unlisted(tr: Trace, n: nat) {
    && (forall p | p in tr.seen :: !Has(tr.seen[p], n))
    && (forall x | x in tr.queue :: !Has(x.1, n))
    && (forall f, x | f in tr.taken && x in tr.taken[f] :: !Has(x.1, n))
    && (forall snap | snap in tr.sent :: !Has(snap, n))
  }

  /** And it is in no cell either. */
  ghost predicate Nowhere(tr: Trace, n: nat) {
    Unlisted(tr, n) && forall h, st :: !Current(tr, h, st, n)
  }

  lemma SnapHas(tr: Trace, h: Hash, now: nat, n: nat)
    requires forall st :: !Current(tr, h, st, n)
    ensures !Has(tr.Snap(h, now), n)
  {
    var writes := tr.Snap(h, now).writes;
    if n in writes.Values {
      var st :| st in writes && writes[st] == n;
      assert Current(tr, h, st, n);
    }
  }

  lemma ReadByHas(tr: Trace, p: Process, n: nat)
    requires Unlisted(tr, n)
    ensures !Has(tr.ReadBy(p), n)
  {
    if p.Flusher? && tr.TakenBy(p.f) != [] { assert tr.TakenBy(p.f)[0] in tr.taken[p.f]; }
  }

  lemma TakenFrom(c: Setup, tr: Trace, a: Action, f: nat, x: (Item, Snapshot))
    requires f in NextTaken(c, tr, a) && x in NextTaken(c, tr, a)[f]
    ensures x in tr.queue || (f in tr.taken && x in tr.taken[f])
  {
  }

  /** Only a read lists a record anew. */
  lemma UnlistedStays(c: Setup, tr: Trace, a: Action, now: nat, n: nat)
    requires Unlisted(tr, n) && (ReadOf(tr.s, a).Some? ==> forall h, st :: !Current(tr, h, st, n))
    ensures Unlisted(Next(c, tr, a, now), n)
  {
    var u := Next(c, tr, a, now);
    if ReadOf(tr.s, a).Some? { SnapHas(tr, ReadOf(tr.s, a).value.h, now, n); }
    ReadByHas(tr, ActorOf(a), n);
    assert forall x | x in u.queue :: !Has(x.1, n);
    assert forall f, x | f in u.taken && x in u.taken[f] :: !Has(x.1, n) by {
      forall f, x | f in u.taken && x in u.taken[f] ensures !Has(x.1, n) { TakenFrom(c, tr, a, f, x); }
    }
  }

  lemma NowhereStays(c: Setup, tr: Trace, a: Action, now: nat, n: nat)
    requires Nowhere(tr, n) && n != now
    ensures Nowhere(Next(c, tr, a, now), n)
  {
    var u := Next(c, tr, a, now);
    UnlistedStays(c, tr, a, now, n);
    forall h, st | Current(u, h, st, n) ensures Current(tr, h, st, n) {
      CellFrom(c, tr.s, a, h, st);
      WrittenNext(c, tr, a, now, h, st);
    }
  }

  lemma NowhereSnoc(c: Setup, actions: seq<Action>, a: Action, n: nat)
    requires n != |actions| && Nowhere(Traced(c, actions), n)
    ensures Nowhere(Traced(c, actions + [a]), n)
  {
    TracedSnoc(c, actions, a);
    NowhereStays(c, Traced(c, actions), a, |actions|, n);
  }

  /** Whatever happens afterwards, it stays nowhere. */
  lemma {:induction false} NowhereForever(c: Setup, run: seq<Action>, k: nat, n: nat)
    requires n < k <= |run| && Nowhere(Traced(c, run[..k]), n)
    ensures Nowhere(Traced(c, run), n)
  {
    if k == |run| {
      assert run[..k] == run;
    } else {
      var init, a := run[..|run| - 1], run[|run| - 1];
      assert init[..k] == run[..k] && init + [a] == run;
      NowhereForever(c, init, k, n);
      NowhereSnoc(c, init, a, n);
    }
  }

  lemma {:induction false} NotYet(c: Setup, actions: seq<Action>, n: nat)
    requires n >= |actions|
    ensures Nowhere(Traced(c, actions), n)
  {
    if actions != [] {
      var init, a := actions[..|actions| - 1], actions[|actions| - 1];
      assert init + [a] == actions;
      NotYet(c, init, n);
      NowhereSnoc(c, init, a, n);
    }
  }

  /** Right after a write the record is in its cell and nowhere else. */
  ghost predicate OnlyIn(tr: Trace, e: Event, n: nat) {
    Unlisted(tr, n) && forall h, st | Current(tr, h, st, n) :: h == e.hash
  }

  lemma OnlyThere(c: Setup, tr: Trace, w: Action, n: nat)
    requires Nowhere(tr, n) && WriteOf(tr.s, w).Some?
    ensures OnlyIn(Next(c, tr, w, n), WriteOf(tr.s, w).value, n)
  {
    var u, e := Next(c, tr, w, n), WriteOf(tr.s, w).value;
    UnlistedStays(c, tr, w, n, n);
    forall h, st | Current(u, h, st, n) ensures h == e.hash || Current(tr, h, st, n) {
      CellFrom(c, tr.s, w, h, st);
      WrittenNext(c, tr, w, n, h, st);
    }
  }

  lemma DeletedThere(c: Setup, tr: Trace, d: Action, now: nat, n: nat, e: Event)
    requires OnlyIn(tr, e, n) && DeleteOf(tr.s, d).Some? && DeleteOf(tr.s, d).value.h == e.hash
    ensures Nowhere(Next(c, tr, d, now), n)
  {
    var u := Next(c, tr, d, now);
    UnlistedStays(c, tr, d, now, n);
    assert CellsAt(u.s.w, e.hash) == map[];
    forall h, st | Current(u, h, st, n) ensures Current(tr, h, st, n) && h != e.hash {
      CellFrom(c, tr.s, d, h, st);
      WrittenNext(c, tr, d, now, h, st);
    }
  }

  /** A record written by the last step, and its row deleted by the next: it is nowhere. */
  lemma WriteThenDelete(c: Setup, actions: seq<Action>, w: Action, d: Action)
    requires WriteOf(Traced(c, actions).s, w).Some?
    requires var x := DeleteOf(Traced(c, actions + [w]).s, d);
      x.Some? && x.value.h == WriteOf(Traced(c, actions).s, w).value.hash
    ensures Nowhere(Traced(c, actions + [w] + [d]), |actions|)
  {
    var n, tr, e := |actions|, Traced(c, actions), WriteOf(Traced(c, actions).s, w).value;
    NotYet(c, actions, n);
    TracedSnoc(c, actions, w);
    TracedSnoc(c, actions + [w], d);
    OnlyThere(c, tr, w, n);
    DeletedThere(c, Traced(c, actions + [w]), d, n + 1, n, e);
  }

  // ---------- overtaking is always possible ----------

  /** A handler of the record, up to and including its write. */
  function UpToWrite(c: Setup, t: nat, e: Event): seq<Action> {
    [Deliver(t, e)] + if c.bloom then [RunHandler(t, DONE)] else []
  }

  /** Handlers other than this one, all managers and all flushers are where they were. */
  predicate OnlyRan(s: System, u: System, t: nat) {
    && (forall o | o in s.threads && o != t :: o in u.threads && u.threads[o] == s.threads[o])
    && u.managers == s.managers && u.flushers == s.flushers
  }

  lemma TakenUp(c: Setup, s: System, t: nat, e: Event)
    requires c.decode(e.payload).Some? && t !in s.threads
    ensures var u := Step(c, s, Deliver(t, e)); OnlyRan(s, u, t) && t in u.threads && u.threads[t] == Start(c, e)
  {
  }

  lemma FilterAsked(c: Setup, s: System, t: nat, e: Event)
    requires t in s.threads && s.threads[t] == Exists(e)
    ensures var u := Step(c, s, RunHandler(t, DONE)); OnlyRan(s, u, t) && WriteOf(u, RunHandler(t, DONE)) == Some(e)
  {
  }

  lemma ReachesWrite(c: Setup, actions: seq<Action>, t: nat, e: Event)
    requires c.decode(e.payload).Some? && t !in Run(c, actions).threads
    ensures var u := Run(c, actions + UpToWrite(c, t, e));
      OnlyRan(Run(c, actions), u, t) && WriteOf(u, RunHandler(t, DONE)) == Some(e)
  {
    var one := actions + [Deliver(t, e)];
    TakenUp(c, Run(c, actions), t, e);
    RunSnoc(c, actions, Deliver(t, e));
    if c.bloom {
      FilterAsked(c, Run(c, one), t, e);
      RunSnoc(c, one, RunHandler(t, DONE));
      assert actions + UpToWrite(c, t, e) == one + [RunHandler(t, DONE)];
    } else {
      assert actions + UpToWrite(c, t, e) == one;
    }
  }

  lemma StillDeletes(c: Setup, s: System, u: System, t: nat, d: Action)
    requires DeleteOf(s, d).Some? && OnlyRan(s, u, t) && t !in s.threads
    ensures DeleteOf(Step(c, u, RunHandler(t, DONE)), d) == DeleteOf(s, d)
  {
  }

  lemma WroteThere(c: Setup, all: seq<Action>, before: seq<Action>, w: Action, e: Event)
    requires before + [w] <= all && WriteOf(Traced(c, before).s, w) == Some(e)
    ensures Wrote(c, all, |before|, Fact(e.hash, e.stream, e.payload))
  {
    var n := |before|;
    assert all[n] == (before + [w])[n] == w;
    assert all[..n] == before;
  }

  lemma StaysNowhere(c: Setup, all: seq<Action>, run: seq<Action>, n: nat)
    requires run <= all && n < |run| && Nowhere(Traced(c, run), n)
    ensures Nowhere(Traced(c, all), n)
  {
    assert all[..|run|] == run;
    NowhereForever(c, all, |run|, n);
  }

  /**
   * Whenever a row is about to be deleted, any record of its key can be handled up to its write before that happens,
   * with every call succeeding; after the deletion it is in no row and no message, whatever happens from then on.
   */
  lemma OvertakenForGood(c: Setup, actions: seq<Action>, d: Action, t: nat, e: Event, more: seq<Action>)
    returns (run: seq<Action>, n: nat)
    requires DeleteOf(Run(c, actions), d).Some? && DeleteOf(Run(c, actions), d).value.h == e.hash
    requires c.decode(e.payload).Some? && t !in Run(c, actions).threads
    ensures run == actions + UpToWrite(c, t, e) + [RunHandler(t, DONE)] + [d]
    ensures Wrote(c, run + more, n, Fact(e.hash, e.stream, e.payload)) && Nowhere(Traced(c, run + more), n)
  {
    var before, w := actions + UpToWrite(c, t, e), RunHandler(t, DONE);
    run, n := before + [w] + [d], |before|;
    ReachesWrite(c, actions, t, e);
    StillDeletes(c, Run(c, actions), Run(c, before), t, d);
    RunSnoc(c, before, w);
    TracedRun(c, before);
    TracedRun(c, before + [w]);
    WriteThenDelete(c, before, w, d);
    WroteThere(c, run + more, before, w, e);
    StaysNowhere(c, run + more, run, n);
  }

  // ---------- and rows come to be deleted ----------

  /** A calm run of the configuration after which the row of `h` is about to be deleted. */
  ghost predicate Poised(c: Setup, actions: seq<Action>, d: Action, h: Hash) {
    Calm(actions) && CalmAction(d) && DeleteOf(Run(c, actions), d).Some? && DeleteOf(Run(c, actions), d).value.h == h
  }

  /** A queued join is taken up and published. */
  lemma FlushPoised(c: Setup, actions: seq<Action>, item: Item) returns (all: seq<Action>, d: Action)
    requires c.producer && Calm(actions)
    requires var s := Run(c, actions); s.w.queue == [item] && s.flushers == map[] && s.threads.Keys <= {0}
    ensures Poised(c, all, d, item.hash) && Run(c, all).threads.Keys <= {0}
  {
    var poll := PollDelays(0, [item], item.publishAt);
    d := RunFlusher(0, DONE);
    RunSnoc(c, actions, poll);
    RunSnoc(c, actions + [poll], d);
    DueAlone(item, item.publishAt);
    all := actions + [poll] + [d];
  }

  /** The row of a join that is published, at once or by a flush. */
  lemma JoinPoised(c: Setup, es: seq<Event>, h: Hash) returns (actions: seq<Action>, d: Action)
    requires c.producer && FullSet(c, es, h)
    ensures Poised(c, actions, d, h) && Run(c, actions).threads.Keys <= {0}
  {
    d := RunHandler(0, DONE);
    var s;
    actions, s := Ready(c, es, h);
    OneMore(c, actions, s, es, d);
    actions := actions + [d];
    if c.Delays() { actions, d := FlushPoised(c, actions, Step(c, s, d).w.queue[0]); }
  }

  /** The manager's next call, with nothing failing. */
  lemma ManagerCall(c: Setup, actions: seq<Action>)
    requires 0 in Run(c, actions).managers && Calm(actions)
    ensures var s, n := Run(c, actions), Run(c, actions + [RunManager(0, DONE)]);
      && Calm(actions + [RunManager(0, DONE)]) && 0 in n.managers && n.threads == s.threads
      && (n.w, n.managers[0]) == ManagerStep(c, s.w, s.managers[0], DONE)
  {
    RunSnoc(c, actions, RunManager(0, DONE));
  }

  lemma TakesUp(c: Setup, actions: seq<Action>, h: Hash)
    requires Run(c, actions).managers == map[] && Calm(actions) && h in Run(c, actions).w.timeouts
    ensures var s, n := Run(c, actions), Run(c, actions + [PollTimeouts(0, [h])]);
      && Calm(actions + [PollTimeouts(0, [h])]) && n.w == s.w && n.threads == s.threads
      && 0 in n.managers && n.managers[0] == Get(h, [])
  {
    RunSnoc(c, actions, PollTimeouts(0, [h]));
  }

  lemma OneCell(e: Event)
    ensures |(map[])[e.stream := e.payload]| == 1
  {
  }

  /** One record is in its row. */
  lemma OneHeld(c: Setup, e: Event) returns (actions: seq<Action>, s: System)
    requires c.N() >= 2 && c.decode(e.payload).Some?
    ensures Serially(c, actions, s, [e]) && Gathering(c, s.w, e.hash, map[e.stream := e.payload])
    ensures c.bloom && c.Schedules() ==> e.hash in s.w.timeouts
  {
    assert Serially(c, [], INIT, [e]);
    actions, s := RecordActions(c, [], INIT, [e], e);
    OneCell(e);
    GatherStep(c, EMPTY_WORLD, e, map[]);
  }

  lemma UpToDrop(c: Setup, actions: seq<Action>, h: Hash) returns (all: seq<Action>, d: Action)
    requires Calm(actions) && var s := Run(c, actions);
      && 0 in s.managers && s.managers[0] == Get(h, []) && s.threads.Keys <= {0}
      && h in s.w.rows && |s.w.rows[h].cells| < c.N() && Decodes(c.decode, s.w.rows[h].cells)
    ensures Poised(c, all, d, h) && d == RunManager(0, DONE) && Run(c, all).threads.Keys <= {0}
  {
    d := RunManager(0, DONE);
    ManagerCall(c, actions);
    all := actions + [d];
    if c.Partials() && c.producer {
      ManagerCall(c, all);
      all := all + [d];
    }
    if c.Partials() && c.tracker {
      ManagerCall(c, all);
      all := all + [d];
    }
    assert Run(c, all).managers[0] == DropRow(h, []);
  }

  /** A key that a first arrival has scheduled times out, under either policy; its partial, if due, is published. */
  lemma TimeoutPoised(c: Setup, e: Event) returns (actions: seq<Action>, d: Action)
    requires c.N() >= 2 && c.bloom && c.Schedules() && c.decode(e.payload).Some?
    ensures Poised(c, actions, d, e.hash) && d == RunManager(0, DONE) && Run(c, actions).threads.Keys <= {0}
  {
    var s;
    actions, s := OneHeld(c, e);
    TakesUp(c, actions, e.hash);
    OneCell(e);
    actions, d := UpToDrop(c, actions + [PollTimeouts(0, [e.hash])], e.hash);
  }

  /** The run has handled a usable record that is in no row and no message any more. */
  ghost predicate LostIn(c: Setup, run: seq<Action>, e: Event) {
    exists n: nat :: Wrote(c, run, n, Fact(e.hash, e.stream, e.payload)) && Nowhere(Traced(c, run), n)
  }

  /** However this calm run goes on, it has lost the record. */
  ghost predicate Loses(c: Setup, run: seq<Action>, e: Event) {
    Calm(run) && forall more :: LostIn(c, run + more, e)
  }

  lemma PoisedLoses(c: Setup, actions: seq<Action>, d: Action, e: Event) returns (run: seq<Action>)
    requires Poised(c, actions, d, e.hash) && c.decode(e.payload).Some? && Run(c, actions).threads.Keys <= {0}
    ensures Loses(c, run, e) && d in run
  {
    run := actions + UpToWrite(c, 1, e) + [RunHandler(1, DONE)] + [d];
    forall more ensures LostIn(c, run + more, e) {
      var r, n := OvertakenForGood(c, actions, d, 1, e, more);
    }
    assert Calm(UpToWrite(c, 1, e)) && CalmAction(RunHandler(1, DONE));
  }

  /**
   * So no configuration keeps every record it handles: with all calls succeeding, some run loses one for good, behind
   * the publication of a join; and where timeouts are scheduled also behind a timeout, under partial policy too.
   */
  lemma EveryConfigurationCanLose(c: Setup, es: seq<Event>, e: Event)
    returns (behindJoin: seq<Action>, behindTimeout: seq<Action>)
    requires c.producer && FullSet(c, es, e.hash) && c.decode(e.payload).Some?
    ensures Loses(c, behindJoin, e)
    ensures c.N() >= 2 && c.bloom && c.Schedules() ==>
      Loses(c, behindTimeout, e) && RunManager(0, DONE) in behindTimeout
  {
    var before, d := JoinPoised(c, es, e.hash);
    behindJoin := PoisedLoses(c, before, d, e);
    behindTimeout := [];
    if c.N() >= 2 && c.bloom && c.Schedules() {
      before, d := TimeoutPoised(c, es[0]);
      behindTimeout := PoisedLoses(c, before, d, e);
    }
  }

  // ---------- when timeouts delete at all ----------

  lemma NothingScheduled(c: Setup, w: World, pc: Pc, r: Reply)
    requires (!c.bloom || !c.Schedules()) && !pc.Schedule? && (!c.bloom ==> !pc.Add? && !pc.WriteOnly? && !pc.Exists?)
    ensures var (v, n) := HandlerStep(c, w, pc, r);
      v.timeouts == w.timeouts && !n.Schedule? && (!c.bloom ==> !n.Add? && !n.WriteOnly? && !n.Exists?)
  {
  }

  /** No key is on the timeout set, and no handler is about to put one there. */
  predicate Timeless(c: Setup, s: System) {
    && s.w.timeouts == map[] && (forall m | m in s.managers :: s.managers[m].Resting?)
    && (forall t | t in s.threads :: !s.threads[t].Schedule?)
    && (!c.bloom ==>
          forall t | t in s.threads :: !s.threads[t].Add? && !s.threads[t].WriteOnly? && !s.threads[t].Exists?)
  }

  lemma FlusherTimeouts(c: Setup, w: World, f: Fpc, r: Reply)
    ensures FlusherStep(c, w, f, r).0.timeouts == w.timeouts
  {
  }

  lemma TimelessStays(c: Setup, s: System, a: Action)
    requires (!c.bloom || !c.Schedules()) && Timeless(c, s)
    ensures Timeless(c, Step(c, s, a))
  {
    match a {
      case RunHandler(t, r) => if t in s.threads { NothingScheduled(c, s.w, s.threads[t], r); }
      case RunFlusher(f, r) => if f in s.flushers { FlusherTimeouts(c, s.w, s.flushers[f], r); }
      case PollTimeouts(_, members) => if members != [] { assert members[0] in members; }
      case _ =>
    }
  }

  /** Only a first arrival that asks the filter schedules its key, so without a filter, or a ttl, none times out. */
  lemma {:induction false} NeverScheduled(c: Setup, actions: seq<Action>)
    requires !c.bloom || !c.Schedules()
    ensures Timeless(c, Run(c, actions))
  {
    if actions != [] {
      NeverScheduled(c, actions[..|actions| - 1]);
      TimelessStays(c, Run(c, actions[..|actions| - 1]), actions[|actions| - 1]);
    }
  }

  /** Rows have cells, and no manager has found one incomplete. */
  predicate Complete(s: System) {
    && (forall h | h in s.w.rows :: s.w.rows[h].cells != map[])
    && (forall m | m in s.managers :: s.managers[m].Resting? || s.managers[m].Get? || s.managers[m].Unschedule?)
  }

  lemma CompleteHandler(c: Setup, w: World, pc: Pc, r: Reply)
    requires forall h | h in w.rows :: w.rows[h].cells != map[]
    ensures var v := HandlerStep(c, w, pc, r).0; forall h | h in v.rows :: v.rows[h].cells != map[]
  {
    assert CellsAt(w, pc.e.hash)[pc.e.stream := pc.e.payload] != map[] by {
      assert pc.e.stream in CellsAt(w, pc.e.hash)[pc.e.stream := pc.e.payload];
    }
  }

  lemma CompleteManager(c: Setup, w: World, m: Mpc, r: Reply)
    requires c.N() < 2 && (m.Resting? || m.Get? || m.Unschedule?)
    requires forall h | h in w.rows :: w.rows[h].cells != map[]
    ensures var (v, n) := ManagerStep(c, w, m, r); v.rows == w.rows && (n.Resting? || n.Get? || n.Unschedule?)
  {
    if m.Get? && m.h in w.rows { assert |w.rows[m.h].cells| >= 1; }
  }

  lemma CompleteFlusher(c: Setup, w: World, f: Fpc, r: Reply)
    requires forall h | h in w.rows :: w.rows[h].cells != map[]
    ensures var v := FlusherStep(c, w, f, r).0; forall h | h in v.rows :: v.rows[h].cells != map[]
  {
  }

  lemma CompleteStays(c: Setup, s: System, a: Action)
    requires c.N() < 2 && Complete(s)
    ensures Complete(Step(c, s, a))
  {
    match a {
      case RunHandler(t, r) => if t in s.threads { CompleteHandler(c, s.w, s.threads[t], r); }
      case RunManager(m, r) => if m in s.managers { CompleteManager(c, s.w, s.managers[m], r); }
      case RunFlusher(f, r) => if f in s.flushers { CompleteFlusher(c, s.w, s.flushers[f], r); }
      case _ =>
    }
  }

  lemma {:induction false} OneStreamComplete(c: Setup, actions: seq<Action>)
    requires c.N() < 2
    ensures Complete(Run(c, actions))
  {
    if actions != [] {
      OneStreamComplete(c, actions[..|actions| - 1]);
      CompleteStays(c, Run(c, actions[..|actions| - 1]), actions[|actions| - 1]);
    }
  }

  /** Some run brings a manager to delete a row. */
  ghost predicate TimeoutsDelete(c: Setup) {
    exists actions, m :: m in Run(c, actions).managers && Run(c, actions).managers[m].DropRow?
  }

  /**
   * Timeouts delete rows at all if and only if the join has two streams or more, the filter is on, and the ttl is
   * positive with a timeout set to schedule on: validation asks for none of the last two under inner policy.
   */
  lemma TimeoutsDeleteIff(c: Setup, e: Event)
    requires c.decode(e.payload).Some?
    ensures TimeoutsDelete(c) <==> c.N() >= 2 && c.bloom && c.Schedules()
  {
    if TimeoutsDelete(c) {
      var actions, m :| m in Run(c, actions).managers && Run(c, actions).managers[m].DropRow?;
      if c.N() < 2 { OneStreamComplete(c, actions); }
      if !c.bloom || !c.Schedules() { NeverScheduled(c, actions); }
    }
    if c.N() >= 2 && c.bloom && c.Schedules() {
      var actions, d := TimeoutPoised(c, e);
      assert Run(c, actions).managers[0].DropRow?;
    }
  }

  /** A partial configuration that passes validation is one of these, given a filter, a scheduler and two streams. */
  lemma AcceptedPartialsTimeOut(c: Setup, e: Event)
    requires Valid(c.join) && c.Partials() && c.scheduler && c.bloom && c.N() >= 2 && c.decode(e.payload).Some?
    ensures TimeoutsDelete(c)
  {
    TimeoutsDeleteIff(c, e);
  }
}
