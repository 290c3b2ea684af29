/**
 * Bookkeeping of timeouts, partials and corrections, over runs of the full system in which no handler or manager
 * is killed, a key is handled by one handler at a time, one manager runs, no store or Redis call of theirs fails,
 * and produces may fail, with or without effect. Sub-steps of handlers and manager still interleave freely.
 */
module Accounting {
  import opened Protocol
  import opened Provenance

  predicate Active(s: System, t: nat) {
    t in s.threads && !s.threads[t].Ended?
  }

  /** Replies in such runs: only a produce may fail. */
  predicate CalmReply(sending: bool, r: Reply) {
    r.Fine() || sending
  }

  predicate Calm(s: System, a: Action) {
    match a
    case Deliver(t, e) => forall u | u in s.threads && Active(s, u) :: s.threads[u].e.hash != e.hash
    case RunHandler(t, r) => t in s.threads ==> CalmReply(s.threads[t].Correct? || s.threads[t].Publish?, r)
    case PollTimeouts(m, members) =>
      && m == 0
      && (forall i, j | 0 <= i < j < |members| :: members[i] != members[j])
      && (forall h | h in members :: h in s.w.timeouts)
    case RunManager(m, r) => m in s.managers ==> CalmReply(s.managers[m].PublishPartial?, r)
    case KillHandler(_) => false
    case KillManager(_) => false
    case _ => true
  }

  predicate CalmRun(c: Setup, actions: seq<Action>) {
    forall i | 0 <= i < |actions| :: Calm(Run(c, actions[..i]), actions[i])
  }

  /** How many messages of this kind were accepted for a key. */
  function Count(out: seq<Sent>, kind: Kind, k: Hash): nat {
    if out == [] then 0 else
    Count(out[..|out| - 1], kind, k) + if out[|out| - 1].kind == kind && out[|out| - 1].hash == k then 1 else 0
  }

  predicate Schedules(s: System, a: Action, k: Hash) {
    a.RunHandler? && a.t in s.threads && s.threads[a.t].Schedule? && s.threads[a.t].e.hash == k
  }

  /** How many times a key was put on the timeout set. */
  function Scheduled(c: Setup, actions: seq<Action>, k: Hash): nat {
    if actions == [] then 0 else
    var init := actions[..|actions| - 1];
    Scheduled(c, init, k) + if Schedules(Run(c, init), actions[|actions| - 1], k) then 1 else 0
  }

  /** A partial of the key is produced, with this outcome. */
  predicate Partials(s: System, a: Action, k: Hash, outcome: Outcome) {
    && a.RunManager? && a.m in s.managers && a.r.outcome == outcome
    && s.managers[a.m].PublishPartial? && s.managers[a.m].h == k
  }

  /** How many partials of a key were produced with this outcome. */
  function Produced(c: Setup, actions: seq<Action>, k: Hash, outcome: Outcome): nat {
    if actions == [] then 0 else
    var init := actions[..|actions| - 1];
    Produced(c, init, k, outcome) + if Partials(Run(c, init), actions[|actions| - 1], k, outcome) then 1 else 0
  }

  /** A key's schedulings, its acknowledged partials, and its partials published although an error was reported. */
  datatype Marks = Marks(scheduled: nat, acked: nat, lost: nat)

  function Marked(c: Setup, actions: seq<Action>, k: Hash): Marks {
    Marks(Scheduled(c, actions, k), Produced(c, actions, k, Done), Produced(c, actions, k, LostReply))
  }

  function Next(s: System, a: Action, k: Hash, z: Marks): Marks {
    Marks(
      z.scheduled + if Schedules(s, a, k) then 1 else 0,
      z.acked + if Partials(s, a, k, Done) then 1 else 0,
      z.lost + if Partials(s, a, k, LostReply) then 1 else 0)
  }

  // ---------- the invariant, for one key ----------

  ghost predicate OneHandlerPerKey(s: System) {
    forall t, u | Active(s, t) && Active(s, u) && t != u :: s.threads[t].e.hash != s.threads[u].e.hash
  }

  function Manager(s: System): Mpc {
    if 0 in s.managers then s.managers[0] else Resting
  }

  predicate GoodBatch(w: World, m: Mpc) {
    m.Resting? || (
      && m.h in w.timeouts && m.h !in m.rest
      && (forall h | h in m.rest :: h in w.timeouts)
      && (forall i, j | 0 <= i < j < |m.rest| :: m.rest[i] != m.rest[j]))
  }

  /** The manager has dealt with `k`, up to taking it off the timeout set. */
  predicate DealtWith(m: Mpc, k: Hash) {
    (m.Track? || m.DropRow? || m.Unschedule?) && m.h == k
  }

  /** What the handler of `k`, wherever it is, relies on. */
  predicate HandlerAccount(w: World, pc: Pc, k: Hash, z: Marks) {
    pc.e.hash == k ==>
      && (pc.WriteOnly? || pc.Add? || pc.Schedule? ==> z.scheduled == 0)
      && (pc.Schedule? ==> k in w.bloom)
      && (pc.Correct? || pc.Forget? ==> k in w.tracker)
  }

  /** The manager's side of a key's account. */
  predicate ManagerAccount(c: Setup, w: World, m: Mpc, k: Hash, z: Marks) {
    && z.scheduled <= 1 && (k !in w.bloom ==> z.scheduled == 0)
    && (k in w.timeouts ==> z.scheduled == 1)
    && z.acked <= z.scheduled
    && Count(w.out, Partial, k) == z.acked + z.lost
    && (k in w.timeouts && !DealtWith(m, k) ==> z.acked == 0)
    && (c.producer && k in w.tracker ==> z.acked == 1)
    && (m.Track? && m.h == k ==> Count(w.out, Late, k) == 0 && (c.producer ==> k !in w.tracker && z.acked == 1))
    && Count(w.out, Late, k) <= z.acked
  }

  predicate Forgetting(s: System, k: Hash) {
    exists t :: t in s.threads && s.threads[t].Forget? && s.threads[t].e.hash == k
  }

  ghost predicate Account(c: Setup, s: System, k: Hash, z: Marks) {
    && OneHandlerPerKey(s)
    && s.managers.Keys <= {0}
    && GoodBatch(s.w, Manager(s))
    && ManagerAccount(c, s.w, Manager(s), k, z)
    && (forall t | t in s.threads :: HandlerAccount(s.w, s.threads[t], k, z))
    && (k in s.w.tracker && !Forgetting(s, k) ==> Count(s.w.out, Late, k) == 0)
  }

  // ---------- steps ----------

  lemma CountPush(out: seq<Sent>, m: Sent, kind: Kind, k: Hash)
    ensures Count(out + [m], kind, k) == Count(out, kind, k) + if m.kind == kind && m.hash == k then 1 else 0
  {
    assert (out + [m])[..|out|] == out;
  }

  /** Two worlds in which `k` has the same standing, but that it may have become a false positive. */
  predicate SameStanding(w: World, v: World, k: Hash) {
    && (k in w.bloom ==> k in v.bloom)
    && (k in w.timeouts <==> k in v.timeouts)
    && (k in w.tracker <==> k in v.tracker)
    && Count(w.out, Partial, k) == Count(v.out, Partial, k)
    && Count(w.out, Late, k) == Count(v.out, Late, k)
  }

  lemma OtherKeyQuiet(c: Setup, w: World, pc: Pc, r: Reply, k: Hash)
    requires pc.e.hash != k && !pc.Correct? && !pc.Publish?
    ensures SameStanding(w, HandlerStep(c, w, pc, r).0, k)
  {
  }

  lemma ProduceStanding(w: World, m: Sent, k: Hash)
    requires m.kind == Main || m.kind == Delayed || m.hash != k
    ensures SameStanding(w, Produce(w, m), k)
  {
    CountPush(w.out, m, Partial, k);
    CountPush(w.out, m, Late, k);
  }

  lemma OtherKeySends(c: Setup, w: World, pc: Pc, r: Reply, k: Hash)
    requires pc.e.hash != k && (pc.Correct? || pc.Publish?)
    ensures SameStanding(w, HandlerStep(c, w, pc, r).0, k)
  {
    if pc.Correct? {
      ProduceStanding(w, Sent(Late, pc.e.hash, pc.text, pc.row.raw, pc.e.hash, pc.row.cells), k);
    } else {
      ProduceStanding(w, Sent(Main, pc.e.msgKey, pc.text, "", pc.e.hash, pc.cells), k);
    }
  }

  /** Handling another key leaves this one's standing alone. */
  lemma OtherKeyStep(c: Setup, w: World, pc: Pc, r: Reply, k: Hash)
    requires pc.e.hash != k
    ensures SameStanding(w, HandlerStep(c, w, pc, r).0, k)
  {
    if pc.Correct? || pc.Publish? { OtherKeySends(c, w, pc, r, k); } else { OtherKeyQuiet(c, w, pc, r, k); }
  }

  lemma SameEvent(c: Setup, w: World, pc: Pc, r: Reply)
    ensures HandlerStep(c, w, pc, r).1.e == pc.e
    ensures pc.Ended? ==> HandlerStep(c, w, pc, r) == (w, pc)
    ensures w.timeouts.Keys <= HandlerStep(c, w, pc, r).0.timeouts.Keys
  {
  }

  lemma ThreadsStayApart(c: Setup, s: System, t: nat, r: Reply)
    requires OneHandlerPerKey(s) && t in s.threads
    ensures OneHandlerPerKey(Step(c, s, RunHandler(t, r)))
  {
    SameEvent(c, s.w, s.threads[t], r);
    var s' := Step(c, s, RunHandler(t, r));
    forall u, v | Active(s', u) && Active(s', v) && u != v ensures s'.threads[u].e.hash != s'.threads[v].e.hash {
      assert Active(s, u) && Active(s, v);
    }
  }

  lemma StandingAccount(c: Setup, w: World, v: World, m: Mpc, pc: Pc, k: Hash, z: Marks)
    requires SameStanding(w, v, k) && w.timeouts.Keys <= v.timeouts.Keys
    ensures GoodBatch(w, m) ==> GoodBatch(v, m)
    ensures ManagerAccount(c, w, m, k, z) ==> ManagerAccount(c, v, m, k, z)
    ensures HandlerAccount(w, pc, k, z) ==> HandlerAccount(v, pc, k, z)
  {
  }

  /** A handler of another key moved on without touching this key's standing. */
  lemma StandingKeeps(c: Setup, s: System, s': System, t: nat, k: Hash, z: Marks)
    requires Account(c, s, k, z) && OneHandlerPerKey(s') && s'.managers == s.managers
    requires t in s.threads && t in s'.threads && s'.threads == s.threads[t := s'.threads[t]]
    requires s.threads[t].e.hash != k && s'.threads[t].e.hash != k
    requires SameStanding(s.w, s'.w, k) && s.w.timeouts.Keys <= s'.w.timeouts.Keys
    ensures Account(c, s', k, z)
  {
    forall u | u in s'.threads ensures HandlerAccount(s'.w, s'.threads[u], k, z) {
      StandingAccount(c, s.w, s'.w, Manager(s), s'.threads[u], k, z);
      if u != t { assert s'.threads[u] == s.threads[u]; }
    }
    StandingAccount(c, s.w, s'.w, Manager(s), s'.threads[t], k, z);
    if Forgetting(s, k) {
      var u :| u in s.threads && s.threads[u].Forget? && s.threads[u].e.hash == k;
      assert s'.threads[u] == s.threads[u];
    }
  }

  lemma OtherHandlerKeeps(c: Setup, s: System, a: Action, k: Hash, z: Marks)
    requires Account(c, s, k, z) && a.RunHandler? && a.t in s.threads && s.threads[a.t].e.hash != k
    ensures Account(c, Step(c, s, a), k, z)
  {
    SameEvent(c, s.w, s.threads[a.t], a.r);
    OtherKeyStep(c, s.w, s.threads[a.t], a.r, k);
    ThreadsStayApart(c, s, a.t, a.r);
    StandingKeeps(c, s, Step(c, s, a), a.t, k, z);
  }

  /** The account after the handler of `k` has made one call. */
  predicate OwnStepGood(c: Setup, w: World, m: Mpc, pc: Pc, w': World, pc': Pc, k: Hash, z: Marks) {
    var z' := if pc.Schedule? then z.(scheduled := z.scheduled + 1) else z;
    && ManagerAccount(c, w', m, k, z') && GoodBatch(w', m) && HandlerAccount(w', pc', k, z')
    && (k in w'.tracker && !pc'.Forget? ==> k in w.tracker && Count(w'.out, Late, k) == Count(w.out, Late, k))
    && (pc.Forget? ==> k !in w'.tracker)
  }

  lemma OwnCorrection(c: Setup, w: World, m: Mpc, pc: Pc, r: Reply, k: Hash, z: Marks)
    requires pc.e.hash == k && pc.Correct? && Count(w.out, Late, k) == 0
    requires ManagerAccount(c, w, m, k, z) && GoodBatch(w, m) && HandlerAccount(w, pc, k, z)
    ensures var (w', pc') := HandlerStep(c, w, pc, r); OwnStepGood(c, w, m, pc, w', pc', k, z)
  {
    var sent := Sent(Late, k, pc.text, pc.row.raw, k, pc.row.cells);
    CountPush(w.out, sent, Partial, k);
    CountPush(w.out, sent, Late, k);
  }

  lemma OwnPublication(c: Setup, w: World, m: Mpc, pc: Pc, r: Reply, k: Hash, z: Marks)
    requires pc.e.hash == k && pc.Publish?
    requires ManagerAccount(c, w, m, k, z) && GoodBatch(w, m) && HandlerAccount(w, pc, k, z)
    ensures var (w', pc') := HandlerStep(c, w, pc, r); OwnStepGood(c, w, m, pc, w', pc', k, z)
  {
    var sent := Sent(Main, pc.e.msgKey, pc.text, "", k, pc.cells);
    CountPush(w.out, sent, Partial, k);
    CountPush(w.out, sent, Late, k);
  }

  lemma OwnHandlerStep(c: Setup, w: World, m: Mpc, pc: Pc, r: Reply, k: Hash, z: Marks)
    requires pc.e.hash == k && CalmReply(pc.Correct? || pc.Publish?, r)
    requires ManagerAccount(c, w, m, k, z) && GoodBatch(w, m) && HandlerAccount(w, pc, k, z)
    requires pc.Correct? ==> Count(w.out, Late, k) == 0
    ensures var (w', pc') := HandlerStep(c, w, pc, r); OwnStepGood(c, w, m, pc, w', pc', k, z)
  {
    if pc.Correct? { OwnCorrection(c, w, m, pc, r, k, z); }
    if pc.Publish? { OwnPublication(c, w, m, pc, r, k, z); }
  }

  lemma NotForgettingElsewhere(s: System, t: nat, k: Hash)
    requires OneHandlerPerKey(s) && Active(s, t) && s.threads[t].e.hash == k && !s.threads[t].Forget?
    ensures !Forgetting(s, k)
  {
    if Forgetting(s, k) {
      var u :| u in s.threads && s.threads[u].Forget? && s.threads[u].e.hash == k;
      assert Active(s, u);
    }
  }

  /** The handler of `k` moved on as it should. */
  lemma OwnMoveKeeps(c: Setup, s: System, s': System, t: nat, k: Hash, z: Marks, z': Marks)
    requires Account(c, s, k, z) && OneHandlerPerKey(s') && s'.managers == s.managers
    requires Active(s, t) && t in s'.threads && s'.threads == s.threads[t := s'.threads[t]]
    requires s.threads[t].e.hash == k && s'.threads[t].e == s.threads[t].e
    requires z' == if s.threads[t].Schedule? then z.(scheduled := z.scheduled + 1) else z
    requires OwnStepGood(c, s.w, Manager(s), s.threads[t], s'.w, s'.threads[t], k, z)
    requires s.threads[t].Forget? || !Forgetting(s, k)
    ensures Account(c, s', k, z')
  {
    forall u | u in s'.threads ensures HandlerAccount(s'.w, s'.threads[u], k, z') {
      if u != t && Active(s, u) { assert s.threads[u].e.hash != k; }
    }
    if k in s'.w.tracker && !Forgetting(s', k) {
      assert !s'.threads[t].Forget?;
    }
  }

  lemma OwnHandlerKeeps(c: Setup, s: System, a: Action, k: Hash, z: Marks)
    requires Account(c, s, k, z) && a.RunHandler? && Active(s, a.t) && s.threads[a.t].e.hash == k && Calm(s, a)
    ensures Account(c, Step(c, s, a), k, Next(s, a, k, z))
  {
    var pc := s.threads[a.t];
    if !pc.Forget? { NotForgettingElsewhere(s, a.t, k); }
    OwnHandlerStep(c, s.w, Manager(s), pc, a.r, k, z);
    SameEvent(c, s.w, pc, a.r);
    ThreadsStayApart(c, s, a.t, a.r);
    OwnMoveKeeps(c, s, Step(c, s, a), a.t, k, z, Next(s, a, k, z));
  }

  /** A produced partial is acknowledged, published all the same, or neither. */
  function Sending(m: Mpc, r: Reply, k: Hash, z: Marks): Marks {
    if !(m.PublishPartial? && m.h == k) then z
    else match r.outcome
      case Done => z.(acked := z.acked + 1)
      case LostReply => z.(lost := z.lost + 1)
      case Refused => z
  }

  /** The account after the manager has made one call. */
  predicate ManagerStepAccounted(c: Setup, w: World, w': World, m': Mpc, k: Hash, z: Marks) {
    && ManagerAccount(c, w', m', k, z) && GoodBatch(w', m')
    && w'.bloom == w.bloom && Count(w'.out, Late, k) == Count(w.out, Late, k) && w.tracker <= w'.tracker
    && (k in w'.tracker && k !in w.tracker ==> Count(w.out, Late, k) == 0)
  }

  lemma ManagerSends(c: Setup, w: World, m: Mpc, r: Reply, k: Hash, z: Marks)
    requires ManagerAccount(c, w, m, k, z) && GoodBatch(w, m) && m.PublishPartial?
    ensures var (w', m') := ManagerStep(c, w, m, r); ManagerStepAccounted(c, w, w', m', k, Sending(m, r, k, z))
  {
    var sent := Sent(Partial, m.h, m.text, "", m.h, m.cells);
    CountPush(w.out, sent, Partial, k);
    CountPush(w.out, sent, Late, k);
  }

  lemma ManagerMoves(c: Setup, w: World, m: Mpc, r: Reply, k: Hash, z: Marks)
    requires ManagerAccount(c, w, m, k, z) && GoodBatch(w, m) && CalmReply(m.PublishPartial?, r)
    ensures var (w', m') := ManagerStep(c, w, m, r); ManagerStepAccounted(c, w, w', m', k, Sending(m, r, k, z))
  {
    if m.PublishPartial? { ManagerSends(c, w, m, r, k, z); }
  }

  lemma ManagerMoveKeeps(c: Setup, s: System, s': System, k: Hash, z: Marks, z': Marks)
    requires Account(c, s, k, z) && s'.threads == s.threads && s'.managers.Keys <= {0} && z'.scheduled == z.scheduled
    requires ManagerStepAccounted(c, s.w, s'.w, Manager(s'), k, z')
    ensures Account(c, s', k, z')
  {
    assert forall t :: Active(s', t) <==> Active(s, t);
    assert Forgetting(s', k) <==> Forgetting(s, k);
  }

  lemma ManagerKeepsAccount(c: Setup, s: System, a: Action, k: Hash, z: Marks)
    requires Account(c, s, k, z) && a.RunManager? && Calm(s, a)
    ensures Account(c, Step(c, s, a), k, Next(s, a, k, z))
  {
    if a.m in s.managers {
      ManagerMoves(c, s.w, s.managers[0], a.r, k, z);
      ManagerMoveKeeps(c, s, Step(c, s, a), k, z, Next(s, a, k, z));
    }
  }

  /** A flush of the delay queue produces no partial and no correction, and touches none of the sets. */
  lemma FlusherStanding(c: Setup, w: World, f: Fpc, r: Reply, k: Hash)
    ensures SameStanding(w, FlusherStep(c, w, f, r).0, k)
    ensures FlusherStep(c, w, f, r).0.timeouts == w.timeouts
  {
    if f.Flush? { ProduceStanding(w, Sent(Delayed, f.item.msgKey, f.item.text, "", f.item.hash, f.item.cells), k); }
  }

  lemma SameStandingKeeps(c: Setup, s: System, s': System, k: Hash, z: Marks)
    requires Account(c, s, k, z)
    requires s'.threads == s.threads && s'.managers == s.managers
    requires SameStanding(s.w, s'.w, k) && s'.w.timeouts == s.w.timeouts
    ensures Account(c, s', k, z)
  {
    assert forall t :: Active(s', t) <==> Active(s, t);
    assert Forgetting(s', k) <==> Forgetting(s, k);
  }

  lemma NewHandlerApart(s: System, s': System, t: nat, pc: Pc)
    requires OneHandlerPerKey(s) && Free(s, t) && s'.threads == s.threads[t := pc]
    requires forall u | u in s.threads && Active(s, u) :: s.threads[u].e.hash != pc.e.hash
    ensures OneHandlerPerKey(s')
  {
    forall u, v | Active(s', u) && Active(s', v) && u != v ensures s'.threads[u].e.hash != s'.threads[v].e.hash {
      assert u != t ==> Active(s, u);
      assert v != t ==> Active(s, v);
    }
  }

  lemma NewHandlerKeeps(c: Setup, s: System, s': System, t: nat, pc: Pc, k: Hash, z: Marks)
    requires Account(c, s, k, z) && Free(s, t) && s'.threads == s.threads[t := pc] && OneHandlerPerKey(s')
    requires s'.w == s.w && s'.managers == s.managers && (pc.Exists? || pc.Write?)
    ensures Account(c, s', k, z)
  {
    forall u | u in s'.threads ensures HandlerAccount(s'.w, s'.threads[u], k, z) {
      StandingAccount(c, s.w, s'.w, Manager(s), s'.threads[u], k, z);
      if u != t { assert s'.threads[u] == s.threads[u]; }
    }
    StandingAccount(c, s.w, s'.w, Manager(s), s'.threads[t], k, z);
    if Forgetting(s, k) {
      var u :| u in s.threads && s.threads[u].Forget? && s.threads[u].e.hash == k;
      assert s'.threads[u] == s.threads[u];
    }
  }

  lemma DeliverKeepsAccount(c: Setup, s: System, a: Action, k: Hash, z: Marks)
    requires Account(c, s, k, z) && a.Deliver? && Calm(s, a)
    ensures Account(c, Step(c, s, a), k, z)
  {
    if Free(s, a.t) && c.decode(a.e.payload).Some? {
      NewHandlerApart(s, Step(c, s, a), a.t, Start(c, a.e));
      NewHandlerKeeps(c, s, Step(c, s, a), a.t, Start(c, a.e), k, z);
    }
  }

  lemma PollKeepsAccount(c: Setup, s: System, a: Action, k: Hash, z: Marks)
    requires Account(c, s, k, z) && a.PollTimeouts? && Calm(s, a)
    ensures Account(c, Step(c, s, a), k, z)
  {
    var s' := Step(c, s, a);
    if a.members != [] {
      var rest := a.members[1..];
      forall i | 0 <= i < |rest| ensures rest[i] != a.members[0] { assert rest[i] == a.members[i + 1]; }
    }
    assert forall t :: Active(s', t) <==> Active(s, t);
    assert Forgetting(s', k) <==> Forgetting(s, k);
  }

  lemma EndedStays(c: Setup, s: System, a: Action)
    requires a.RunHandler? && (a.t !in s.threads || s.threads[a.t].Ended?)
    ensures Step(c, s, a) == s
  {
    if a.t in s.threads { assert s.threads[a.t := s.threads[a.t]] == s.threads; }
  }

  lemma HandlerKeepsAccount(c: Setup, s: System, a: Action, k: Hash, z: Marks)
    requires Account(c, s, k, z) && a.RunHandler? && Calm(s, a)
    ensures Account(c, Step(c, s, a), k, Next(s, a, k, z))
  {
    if a.t !in s.threads || s.threads[a.t].Ended? { EndedStays(c, s, a); }
    else if s.threads[a.t].e.hash == k { OwnHandlerKeeps(c, s, a, k, z); }
    else { OtherHandlerKeeps(c, s, a, k, z); }
  }

  lemma FlusherKeepsAccount(c: Setup, s: System, a: Action, k: Hash, z: Marks)
    requires Account(c, s, k, z) && a.RunFlusher?
    ensures Account(c, Step(c, s, a), k, z)
  {
    if a.f in s.flushers { FlusherStanding(c, s.w, s.flushers[a.f], a.r, k); }
    SameStandingKeeps(c, s, Step(c, s, a), k, z);
  }

  /** Polling the delay queue, losing it, expiry and killed flushers. */
  lemma EnvironmentKeepsAccount(c: Setup, s: System, a: Action, k: Hash, z: Marks)
    requires Account(c, s, k, z)
    requires a.PollDelays? || a.LoseQueue? || a.ExpireCells? || a.KillFlusher?
    ensures Account(c, Step(c, s, a), k, z)
  {
    SameStandingKeeps(c, s, Step(c, s, a), k, z);
  }

  lemma QuietKeepsAccount(c: Setup, s: System, a: Action, k: Hash, z: Marks)
    requires Account(c, s, k, z) && Calm(s, a) && !a.RunHandler? && !a.RunManager?
    ensures Account(c, Step(c, s, a), k, z)
  {
    if a.Deliver? { DeliverKeepsAccount(c, s, a, k, z); }
    else if a.PollTimeouts? { PollKeepsAccount(c, s, a, k, z); }
    else if a.RunFlusher? { FlusherKeepsAccount(c, s, a, k, z); }
    else { EnvironmentKeepsAccount(c, s, a, k, z); }
  }

  lemma StepKeepsAccount(c: Setup, s: System, a: Action, k: Hash, z: Marks)
    requires Account(c, s, k, z) && Calm(s, a)
    ensures Account(c, Step(c, s, a), k, Next(s, a, k, z))
  {
    if a.RunHandler? { HandlerKeepsAccount(c, s, a, k, z); }
    else if a.RunManager? { ManagerKeepsAccount(c, s, a, k, z); }
    else { QuietKeepsAccount(c, s, a, k, z); }
  }

  lemma {:induction false} RunKeepsAccount(c: Setup, actions: seq<Action>, k: Hash)
    requires CalmRun(c, actions)
    ensures Account(c, Run(c, actions), k, Marked(c, actions, k))
  {
    if actions != [] {
      var init := actions[..|actions| - 1];
      assert forall i | 0 <= i < |init| :: init[..i] == actions[..i];
      RunKeepsAccount(c, init, k);
      StepKeepsAccount(c, Run(c, init), actions[|actions| - 1], k, Marked(c, init, k));
    }
  }

  /**
   * A key is put on the timeout set at most once, gets at most one acknowledged partial, and corrections never
   * outnumber these. Its published partials are the acknowledged ones and those whose reply was lost.
   */
  lemma PartialsAndCorrections(c: Setup, actions: seq<Action>, k: Hash)
    requires CalmRun(c, actions)
    ensures Scheduled(c, actions, k) <= 1
    ensures var out, acked := Run(c, actions).w.out, Produced(c, actions, k, Done);
      && Count(out, Late, k) <= acked <= Scheduled(c, actions, k)
      && Count(out, Partial, k) == acked + Produced(c, actions, k, LostReply)
  {
    RunKeepsAccount(c, actions, k);
  }
}
