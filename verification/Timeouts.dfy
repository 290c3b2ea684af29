/**
 * What polling the timeout set guarantees, whatever replies its calls get, how fast it works off a backlog, and when
 * it does not: a batch whose produces keep failing is offered again before anything behind it.
 */
module Timeouts {
  import opened Base
  import opened Projection
  import opened Protocol
  import opened Atomic
  import opened Collaborators

  type Answer = (Hash, MSite) -> Reply

  predicate Distinct(batch: seq<Hash>) {
    forall i, j | 0 <= i < j < |batch| :: batch[i] != batch[j]
  }

  /** The key's row, deadline and tracker entry are as they were. */
  predicate Kept(w: World, v: World, k: Hash) {
    && RowAt(w, k) == RowAt(v, k)
    && (k in w.timeouts <==> k in v.timeouts)
    && (k in w.timeouts ==> w.timeouts[k] == v.timeouts[k])
    && (k in w.tracker <==> k in v.tracker)
  }

  predicate Mentions(m: Mpc, k: Hash) {
    !m.Resting? && (m.h == k || k in m.rest)
  }

  lemma StepFrame(c: Setup, w: World, m: Mpc, r: Reply, k: Hash)
    requires !m.Resting? && !Mentions(m, k)
    ensures var (v, n) := ManagerStep(c, w, m, r); Kept(w, v, k) && !Mentions(n, k) && w.out <= v.out
  {
  }

  lemma StepOut(c: Setup, w: World, m: Mpc, r: Reply)
    ensures w.out <= ManagerStep(c, w, m, r).0.out
  {
  }

  lemma {:induction false} OutGrows(c: Setup, w: World, m: Mpc, f: Answer)
    ensures w.out <= DriveManager(c, w, m, f).out
    decreases StepsLeft(m)
  {
    if !m.Resting? {
      StepsRunOut(c, w, m, f(m.h, MSiteOf(m)));
      var (v, n) := ManagerStep(c, w, m, f(m.h, MSiteOf(m)));
      StepOut(c, w, m, f(m.h, MSiteOf(m)));
      ManagerDriveStep(c, w, m, f);
      OutGrows(c, v, n, f);
    }
  }

  /** Keys outside the batch are left alone. */
  lemma {:induction false} Untouched(c: Setup, w: World, m: Mpc, f: Answer, k: Hash)
    requires !Mentions(m, k)
    ensures Kept(w, DriveManager(c, w, m, f), k)
    decreases StepsLeft(m)
  {
    if !m.Resting? {
      StepsRunOut(c, w, m, f(m.h, MSiteOf(m)));
      var (v, n) := ManagerStep(c, w, m, f(m.h, MSiteOf(m)));
      StepFrame(c, w, m, f(m.h, MSiteOf(m)), k);
      ManagerDriveStep(c, w, m, f);
      Untouched(c, v, n, f, k);
    }
  }

  /** A key scheduled at one clock is due at another once its ttl has passed, and at most a second before. */
  lemma DueInTime(c: Setup, scheduled: int, now: int)
    ensures now >= scheduled + c.join.ttl ==> Deadline(c, scheduled) <= UnixSeconds(now)
    ensures Deadline(c, scheduled) <= UnixSeconds(now) ==> now > scheduled + c.join.ttl - 1_000_000_000
  {
  }

  // ---------- one member ----------

  function PartialFor(c: Setup, w: World, k: Hash): Sent
    requires k in w.rows && c.Doc(w.rows[k].cells).Some?
  {
    Sent(Partial, k, c.Doc(w.rows[k].cells).value, "", k, w.rows[k].cells)
  }

  /** Between `w` and `v` the row's projection was produced and the produce acknowledged. */
  predicate PartialAccepted(c: Setup, w: World, v: World, k: Hash, f: Answer)
    requires k in w.rows
  {
    && c.Doc(w.rows[k].cells).Some? && f(k, AtPartial).Fine()
    && |w.out| <= |v.out| && PartialFor(c, w, k) in v.out[|w.out|..]
  }

  /** What a pass over key `k` may have done. */
  ghost predicate FairPass(c: Setup, w: World, v: World, k: Hash, f: Answer) {
    && w.out <= v.out
    && (c.Partials() && c.producer && k in w.rows && k !in v.rows ==> PartialAccepted(c, w, v, k, f))
    && (c.Partials() && c.producer && f(k, AtGet).Fine() && !f(k, AtPartial).Fine() ==>
          k in w.rows && |w.rows[k].cells| < c.N() ==> Kept(w, v, k))
  }

  lemma InLater(out: seq<Sent>, m: Sent, more: seq<Sent>)
    requires out + [m] <= more
    ensures m in more[|out|..]
  {
    assert more[|out|..][0] == m;
  }

  lemma PartialThenRest(c: Setup, w: World, k: Hash, rest: seq<Hash>, text: string, f: Answer)
    requires c.producer && k in w.rows && c.Doc(w.rows[k].cells) == Some(text) && f(k, AtPartial).Fine()
    ensures var v := DriveManager(c, w, PublishPartial(k, rest, w.rows[k].cells, text), f);
      w.out <= v.out && PartialFor(c, w, k) in v.out[|w.out|..]
  {
    var m := PublishPartial(k, rest, w.rows[k].cells, text);
    ManagerDriveStep(c, w, m, f);
    var v := Produce(w, PartialFor(c, w, k));
    OutGrows(c, v, Tracked(c, k, rest), f);
    InLater(w.out, PartialFor(c, w, k), DriveManager(c, v, Tracked(c, k, rest), f).out);
  }

  lemma PartialRefused(c: Setup, w: World, k: Hash, rest: seq<Hash>, text: string, f: Answer)
    requires c.producer && k in w.rows && !f(k, AtPartial).Fine() && k !in rest
    ensures Kept(w, DriveManager(c, w, PublishPartial(k, rest, w.rows[k].cells, text), f), k)
  {
    var m := PublishPartial(k, rest, w.rows[k].cells, text);
    ManagerDriveStep(c, w, m, f);
    var v := ManagerStep(c, w, m, f(k, AtPartial)).0;
    Untouched(c, v, NextMember(rest), f, k);
  }

  lemma UnscheduleKeepsRow(c: Setup, w: World, k: Hash, rest: seq<Hash>, f: Answer)
    requires k !in rest
    ensures RowAt(DriveManager(c, w, Unschedule(k, rest), f), k) == RowAt(w, k)
  {
    ManagerDriveStep(c, w, Unschedule(k, rest), f);
    var v := ManagerStep(c, w, Unschedule(k, rest), f(k, AtUnschedule)).0;
    Untouched(c, v, NextMember(rest), f, k);
  }

  lemma MemberPass(c: Setup, w: World, k: Hash, rest: seq<Hash>, f: Answer)
    requires k !in rest
    ensures FairPass(c, w, DriveManager(c, w, Get(k, rest), f), k, f)
  {
    var v := DriveManager(c, w, Get(k, rest), f);
    OutGrows(c, w, Get(k, rest), f);
    ManagerDriveStep(c, w, Get(k, rest), f);
    if k in w.rows && c.Partials() && c.producer {
      if !f(k, AtGet).Fine() || |w.rows[k].cells| >= c.N() {
        UnscheduleKeepsRow(c, w, k, rest, f);
      } else if c.Doc(w.rows[k].cells).None? {
        Untouched(c, w, NextMember(rest), f, k);
      } else if f(k, AtPartial).Fine() {
        PartialThenRest(c, w, k, rest, c.Doc(w.rows[k].cells).value, f);
      } else {
        PartialRefused(c, w, k, rest, c.Doc(w.rows[k].cells).value, f);
      }
    }
  }

  // ---------- one batch ----------

  lemma OtherWorld(c: Setup, w: World, m: Mpc, r: Reply, k: Hash)
    requires !m.Resting? && m.h != k
    ensures var v := ManagerStep(c, w, m, r).0; Kept(w, v, k) && w.out <= v.out
  {
  }

  lemma OtherNext(c: Setup, w: World, m: Mpc, r: Reply)
    requires !m.Resting?
    ensures var n := ManagerStep(c, w, m, r).1;
      n == NextMember(m.rest) || (!n.Resting? && n.h == m.h && n.rest == m.rest)
  {
  }

  lemma NextDistinct(rest: seq<Hash>, k: Hash)
    requires k in rest && Distinct(rest)
    ensures var n := NextMember(rest);
      && !n.Resting? && Distinct(n.rest)
      && (if n.h == k then n == Get(k, n.rest) && k !in n.rest else k in n.rest)
  {
    assert rest == [rest[0]] + rest[1..];
  }

  lemma StepOther(c: Setup, w: World, m: Mpc, r: Reply, k: Hash)
    requires !m.Resting? && m.h != k && k in m.rest && Distinct(m.rest)
    ensures var (v, n) := ManagerStep(c, w, m, r);
      && Kept(w, v, k) && w.out <= v.out && !n.Resting? && Distinct(n.rest)
      && (if n.h == k then n == Get(k, n.rest) && k !in n.rest else k in n.rest)
  {
    OtherWorld(c, w, m, r, k);
    OtherNext(c, w, m, r);
    NextDistinct(m.rest, k);
  }

  /** The point at which the manager takes up `k`. */
  lemma {:induction false} TakenUp(c: Setup, w: World, m: Mpc, f: Answer, k: Hash) returns (v: World, rest: seq<Hash>)
    requires !m.Resting? && m.h != k && k in m.rest && Distinct(m.rest)
    ensures DriveManager(c, w, m, f) == DriveManager(c, v, Get(k, rest), f)
    ensures Kept(w, v, k) && w.out <= v.out && k !in rest
    decreases StepsLeft(m)
  {
    StepsRunOut(c, w, m, f(m.h, MSiteOf(m)));
    var (u, n) := ManagerStep(c, w, m, f(m.h, MSiteOf(m)));
    StepOther(c, w, m, f(m.h, MSiteOf(m)), k);
    ManagerDriveStep(c, w, m, f);
    if n.h == k {
      v, rest := u, n.rest;
    } else {
      v, rest := TakenUp(c, u, n, f, k);
    }
  }

  lemma PassLater(c: Setup, w: World, u: World, v: World, k: Hash, f: Answer)
    requires Kept(w, u, k) && w.out <= u.out && FairPass(c, u, v, k, f)
    ensures FairPass(c, w, v, k, f)
  {
    if c.Partials() && c.producer && k in w.rows && k !in v.rows {
      var m := PartialFor(c, w, k);
      var i :| 0 <= i < |v.out| - |u.out| && v.out[|u.out|..][i] == m;
      assert v.out[|w.out|..][i + |u.out| - |w.out|] == m;
    }
  }

  /**
   * One pass of processDue, with any replies. Keys outside the batch are left alone. Under partial policy a row in
   * it disappears only once its projection has been acknowledged in this very pass, and a key whose produce failed
   * keeps its row and its deadline.
   */
  lemma BatchContract(c: Setup, w: World, batch: seq<Hash>, f: Answer, k: Hash)
    requires Distinct(batch)
    ensures var v := DriveManager(c, w, NextMember(batch), f);
      FairPass(c, w, v, k, f) && (k !in batch ==> Kept(w, v, k))
  {
    var v := DriveManager(c, w, NextMember(batch), f);
    OutGrows(c, w, NextMember(batch), f);
    if k !in batch {
      Untouched(c, w, NextMember(batch), f, k);
    } else if batch[0] == k {
      MemberPass(c, w, k, batch[1..], f);
    } else {
      assert batch == [batch[0]] + batch[1..];
      var u, rest := TakenUp(c, w, Get(batch[0], batch[1..]), f, k);
      MemberPass(c, u, k, rest, f);
      PassLater(c, w, u, v, k, f);
    }
  }

  // ---------- a backlog ----------

  predicate RowsDecode(c: Setup, w: World) {
    forall h | h in w.rows :: Decodes(c.decode, w.rows[h].cells)
  }

  const ALL_FINE: Answer := ManagerReplies(Reply(Done, {}, 0))

  lemma FiredUnschedules(c: Setup, w: World, h: Hash)
    requires RowsDecode(c, w)
    ensures var v := Fired(c, w, h, ALL_FINE(h, AtPartial)); v.timeouts == w.timeouts - {h} && RowsDecode(c, v)
  {
  }

  lemma {:induction false} BatchUnschedules(c: Setup, w: World, batch: seq<Hash>)
    requires RowsDecode(c, w)
    ensures FiredAll(c, w, batch, ALL_FINE).timeouts == w.timeouts - set h | h in batch
    decreases |batch|
  {
    if batch != [] {
      FiredUnschedules(c, w, batch[0]);
      BatchUnschedules(c, Fired(c, w, batch[0], ALL_FINE(batch[0], AtPartial)), batch[1..]);
      assert (set h | h in batch) == {batch[0]} + set h | h in batch[1..];
    }
  }

  /** A poll: the world it found, the time it asked for, and the batch it was given. */
  datatype Poll = Poll(before: World, now: int, members: seq<Hash>)

  function After(c: Setup, p: Poll): World {
    DriveManager(c, p.before, NextMember(p.members), ALL_FINE)
  }

  function Backlog(w: World, t: int): set<Hash> {
    DueKeys(w.timeouts, t)
  }

  /** Polls at or after `t`; between them handlers may do anything that leaves no further key due by `t`. */
  predicate Polled(c: Setup, polls: seq<Poll>, t: int, limit: nat) {
    && (forall i | 0 <= i < |polls| ::
          && RowsDecode(c, polls[i].before) && polls[i].now >= t
          && IsBatch(polls[i].before.timeouts, polls[i].now, limit, polls[i].members))
    && (forall i | 0 < i < |polls| :: Backlog(polls[i].before, t) <= Backlog(After(c, polls[i - 1]), t))
  }

  lemma {:induction false} MembersCount(s: seq<Hash>)
    requires Distinct(s)
    ensures |set h | h in s| == |s|
  {
    if s != [] {
      var init := s[..|s| - 1];
      MembersCount(init);
      assert (set h | h in s) == (set h | h in init) + {s[|s| - 1]};
    }
  }

  /** A batch takes the oldest deadlines first: of the keys due by an earlier `t` it leaves one only if full of them. */
  lemma OldestFirst(timeouts: map<Hash, int>, now: int, t: int, limit: nat, members: seq<Hash>)
    requires IsBatch(timeouts, now, limit, members) && t <= now
    ensures var due, taken := DueKeys(timeouts, t), set h | h in members;
      |due - taken| == if |due| <= limit then 0 else |due| - limit
  {
    var due, taken := DueKeys(timeouts, t), set h | h in members;
    MembersCount(members);
    if due <= taken {
      assert due - taken == {};
      SubsetCount(due, taken);
    } else {
      var k :| k in due && k !in taken;
      assert k in DueKeys(timeouts, now);
      forall h | h in taken ensures h in due { assert h in members && timeouts[h] <= timeouts[k]; }
      if |members| < limit {
        assert taken <= DueKeys(timeouts, now) - {k};
        SubsetCount(taken, DueKeys(timeouts, now) - {k});
      }
      assert |due - taken| == |due| - |taken|;
      assert |due - taken| > 0 by { assert k in due - taken; }
    }
  }

  lemma PollShrinks(c: Setup, p: Poll, t: int, limit: nat)
    requires RowsDecode(c, p.before) && p.now >= t && IsBatch(p.before.timeouts, p.now, limit, p.members)
    ensures |Backlog(After(c, p), t)| == if |Backlog(p.before, t)| <= limit then 0 else |Backlog(p.before, t)| - limit
  {
    var taken := set h | h in p.members;
    BatchIsFired(c, p.before, p.members, ALL_FINE);
    BatchUnschedules(c, p.before, p.members);
    OldestFirst(p.before.timeouts, p.now, t, limit, p.members);
    assert Backlog(After(c, p), t) == Backlog(p.before, t) - taken;
  }

  lemma OneMore(n: nat, limit: nat)
    ensures (n + 1) * limit == n * limit + limit
  {
  }

  /** When nothing fails, a backlog of d keys is gone after ceil(d / limit) polls. */
  lemma {:induction false} BacklogDrains(c: Setup, polls: seq<Poll>, t: int, limit: nat)
    requires polls != [] && Polled(c, polls, t, limit)
    ensures var d, left := |Backlog(polls[0].before, t)|, |Backlog(After(c, polls[|polls| - 1]), t)|;
      left <= if d <= |polls| * limit then 0 else d - |polls| * limit
  {
    var last := |polls| - 1;
    PollShrinks(c, polls[last], t, limit);
    if last > 0 {
      BacklogDrains(c, polls[..last], t, limit);
      SubsetCount(Backlog(polls[last].before, t), Backlog(After(c, polls[last - 1]), t));
      OneMore(last, limit);
    } else {
      OneMore(0, limit);
    }
  }

  /** And not before: each poll takes at most `limit` of them. */
  lemma {:induction false} BacklogLasts(c: Setup, polls: seq<Poll>, t: int, limit: nat)
    requires polls != [] && Polled(c, polls, t, limit)
    requires forall i | 0 < i < |polls| :: Backlog(polls[i].before, t) == Backlog(After(c, polls[i - 1]), t)
    ensures |Backlog(After(c, polls[|polls| - 1]), t)| >= |Backlog(polls[0].before, t)| - |polls| * limit
  {
    var last := |polls| - 1;
    PollShrinks(c, polls[last], t, limit);
    if last > 0 { BacklogLasts(c, polls[..last], t, limit); }
    OneMore(last, limit);
  }

  // ---------- when a due key is taken ----------

  /** The other keys whose deadlines are no later than that of `k`. */
  function Rivals(timeouts: map<Hash, int>, k: Hash): set<Hash>
    requires k in timeouts
  {
    set h | h in timeouts && h != k && timeouts[h] <= timeouts[k]
  }

  lemma TakenWhenFew(timeouts: map<Hash, int>, now: int, limit: nat, members: seq<Hash>, k: Hash)
    requires IsBatch(timeouts, now, limit, members) && k in timeouts && timeouts[k] <= now
    requires |Rivals(timeouts, k)| < limit
    ensures k in members
  {
    MembersCount(members);
    var taken := set h | h in members;
    if k !in members {
      assert k in DueKeys(timeouts, now);
      forall h | h in taken ensures h in Rivals(timeouts, k) { assert h in members; }
      SubsetCount(taken, Rivals(timeouts, k));
      assert taken <= DueKeys(timeouts, now) - {k};
      SubsetCount(taken, DueKeys(timeouts, now) - {k});
    }
  }

  /** The `n` keys of least deadline in the pool. */
  lemma {:induction false} Oldest(timeouts: map<Hash, int>, pool: set<Hash>, n: nat) returns (oldest: seq<Hash>)
    requires pool <= timeouts.Keys && n <= |pool|
    ensures |oldest| == n && Distinct(oldest) && forall h | h in oldest :: h in pool
    ensures forall h, j | h in oldest && j in pool && j !in oldest :: timeouts[h] <= timeouts[j]
  {
    if n == 0 {
      oldest := [];
    } else {
      var older := Oldest(timeouts, pool, n - 1);
      MembersCount(older);
      var others := pool - set h | h in older;
      assert |others| == |pool| - (n - 1);
      FirstExists(timeouts, others);
      var x :| IsFirst(timeouts, others, x);
      forall j | j in others ensures timeouts[x] <= timeouts[j] { assert j == x || Before(timeouts, x, j); }
      oldest := older + [x];
    }
  }

  lemma NoneYounger(timeouts: map<Hash, int>, k: Hash, rivals: set<Hash>, members: seq<Hash>, h: Hash, pool: set<Hash>)
    requires k in timeouts && rivals == Rivals(timeouts, k) && |rivals| >= |members| && Distinct(members)
    requires rivals <= pool <= timeouts.Keys && h in members && forall i | i in members :: i in pool
    requires forall i, j | i in members && j in pool && j !in members :: timeouts[i] <= timeouts[j]
    ensures timeouts[h] <= timeouts[k]
  {
    MembersCount(members);
    if timeouts[h] > timeouts[k] {
      assert forall r | r in rivals :: r in members;
      SubsetCount(rivals, (set i | i in members) - {h});
    }
  }

  /** With as many rivals as a batch holds, some batch leaves `k` out. */
  lemma OmittingBatch(timeouts: map<Hash, int>, now: int, limit: nat, k: Hash) returns (members: seq<Hash>)
    requires k in timeouts && timeouts[k] <= now && |Rivals(timeouts, k)| >= limit
    ensures IsBatch(timeouts, now, limit, members) && k !in members
  {
    var due, rivals := DueKeys(timeouts, now), Rivals(timeouts, k);
    var pool := due - {k};
    assert rivals <= pool;
    SubsetCount(rivals, pool);
    assert |due| == |pool| + 1;
    members := Oldest(timeouts, pool, limit);
    MembersCount(members);
    forall h | h in members ensures timeouts[h] <= timeouts[k] {
      NoneYounger(timeouts, k, rivals, members, h, pool);
    }
  }

  ghost predicate AlwaysTaken(timeouts: map<Hash, int>, now: int, limit: nat, k: Hash) {
    forall members | IsBatch(timeouts, now, limit, members) :: k in members
  }

  /** A due key is in every batch if and only if fewer others than a batch holds have deadlines no later than its. */
  lemma TakenIff(timeouts: map<Hash, int>, now: int, limit: nat, k: Hash)
    requires k in timeouts && timeouts[k] <= now
    ensures AlwaysTaken(timeouts, now, limit, k) <==> |Rivals(timeouts, k)| < limit
  {
    if |Rivals(timeouts, k)| < limit {
      forall members | IsBatch(timeouts, now, limit, members) ensures k in members {
        TakenWhenFew(timeouts, now, limit, members, k);
      }
    } else {
      var members := OmittingBatch(timeouts, now, limit, k);
    }
  }

  // ---------- a stuck head ----------

  /** The replies of every poll. */
  type PollAnswers = (nat, Hash, MSite) -> Reply

  function Nth(f: PollAnswers, i: nat): Answer {
    (h: Hash, s: MSite) => f(i, h, s)
  }

  predicate Incomplete(c: Setup, w: World, h: Hash) {
    h in w.timeouts && h in w.rows && |w.rows[h].cells| < c.N()
  }

  /** Incomplete keys, as many as a batch holds, whose deadlines are no later than that of `k`. */
  predicate Level(c: Setup, w: World, head: set<Hash>, k: Hash, limit: nat) {
    && |head| >= limit && k in w.timeouts && k !in head
    && forall h | h in head :: Incomplete(c, w, h) && w.timeouts[h] <= w.timeouts[k]
  }

  /** And whose deadlines all precede it. */
  predicate Ahead(c: Setup, w: World, head: set<Hash>, k: Hash, limit: nat) {
    Level(c, w, head, k, limit) && forall h | h in head :: w.timeouts[h] < w.timeouts[k]
  }

  lemma NotTaken(c: Setup, w: World, head: set<Hash>, k: Hash, now: int, limit: nat, members: seq<Hash>)
    requires Ahead(c, w, head, k, limit) && IsBatch(w.timeouts, now, limit, members)
    ensures k !in members
  {
    MembersCount(members);
    var taken := set h | h in members;
    if k in members {
      forall h | h in head ensures h in taken {
        assert h in DueKeys(w.timeouts, now);
      }
      SubsetCount(head + {k}, taken);
    }
  }

  function Polling(c: Setup, w: World, batches: seq<seq<Hash>>, f: PollAnswers): World {
    if batches == [] then w else
    var n := |batches| - 1;
    DriveManager(c, Polling(c, w, batches[..n], f), NextMember(batches[n]), Nth(f, n))
  }

  /** The timeout set offers the batch at some time from `since` on. */
  ghost predicate Offers(timeouts: map<Hash, int>, limit: nat, since: int, batch: seq<Hash>) {
    exists now :: now >= since && IsBatch(timeouts, now, limit, batch)
  }

  /** Each batch is what the timeout set offers, given the polls before it. */
  ghost predicate Offered(c: Setup, w: World, batches: seq<seq<Hash>>, limit: nat, f: PollAnswers, since: int) {
    batches == [] ||
    var n := |batches| - 1;
    Offered(c, w, batches[..n], limit, f, since)
    && Offers(Polling(c, w, batches[..n], f).timeouts, limit, since, batches[n])
  }

  /** In every poll the rows of these keys are read and their partials refused. */
  ghost predicate Refusing(head: set<Hash>, f: PollAnswers) {
    forall i, h | h in head :: f(i, h, AtGet).Fine() && !f(i, h, AtPartial).Fine()
  }

  /** A poll whose batch leaves `k` out. */
  lemma HeadStays(c: Setup, w: World, head: set<Hash>, k: Hash, limit: nat, batch: seq<Hash>, f: PollAnswers, i: nat)
    requires c.Partials() && c.producer && Level(c, w, head, k, limit) && Distinct(batch) && k !in batch
    requires Refusing(head, f)
    ensures var v := DriveManager(c, w, NextMember(batch), Nth(f, i));
      Kept(w, v, k) && Level(c, v, head, k, limit) && (Ahead(c, w, head, k, limit) ==> Ahead(c, v, head, k, limit))
  {
    var v := DriveManager(c, w, NextMember(batch), Nth(f, i));
    BatchContract(c, w, batch, Nth(f, i), k);
    forall h | h in head ensures Kept(w, v, h) {
      BatchContract(c, w, batch, Nth(f, i), h);
    }
  }

  lemma OneMorePoll(c: Setup, w: World, u: World, head: set<Hash>, k: Hash, limit: nat, batch: seq<Hash>,
      f: PollAnswers, i: nat)
    requires c.Partials() && c.producer && Level(c, u, head, k, limit) && Distinct(batch) && k !in batch
    requires Refusing(head, f) && Kept(w, u, k)
    ensures var v := DriveManager(c, u, NextMember(batch), Nth(f, i));
      Kept(w, v, k) && Level(c, v, head, k, limit) && (Ahead(c, u, head, k, limit) ==> Ahead(c, v, head, k, limit))
  {
    HeadStays(c, u, head, k, limit, batch, f, i);
  }

  /**
   * While the partials of as many older keys as a batch holds keep being refused, a key behind them is never looked
   * at: its row and deadline stay as they are through any number of polls.
   */
  lemma {:induction false} FailingHeadStarves(c: Setup, w: World, head: set<Hash>, k: Hash, limit: nat,
      batches: seq<seq<Hash>>, f: PollAnswers, since: int)
    requires c.Partials() && c.producer && Ahead(c, w, head, k, limit) && Offered(c, w, batches, limit, f, since)
    requires Refusing(head, f)
    ensures Kept(w, Polling(c, w, batches, f), k) && Ahead(c, Polling(c, w, batches, f), head, k, limit)
  {
    if batches != [] {
      var n := |batches| - 1;
      FailingHeadStarves(c, w, head, k, limit, batches[..n], f, since);
      var u := Polling(c, w, batches[..n], f);
      var now :| now >= since && IsBatch(u.timeouts, now, limit, batches[n]);
      NotTaken(c, u, head, k, now, limit, batches[n]);
      OneMorePoll(c, w, u, head, k, limit, batches[n], f, n);
    }
  }

  /** No batch has taken `k`. */
  predicate LeavesOut(batches: seq<seq<Hash>>, k: Hash) {
    forall i | 0 <= i < |batches| :: k !in batches[i]
  }

  /** Some `n` polls from the deadline of `k` on leave it out. */
  ghost predicate LeftOutFor(c: Setup, w: World, k: Hash, limit: nat, f: PollAnswers, n: nat)
    requires k in w.timeouts
  {
    exists batches: seq<seq<Hash>> ::
      |batches| == n && Offered(c, w, batches, limit, f, w.timeouts[k]) && LeavesOut(batches, k)
  }

  /** For as long as one likes. */
  ghost predicate CanStarve(c: Setup, w: World, k: Hash, limit: nat, f: PollAnswers)
    requires k in w.timeouts
  {
    forall n: nat :: LeftOutFor(c, w, k, limit, f, n)
  }

  lemma OfferedSnoc(c: Setup, w: World, init: seq<seq<Hash>>, batch: seq<Hash>, limit: nat, f: PollAnswers, now: int)
    requires Offered(c, w, init, limit, f, now) && IsBatch(Polling(c, w, init, f).timeouts, now, limit, batch)
    ensures Offered(c, w, init + [batch], limit, f, now)
    ensures Polling(c, w, init + [batch], f) ==
      DriveManager(c, Polling(c, w, init, f), NextMember(batch), Nth(f, |init|))
  {
    assert (init + [batch])[..|init|] == init;
    assert Offers(Polling(c, w, init, f).timeouts, limit, now, batch);
  }

  lemma {:induction false} LevelHeadStarves(c: Setup, w: World, head: set<Hash>, k: Hash, limit: nat,
      f: PollAnswers, n: nat)
    returns (batches: seq<seq<Hash>>)
    requires c.Partials() && c.producer && Level(c, w, head, k, limit) && Refusing(head, f)
    ensures |batches| == n && Offered(c, w, batches, limit, f, w.timeouts[k]) && LeavesOut(batches, k)
    ensures Kept(w, Polling(c, w, batches, f), k) && Level(c, Polling(c, w, batches, f), head, k, limit)
  {
    if n == 0 {
      batches := [];
    } else {
      var init := LevelHeadStarves(c, w, head, k, limit, f, n - 1);
      var u := Polling(c, w, init, f);
      SubsetCount(head, Rivals(u.timeouts, k));
      var batch := OmittingBatch(u.timeouts, w.timeouts[k], limit, k);
      OneMorePoll(c, w, u, head, k, limit, batch, f, n - 1);
      OfferedSnoc(c, w, init, batch, limit, f, w.timeouts[k]);
      batches := init + [batch];
    }
  }

  lemma FirstPollTakes(c: Setup, w: World, k: Hash, limit: nat, f: PollAnswers, batches: seq<seq<Hash>>)
    requires k in w.timeouts && |Rivals(w.timeouts, k)| < limit
    requires |batches| == 1 && Offered(c, w, batches, limit, f, w.timeouts[k])
    ensures k in batches[0]
  {
    assert batches[..0] == [] && Offers(w.timeouts, limit, w.timeouts[k], batches[0]);
    var now :| now >= w.timeouts[k] && IsBatch(w.timeouts, now, limit, batches[0]);
    TakenWhenFew(w.timeouts, now, limit, batches[0], k);
  }

  /**
   * When the partials of all keys with deadlines no later than that of `k` are refused, `k` can be left out forever if
   * and only if they are as many as a batch holds; otherwise the first poll from its deadline on takes it.
   */
  lemma StarvesIff(c: Setup, w: World, k: Hash, limit: nat, f: PollAnswers)
    requires c.Partials() && c.producer && k in w.timeouts && Refusing(Rivals(w.timeouts, k), f)
    requires forall h | h in Rivals(w.timeouts, k) :: Incomplete(c, w, h)
    ensures CanStarve(c, w, k, limit, f) <==> |Rivals(w.timeouts, k)| >= limit
  {
    if |Rivals(w.timeouts, k)| >= limit {
      forall n: nat ensures LeftOutFor(c, w, k, limit, f, n) {
        var batches := LevelHeadStarves(c, w, Rivals(w.timeouts, k), k, limit, f, n);
      }
    } else if CanStarve(c, w, k, limit, f) {
      assert LeftOutFor(c, w, k, limit, f, 1);
      var batches: seq<seq<Hash>> :|
        |batches| == 1 && Offered(c, w, batches, limit, f, w.timeouts[k]) && LeavesOut(batches, k);
      FirstPollTakes(c, w, k, limit, f, batches);
    }
  }
}
