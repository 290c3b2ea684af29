/**
 * The durable settle-delay queue (internal/delay/queue.go): a ZSET whose members carry the joins and whose scores are
 * their rounded publish times. An item goes after one attempt, accepted or not, unless its removal fails.
 */
module DurableQueue {
  import opened Base
  import opened Protocol
  import opened RowStore
  import opened Collaborators
  import opened DelayCodec
  import opened DelayScore
  import opened DelayQueue

  const DEFAULT_BATCH_SIZE := 100

  type Zset = map<string, nat>

  /** What ZRANGEBYSCORE -inf now LIMIT 0 100 may answer: due members of lowest score, each once. */
  predicate IsRange(zset: Zset, now: nat, members: seq<string>) {
    var due := set m | m in zset && zset[m] <= Float64(now);
    && (forall i, j | 0 <= i < j < |members| :: members[i] != members[j])
    && (forall m | m in members :: m in due)
    && |members| == (if |due| < DEFAULT_BATCH_SIZE then |due| else DEFAULT_BATCH_SIZE)
    && (forall m, n | m in members && n in due && n !in members :: zset[m] <= zset[n])
  }

  function Join(v: DelayedJoin): Value {
    Value(Some(v.hash), Some(v.joined), Some(v.key), 0)
  }

  /** One round of the flush: a member that does not parse is only dropped, the others are attempted first. */
  function Round(s: Effects, member: string, producing: bool, storing: bool, produce: Reply, delete: Reply): Effects {
    match Parse(member)
    case None => s
    case Some(d) => Attempt(s, Join(d), producing, storing, produce, delete)
  }

  /** The replies to produce, row deletion and removal of each member. */
  type RedisReplier = nat -> (Reply, Reply, Reply)

  function Rounds(s: Effects, members: seq<string>, producing: bool, storing: bool, f: RedisReplier): Effects {
    if members == [] then s else
    var i := |members| - 1;
    Round(Rounds(s, members[..i], producing, storing, f), members[i], producing, storing, f(i).0, f(i).1)
  }

  function Members(ds: seq<DelayedJoin>): seq<string> {
    seq(|ds|, i requires 0 <= i < |ds| => Member(ds[i]))
  }

  function Joins(ds: seq<DelayedJoin>): seq<Value> {
    seq(|ds|, i requires 0 <= i < |ds| => Join(ds[i]))
  }

  function Pairs(f: RedisReplier): Replier {
    (i: nat) => (f(i).0, f(i).1)
  }

  /** The rounds for members of scheduled joins attempt just these joins. */
  lemma {:induction false} RoundsAreAttempts(s: Effects, ds: seq<DelayedJoin>, producing: bool, storing: bool,
      f: RedisReplier)
    ensures Rounds(s, Members(ds), producing, storing, f) == AttemptAll(s, Joins(ds), producing, storing, Pairs(f))
  {
    if ds != [] {
      var n := |ds| - 1;
      RoundsAreAttempts(s, ds[..n], producing, storing, f);
      assert Members(ds)[..n] == Members(ds[..n]) && Joins(ds)[..n] == Joins(ds[..n]);
      ParseMember(ds[n]);
    }
  }

  lemma JoinHashes(ds: seq<DelayedJoin>)
    ensures (set v | v in Joins(ds) :: if v.hash.Some? then v.hash.value else []) == set d | d in ds :: d.hash
  {
    forall d | d in ds ensures Join(d) in Joins(ds) {
      var i :| 0 <= i < |ds| && ds[i] == d;
      assert Joins(ds)[i] == Join(d);
    }
    forall v | v in Joins(ds) ensures exists d :: d in ds && v == Join(d) {
      var i :| 0 <= i < |ds| && Joins(ds)[i] == v;
      assert ds[i] in ds && v == Join(ds[i]);
    }
  }

  lemma JoinMessages(ds: seq<DelayedJoin>)
    ensures var vs := Joins(ds);
      seq(|vs|, i requires 0 <= i < |vs| =>
        Message(if vs[i].key.Some? then vs[i].key.value else [], if vs[i].joined.Some? then vs[i].joined.value else []))
      == seq(|ds|, i requires 0 <= i < |ds| => Message(ds[i].key, ds[i].joined))
  {
  }

  /** With every call succeeding each join is published under its message key, and the row of its hash goes. */
  lemma AllPublished(s: Effects, ds: seq<DelayedJoin>, f: RedisReplier)
    requires forall i: nat :: f(i).0.Fine() && f(i).1.Took()
    ensures Rounds(s, Members(ds), true, true, f) ==
      Effects(s.log + seq(|ds|, i requires 0 <= i < |ds| => Message(ds[i].key, ds[i].joined)),
        s.rows - set d | d in ds :: d.hash)
  {
    RoundsAreAttempts(s, ds, true, true, f);
    AllSucceed(s, Joins(ds), Pairs(f));
    JoinHashes(ds);
    JoinMessages(ds);
  }

  function Names(members: seq<string>): set<string> {
    set m | m in members
  }

  /** The members whose ZREM takes effect. */
  function Removed(members: seq<string>, f: RedisReplier): set<string> {
    if members == [] then {} else
    var i := |members| - 1;
    Removed(members[..i], f) + if f(i).2.Took() then {members[i]} else {}
  }

  lemma OneMore(s: Effects, members: seq<string>, i: nat, producing: bool, storing: bool, f: RedisReplier)
    requires i < |members|
    ensures Rounds(s, members[..i + 1], producing, storing, f) ==
      Round(Rounds(s, members[..i], producing, storing, f), members[i], producing, storing, f(i).0, f(i).1)
    ensures Removed(members[..i + 1], f) == Removed(members[..i], f) + if f(i).2.Took() then {members[i]} else {}
  {
    assert members[..i + 1][..i] == members[..i];
  }

  /** With every removal taking effect, all members go. */
  lemma {:induction false} AllRemoved(members: seq<string>, f: RedisReplier)
    ensures Removed(members, f) <= Names(members)
    ensures (forall i | 0 <= i < |members| :: f(i).2.Took()) ==> Removed(members, f) == Names(members)
  {
    if members != [] {
      var i := |members| - 1;
      AllRemoved(members[..i], f);
      assert Names(members) == Names(members[..i]) + {members[i]};
    }
  }

  // ---------- the queue as an object ----------

  class RedisQueue {
    const store: Option<StateStore>
    const producer: Producer?<Message>
    var zset: Zset

    constructor (store: Option<StateStore>, producer: Producer?<Message>)
      ensures this.store == store && this.producer == producer && zset == map[]
    {
      this.store, this.producer, zset := store, producer, map[];
    }

    ghost function Topics(): set<Producer<Message>> {
      if producer != null then {producer} else {}
    }

    ghost function Stores(): set<Store> {
      if store.Some? then {store.value.store} else {}
    }

    ghost function Effected(): Effects
      reads Topics(), Stores()
    {
      Effects(if producer != null then producer.log else [], if store.Some? then store.value.Rows() else map[])
    }

    /** A failing ZADD is only logged. */
    method ScheduleRedis(d: DelayedJoin, publishAt: nat, r: Reply)
      modifies this
      ensures zset == if r.Took() then old(zset)[Member(d) := Float64(publishAt)] else old(zset)
    {
      var member := Member(d);
      var score := Float64(publishAt);
      if r.Took() {
        zset := zset[member := score];
      }
    }

    method PublishAndCleanup(d: DelayedJoin, produce: Reply, delete: Reply)
      modifies Topics(), Stores()
      ensures producer != null ==>
        producer.log == old(producer.log) + if produce.Took() then [Message(d.key, d.joined)] else []
      ensures store.Some? ==>
        store.value.Rows() == old(store.value.Rows()) - if (producer != null ==> produce.Fine()) && delete.Took()
          then {d.hash} else {}
      ensures Effected() == Attempt(old(Effected()), Join(d), producer != null, store.Some?, produce, delete)
    {
      if producer != null {
        var ok := producer.ProduceSync(Message(d.key, d.joined), produce);
        if !ok {
          return;
        }
      }
      if store.Some? {
        var _ := store.value.DeleteState(d.hash, delete);
      }
    }

    method FlushMember(member: string, produce: Reply, delete: Reply, remove: Reply)
      modifies this, Topics(), Stores()
      ensures zset == if remove.Took() then old(zset) - {member} else old(zset)
      ensures Effected() == Round(old(Effected()), member, producer != null, store.Some?, produce, delete)
      ensures forall d | member == Member(d) ::
        && (producer != null ==>
              producer.log == old(producer.log) + if produce.Took() then [Message(d.key, d.joined)] else [])
        && (store.Some? ==>
              store.value.Rows() == old(store.value.Rows()) - if (producer != null ==> produce.Fine()) && delete.Took()
                then {d.hash} else {})
    {
      forall d | member == Member(d) ensures Parse(member) == Some(d) { ParseMember(d); }
      var payload := Parse(member);
      if payload.Some? {
        PublishAndCleanup(payload.value, produce, delete);
      }
      if remove.Took() {
        zset := zset - {member};
      }
    }

    /**
     * flushDueRedis on the members the set answered with. Those of scheduled joins have these published and their rows
     * deleted, with every call succeeding.
     */
    method FlushMembers(members: seq<string>, f: RedisReplier)
      modifies this, Topics(), Stores()
      ensures producer != null && store.Some? && (forall i: nat :: f(i).0.Fine() && f(i).1.Took()) ==>
        forall ds: seq<DelayedJoin> | members == seq(|ds|, i requires 0 <= i < |ds| => Member(ds[i])) ::
          && producer.log == old(producer.log) + seq(|ds|, i requires 0 <= i < |ds| => Message(ds[i].key, ds[i].joined))
          && store.value.Rows() == old(store.value.Rows()) - set d | d in ds :: d.hash
      ensures zset == old(zset) - Removed(members, f)
      ensures Effected() == Rounds(old(Effected()), members, producer != null, store.Some?, f)
    {
      ghost var before := Effected();
      for i := 0 to |members|
        invariant zset == old(zset) - Removed(members[..i], f)
        invariant Effected() == Rounds(old(Effected()), members[..i], producer != null, store.Some?, f)
      {
        OneMore(old(Effected()), members, i, producer != null, store.Some?, f);
        FlushMember(members[i], f(i).0, f(i).1, f(i).2);
      }
      assert members[..|members|] == members;
      if producer != null && store.Some? && forall i: nat :: f(i).0.Fine() && f(i).1.Took() {
        forall ds: seq<DelayedJoin> | members == Members(ds)
          ensures Rounds(before, members, true, true, f) ==
            Effects(before.log + seq(|ds|, i requires 0 <= i < |ds| => Message(ds[i].key, ds[i].joined)),
              before.rows - set d | d in ds :: d.hash)
        {
          AllPublished(before, ds, f);
        }
      }
    }
  }

  // ---------- whole runs ----------

  datatype Act = Put(d: DelayedJoin, publishAt: nat) | Flush(now: nat, members: seq<string>, removed: set<string>)

  /** An attempt, the clock it was made at, and its place in the run. */
  datatype Tried = Tried(d: Option<DelayedJoin>, now: nat, step: nat)

  datatype Book = Book(zset: Zset, tries: seq<Tried>)

  function TriedAt(members: seq<string>, now: nat, step: nat): seq<Tried> {
    seq(|members|, i requires 0 <= i < |members| => Tried(Parse(members[i]), now, step))
  }

  function Step(b: Book, a: Act, step: nat): Book {
    match a
    case Put(d, publishAt) => b.(zset := b.zset[Member(d) := Float64(publishAt)])
    case Flush(now, members, removed) =>
      if !IsRange(b.zset, now, members) then b
      else Book.Book(b.zset - Names(members) * removed, b.tries + TriedAt(members, now, step))
  }

  function Run(acts: seq<Act>): Book {
    if acts == [] then Book.Book(map[], []) else Step(Run(acts[..|acts| - 1]), acts[|acts| - 1], |acts| - 1)
  }

  /** The time the join was last scheduled for. */
  function Latest(acts: seq<Act>, d: DelayedJoin): Option<nat> {
    if acts == [] then None else
    var a := acts[|acts| - 1];
    if a.Put? && a.d == d then Some(a.publishAt) else Latest(acts[..|acts| - 1], d)
  }

  /** Every member is that of a scheduled join, with the score of its latest schedule. */
  ghost predicate AllLatest(acts: seq<Act>, zset: Zset) {
    forall m | m in zset ::
      exists d :: m == Member(d) && Latest(acts, d).Some? && zset[m] == Float64(Latest(acts, d).value)
  }

  /** The join was scheduled before this attempt, and the time it was last scheduled for was due. */
  predicate Ripe(acts: seq<Act>, t: Tried) {
    && t.d.Some? && t.step < |acts|
    && Latest(acts[..t.step], t.d.value).Some?
    && IsDue(Latest(acts[..t.step], t.d.value).value, t.now)
  }

  lemma FlushRipe(acts: seq<Act>, a: Act, zset: Zset, t: Tried)
    requires a.Flush? && AllLatest(acts, zset) && IsRange(zset, a.now, a.members)
    requires t in TriedAt(a.members, a.now, |acts|)
    ensures Ripe(acts + [a], t)
  {
    var i :| 0 <= i < |a.members| && TriedAt(a.members, a.now, |acts|)[i] == t;
    var m := a.members[i];
    assert m in a.members;
    var d :| m == Member(d) && Latest(acts, d).Some? && zset[m] == Float64(Latest(acts, d).value);
    ParseMember(d);
    assert (acts + [a])[..|acts|] == acts;
  }

  lemma LatestSnoc(acts: seq<Act>, a: Act, d: DelayedJoin)
    ensures Latest(acts + [a], d) == if a.Put? && a.d == d then Some(a.publishAt) else Latest(acts, d)
  {
    assert (acts + [a])[..|acts|] == acts;
  }

  lemma StepLatest(acts: seq<Act>, b: Book, a: Act)
    requires AllLatest(acts, b.zset)
    ensures AllLatest(acts + [a], Step(b, a, |acts|).zset)
  {
    var zset := Step(b, a, |acts|).zset;
    forall m | m in zset
      ensures exists d ::
        m == Member(d) && Latest(acts + [a], d).Some? && zset[m] == Float64(Latest(acts + [a], d).value)
    {
      if a.Put? && m == Member(a.d) {
        LatestSnoc(acts, a, a.d);
      } else {
        var d :| m == Member(d) && Latest(acts, d).Some? && b.zset[m] == Float64(Latest(acts, d).value);
        LatestSnoc(acts, a, d);
      }
    }
  }

  lemma RipeStays(acts: seq<Act>, a: Act, t: Tried)
    requires Ripe(acts, t)
    ensures Ripe(acts + [a], t)
  {
    assert (acts + [a])[..t.step] == acts[..t.step];
  }

  lemma {:induction false} AllRipe(acts: seq<Act>)
    ensures AllLatest(acts, Run(acts).zset) && forall t | t in Run(acts).tries :: Ripe(acts, t)
  {
    if acts != [] {
      var init, a := acts[..|acts| - 1], acts[|acts| - 1];
      assert init + [a] == acts;
      AllRipe(init);
      StepLatest(init, Run(init), a);
      forall t | t in Run(acts).tries ensures Ripe(acts, t) {
        if t in Run(init).tries { RipeStays(init, a, t); } else { FlushRipe(init, a, Run(init).zset, t); }
      }
    }
  }

  lemma {:induction false} LatestIn(acts: seq<Act>, d: DelayedJoin)
    requires Latest(acts, d).Some?
    ensures Act.Put(d, Latest(acts, d).value) in acts
  {
    if !(acts[|acts| - 1].Put? && acts[|acts| - 1].d == d) { LatestIn(acts[..|acts| - 1], d); }
  }

  /**
   * Over any run, what is attempted had been scheduled, byte for byte, and is attempted no earlier than 256 ns before
   * the time it was last scheduled for (for times from 2006 to 2043).
   */
  lemma AttemptsAreScheduled(acts: seq<Act>, t: Tried)
    requires t in Run(acts).tries
    requires forall a | a in acts && a.Put? :: T60 <= a.publishAt < T61
    ensures t.d.Some? && t.step < |acts| && Latest(acts[..t.step], t.d.value).Some?
    ensures Latest(acts[..t.step], t.d.value).value <= t.now + 256
  {
    AllRipe(acts);
    var publishAt := Latest(acts[..t.step], t.d.value).value;
    LatestIn(acts[..t.step], t.d.value);
    EarlyByAtMost256(publishAt, t.now);
  }

  /** The join is attempted at step `i` of the run or later. */
  predicate TriedSince(tries: seq<Tried>, d: DelayedJoin, i: nat) {
    exists t :: t in tries && t.d == Some(d) && t.step >= i
  }

  /** The join is in the set, or is attempted at step `i` or later. */
  predicate Remembered(b: Book, d: DelayedJoin, i: nat) {
    Member(d) in b.zset || TriedSince(b.tries, d, i)
  }

  lemma PutRemembers(b: Book, a: Act, step: nat)
    requires a.Put?
    ensures Remembered(Step(b, a, step), a.d, step)
  {
  }

  lemma KeepsTrack(b: Book, a: Act, step: nat, d: DelayedJoin, i: nat)
    requires Remembered(b, d, i) && i <= step
    ensures Remembered(Step(b, a, step), d, i)
  {
    var n := Step(b, a, step);
    if TriedSince(b.tries, d, i) {
      var t :| t in b.tries && t.d == Some(d) && t.step >= i;
      assert t in n.tries;
    } else if a.Flush? && IsRange(b.zset, a.now, a.members) && Member(d) in a.members {
      var j :| 0 <= j < |a.members| && a.members[j] == Member(d);
      ParseMember(d);
      assert TriedAt(a.members, a.now, step)[j] == Tried(Some(d), a.now, step);
      assert Tried(Some(d), a.now, step) in n.tries;
    }
  }

  /** After each schedule, the join is in the set until it has been attempted again: none is forgotten. */
  lemma {:induction false} NoneForgotten(acts: seq<Act>, i: nat)
    requires i < |acts| && acts[i].Put?
    ensures Remembered(Run(acts), acts[i].d, i)
  {
    var n := |acts| - 1;
    if i < n {
      NoneForgotten(acts[..n], i);
      KeepsTrack(Run(acts[..n]), acts[n], n, acts[i].d, i);
    } else {
      PutRemembers(Run(acts[..n]), acts[n], n);
    }
  }

  lemma {:induction false} NamesCount(s: seq<string>)
    requires forall i, j | 0 <= i < j < |s| :: s[i] != s[j]
    ensures |Names(s)| == |s|
  {
    if s != [] {
      var init := s[..|s| - 1];
      NamesCount(init);
      assert Names(s) == Names(init) + {s[|s| - 1]};
    }
  }

  /** With no more than a batch of them due, everything whose time has come is in the batch. */
  lemma DueItemsTaken(zset: Zset, now: nat, members: seq<string>, d: DelayedJoin, publishAt: nat)
    requires IsRange(zset, now, members) && |members| < 100
    requires Member(d) in zset && zset[Member(d)] == Float64(publishAt) && publishAt <= now
    ensures Member(d) in members
  {
    DueWhenReached(publishAt, now);
    var due := set m | m in zset && zset[m] <= Float64(now);
    var taken := Names(members);
    NamesCount(members);
    assert taken <= due;
    assert |due - taken| == |due| - |taken| == 0;
    assert Member(d) in due;
    assert Member(d) !in due - taken;
  }
}
