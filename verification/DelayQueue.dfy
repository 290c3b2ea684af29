/**
 * The in-memory settle-delay queue (internal/delay/queue.go). Items own copies of the caller's buffers; a flush splits
 * the pending slice into what is due and what is kept, and attempts each due item once, accepted or not.
 */
module DelayQueue {
  import opened Base
  import opened Protocol
  import opened RowStore
  import opened Collaborators

  // ---------- the queue as a value ----------

  /** A pending join; a nil slice is told apart from an empty one. */
  datatype Value = Value(hash: Option<Bytes>, joined: Option<Bytes>, key: Option<Bytes>, publishAt: int)

  function DueOf(vs: seq<Value>, now: int): seq<Value> {
    if vs == [] then [] else
    DueOf(vs[..|vs| - 1], now) + if vs[|vs| - 1].publishAt <= now then [vs[|vs| - 1]] else []
  }

  function KeptOf(vs: seq<Value>, now: int): seq<Value> {
    if vs == [] then [] else
    KeptOf(vs[..|vs| - 1], now) + if vs[|vs| - 1].publishAt <= now then [] else [vs[|vs| - 1]]
  }

  datatype Message = Message(key: Bytes, value: Bytes)

  /** A byte slice as its reader sees it: nil reads as empty. */
  function Slice(b: Option<Bytes>): Bytes {
    if b.Some? then b.value else []
  }

  /** What publishing the items one after the other does to the topic and the rows. */
  datatype Effects = Effects(log: seq<Message>, rows: map<Hash, Row>)

  function Attempt(s: Effects, v: Value, producing: bool, storing: bool, produce: Reply, delete: Reply): Effects {
    var log := if producing && produce.Took() then s.log + [Message(Slice(v.key), Slice(v.joined))] else s.log;
    var cleanup := (!producing || produce.Fine()) && storing && delete.Took();
    Effects(log, if cleanup then s.rows - {Slice(v.hash)} else s.rows)
  }

  type Replier = nat -> (Reply, Reply)

  function AttemptAll(s: Effects, vs: seq<Value>, producing: bool, storing: bool, f: Replier): Effects {
    if vs == [] then s else
    var i := |vs| - 1;
    Attempt(AttemptAll(s, vs[..i], producing, storing, f), vs[i], producing, storing, f(i).0, f(i).1)
  }

  /** The topic and the rows after one attempt, whatever the replies: the document goes out under the message key. */
  lemma AttemptIs(s: Effects, v: Value, producing: bool, storing: bool, produce: Reply, delete: Reply)
    ensures var n := Attempt(s, v, producing, storing, produce, delete);
      && n.log == s.log +
           (if producing && produce.Took()
            then [Message(if v.key.Some? then v.key.value else [], if v.joined.Some? then v.joined.value else [])]
            else [])
      && n.rows == s.rows - (if storing && (producing ==> produce.Fine()) && delete.Took()
           then {if v.hash.Some? then v.hash.value else []} else {})
  {
  }

  /** The rows that `n` attempts delete. */
  function Cleared(vs: seq<Value>, producing: bool, storing: bool, f: Replier): set<Hash> {
    set i | 0 <= i < |vs| && storing && (producing ==> f(i).0.Fine()) && f(i).1.Took() :: Slice(vs[i].hash)
  }

  lemma {:induction false} AttemptsClear(s: Effects, vs: seq<Value>, producing: bool, storing: bool, f: Replier)
    ensures AttemptAll(s, vs, producing, storing, f).rows == s.rows - Cleared(vs, producing, storing, f)
  {
    if vs != [] {
      var n := |vs| - 1;
      AttemptsClear(s, vs[..n], producing, storing, f);
      AttemptIs(AttemptAll(s, vs[..n], producing, storing, f), vs[n], producing, storing, f(n).0, f(n).1);
      var last := if storing && (producing ==> f(n).0.Fine()) && f(n).1.Took() then {Slice(vs[n].hash)} else {};
      assert Cleared(vs, producing, storing, f) == Cleared(vs[..n], producing, storing, f) + last;
    }
  }

  lemma {:induction false} SentAt(s: Effects, vs: seq<Value>, producing: bool, storing: bool, f: Replier)
    returns (at: seq<nat>)
    ensures forall i, j | 0 <= i < j < |at| :: at[i] < at[j]
    ensures forall i: nat :: i in at <==> i < |vs| && producing && f(i).0.Took()
    ensures forall j | 0 <= j < |at| :: at[j] < |vs|
    ensures AttemptAll(s, vs, producing, storing, f).log ==
      s.log + seq(|at|, j requires 0 <= j < |at| && at[j] < |vs| =>
        Message(Slice(vs[at[j]].key), Slice(vs[at[j]].joined)))
  {
    at := [];
    if vs != [] {
      var n := |vs| - 1;
      at := SentAt(s, vs[..n], producing, storing, f);
      AttemptIs(AttemptAll(s, vs[..n], producing, storing, f), vs[n], producing, storing, f(n).0, f(n).1);
      forall j | 0 <= j < |at| ensures at[j] < n { assert at[j] in at; }
      if producing && f(n).0.Took() { at := at + [n]; }
    }
  }

  /**
   * After a whole flush, whatever the replies: the topic has one more message for each item, at the places `at`, whose
   * produce had effect, its document under its message key, in order. A row is gone exactly if it is that of an item
   * whose produce was not in error, where there is a store, and its deletion had effect.
   */
  lemma {:induction false} AttemptsAre(s: Effects, vs: seq<Value>, producing: bool, storing: bool, f: Replier)
    returns (at: seq<nat>)
    ensures forall i, j | 0 <= i < j < |at| :: at[i] < at[j]
    ensures forall i: nat :: i in at <==> i < |vs| && producing && f(i).0.Took()
    ensures var n := AttemptAll(s, vs, producing, storing, f);
      && s.log <= n.log && |n.log| == |s.log| + |at|
      && (forall j | 0 <= j < |at| ::
            at[j] < |vs| &&
            var v := vs[at[j]];
            n.log[|s.log| + j] ==
              Message(if v.key.Some? then v.key.value else [], if v.joined.Some? then v.joined.value else []))
      && (forall h :: h in n.rows <==>
            h in s.rows && !exists i ::
              && 0 <= i < |vs| && storing && (producing ==> f(i).0.Fine()) && f(i).1.Took()
              && h == if vs[i].hash.Some? then vs[i].hash.value else [])
      && (forall h | h in n.rows :: n.rows[h] == s.rows[h])
  {
    AttemptsClear(s, vs, producing, storing, f);
    at := SentAt(s, vs, producing, storing, f);
  }

  /** With every call succeeding all documents go out in order, and all their rows go. */
  lemma {:induction false} AllSucceed(s: Effects, vs: seq<Value>, f: Replier)
    requires forall i: nat :: f(i).0.Fine() && f(i).1.Took()
    ensures var n := AttemptAll(s, vs, true, true, f);
      && n.log == s.log + seq(|vs|, i requires 0 <= i < |vs| =>
           Message(if vs[i].key.Some? then vs[i].key.value else [],
                   if vs[i].joined.Some? then vs[i].joined.value else []))
      && n.rows == s.rows - set v | v in vs :: if v.hash.Some? then v.hash.value else []
  {
    if vs != [] {
      var n := |vs| - 1;
      AllSucceed(s, vs[..n], f);
      AttemptIs(AttemptAll(s, vs[..n], true, true, f), vs[n], true, true, f(n).0, f(n).1);
      assert vs == vs[..n] + [vs[n]];
    }
  }

  // ---------- whole runs of the queue ----------

  datatype Act = Put(v: Value) | Flush(now: int)

  datatype Attempted = Attempted(v: Value, now: int)

  datatype Book = Book(pending: seq<Value>, attempts: seq<Attempted>)

  function At(vs: seq<Value>, now: int): (r: seq<Attempted>)
    ensures |r| == |vs|
  {
    seq(|vs|, i requires 0 <= i < |vs| => Attempted(vs[i], now))
  }

  function Step(b: Book, a: Act): Book {
    match a
    case Put(v) => b.(pending := b.pending + [v])
    case Flush(now) => Book(KeptOf(b.pending, now), b.attempts + At(DueOf(b.pending, now), now))
  }

  function Run(acts: seq<Act>): Book {
    if acts == [] then Book([], []) else Step(Run(acts[..|acts| - 1]), acts[|acts| - 1])
  }

  function Scheduled(acts: seq<Act>): seq<Value> {
    if acts == [] then [] else
    Scheduled(acts[..|acts| - 1]) + if acts[|acts| - 1].Put? then [acts[|acts| - 1].v] else []
  }

  function Tried(attempts: seq<Attempted>): (vs: seq<Value>)
    ensures |vs| == |attempts|
  {
    seq(|attempts|, i requires 0 <= i < |attempts| => attempts[i].v)
  }

  lemma {:induction false} SplitConserves(vs: seq<Value>, now: int)
    ensures multiset(DueOf(vs, now)) + multiset(KeptOf(vs, now)) == multiset(vs)
  {
    if vs != [] {
      SplitConserves(vs[..|vs| - 1], now);
      assert vs == vs[..|vs| - 1] + [vs[|vs| - 1]];
    }
  }

  lemma TriedAppend(attempts: seq<Attempted>, vs: seq<Value>, now: int)
    ensures Tried(attempts + At(vs, now)) == Tried(attempts) + vs
  {
  }

  /** Every scheduled join is pending or has been attempted, as often as it was scheduled: none is lost or repeated. */
  lemma {:induction false} QueueConserves(acts: seq<Act>)
    ensures multiset(Scheduled(acts)) == multiset(Run(acts).pending) + multiset(Tried(Run(acts).attempts))
  {
    if acts != [] {
      var b := Run(acts[..|acts| - 1]);
      QueueConserves(acts[..|acts| - 1]);
      match acts[|acts| - 1] {
        case Put(v) =>
        case Flush(now) =>
          SplitConserves(b.pending, now);
          TriedAppend(b.attempts, DueOf(b.pending, now), now);
      }
    }
  }

  lemma {:induction false} DueAreDue(vs: seq<Value>, now: int)
    ensures forall v | v in DueOf(vs, now) :: v.publishAt <= now
    ensures forall v | v in KeptOf(vs, now) :: v.publishAt > now
  {
    if vs != [] { DueAreDue(vs[..|vs| - 1], now); }
  }

  /** No attempt comes before its time, and right after a flush nothing overdue is left. */
  lemma {:induction false} NeverEarly(acts: seq<Act>)
    ensures forall a | a in Run(acts).attempts :: a.v.publishAt <= a.now
    ensures acts != [] && acts[|acts| - 1].Flush? ==>
      forall v | v in Run(acts).pending :: v.publishAt > acts[|acts| - 1].now
  {
    if acts != [] {
      NeverEarly(acts[..|acts| - 1]);
      var b := Run(acts[..|acts| - 1]);
      if acts[|acts| - 1].Flush? {
        var now := acts[|acts| - 1].now;
        DueAreDue(b.pending, now);
        forall a | a in At(DueOf(b.pending, now), now) ensures a.v.publishAt <= a.now {
          assert a.v in DueOf(b.pending, now);
        }
      }
    }
  }

  /** `a` is `b` with some elements left out. */
  predicate InOrder(a: seq<Value>, b: seq<Value>) {
    a == [] ||
    (b != [] && ((a[|a| - 1] == b[|b| - 1] && InOrder(a[..|a| - 1], b[..|b| - 1])) || InOrder(a, b[..|b| - 1])))
  }

  lemma {:induction false} InOrderTransitive(a: seq<Value>, b: seq<Value>, c: seq<Value>)
    requires InOrder(a, b) && InOrder(b, c)
    ensures InOrder(a, c)
    decreases |c|, |b|
  {
    if a != [] {
      var c0 := c[..|c| - 1];
      if b[|b| - 1] == c[|c| - 1] && InOrder(b[..|b| - 1], c0) {
        if a[|a| - 1] == b[|b| - 1] && InOrder(a[..|a| - 1], b[..|b| - 1]) {
          InOrderTransitive(a[..|a| - 1], b[..|b| - 1], c0);
        } else {
          InOrderTransitive(a, b[..|b| - 1], c0);
        }
      } else {
        InOrderTransitive(a, b, c0);
      }
    }
  }

  lemma InOrderSnoc(a: seq<Value>, b: seq<Value>, v: Value)
    requires InOrder(a, b)
    ensures InOrder(a + [v], b + [v]) && InOrder(a, b + [v])
  {
    assert (a + [v])[..|a|] == a && (b + [v])[..|b|] == b;
  }

  lemma {:induction false} SplitInOrder(vs: seq<Value>, now: int)
    ensures InOrder(DueOf(vs, now), vs) && InOrder(KeptOf(vs, now), vs)
  {
    if vs != [] {
      var init, v := vs[..|vs| - 1], vs[|vs| - 1];
      SplitInOrder(init, now);
      InOrderSnoc(DueOf(init, now), init, v);
      InOrderSnoc(KeptOf(init, now), init, v);
      assert init + [v] == vs;
      assert DueOf(init, now) + [] == DueOf(init, now) && KeptOf(init, now) + [] == KeptOf(init, now);
    }
  }

  /** What is pending, and what a flush attempts, is in schedule order. */
  lemma {:induction false} ScheduleOrderKept(acts: seq<Act>, now: int)
    ensures InOrder(Run(acts).pending, Scheduled(acts))
    ensures InOrder(DueOf(Run(acts).pending, now), Scheduled(acts))
  {
    if acts != [] {
      var b := Run(acts[..|acts| - 1]);
      ScheduleOrderKept(acts[..|acts| - 1], now);
      match acts[|acts| - 1] {
        case Put(v) =>
          InOrderSnoc(b.pending, Scheduled(acts[..|acts| - 1]), v);
        case Flush(t) =>
          assert Scheduled(acts) == Scheduled(acts[..|acts| - 1]);
          SplitInOrder(b.pending, t);
          InOrderTransitive(KeptOf(b.pending, t), b.pending, Scheduled(acts));
      }
    }
    SplitInOrder(Run(acts).pending, now);
    InOrderTransitive(DueOf(Run(acts).pending, now), Run(acts).pending, Scheduled(acts));
  }

  // ---------- the queue as an object ----------

  type Buffer = array?<byte>

  datatype Pending = Pending(joinKeyHash: Buffer, joinedBytes: Buffer, msgKey: Buffer, publishAt: int)

  ghost function Owned(p: Pending): set<Buffer> {
    {p.joinKeyHash, p.joinedBytes, p.msgKey} - {null}
  }

  function BytesOf(b: Buffer): Option<Bytes>
    reads b
  {
    if b == null then None else Some(b[..])
  }

  function ValueOf(p: Pending): Value
    reads p.joinKeyHash, p.joinedBytes, p.msgKey
  {
    Value(BytesOf(p.joinKeyHash), BytesOf(p.joinedBytes), BytesOf(p.msgKey), p.publishAt)
  }

  /** The items own buffers from `repr`, and these hold the values. */
  ghost predicate Holds(ps: seq<Pending>, vs: seq<Value>, repr: set<Buffer>)
    reads repr
  {
    && |ps| == |vs|
    && forall i | 0 <= i < |ps| :: Owned(ps[i]) <= repr && ValueOf(ps[i]) == vs[i]
  }

  method CopyBytes(b: Buffer) returns (out: Buffer)
    ensures out != null ==> fresh(out)
    ensures BytesOf(out) == old(BytesOf(b))
  {
    if b == null {
      return null;
    }
    out := new byte[b.Length](i requires 0 <= i < b.Length reads b => b[i]);
    assert out[..] == b[..];
  }

  method CopyItem(joinKeyHash: Buffer, joinedBytes: Buffer, msgKey: Buffer, publishAt: int) returns (item: Pending)
    ensures fresh(Owned(item))
    ensures ValueOf(item) == old(Value(BytesOf(joinKeyHash), BytesOf(joinedBytes), BytesOf(msgKey), publishAt))
  {
    var h := CopyBytes(joinKeyHash);
    var j := CopyBytes(joinedBytes);
    var k := CopyBytes(msgKey);
    item := Pending(h, j, k, publishAt);
  }

  class Queue {
    const store: Option<StateStore>
    const producer: Producer?<Message>
    var pending: seq<Pending>
    ghost var contents: seq<Value>
    ghost var repr: set<Buffer>

    ghost predicate Valid()
      reads this, repr
    {
      Holds(pending, contents, repr)
    }

    constructor (store: Option<StateStore>, producer: Producer?<Message>)
      ensures this.store == store && this.producer == producer
      ensures Valid() && contents == [] && repr == {}
    {
      this.store, this.producer, pending, contents, repr := store, producer, [], [], {};
    }

    ghost function Topics(): set<Producer<Message>> {
      if producer != null then {producer} else {}
    }

    ghost function Stores(): set<Store> {
      if store.Some? then {store.value.store} else {}
    }

    ghost function Effected(): Effects
      reads Topics(), Stores()
    {
      Effects(if producer != null then producer.log else [], if store.Some? then store.value.Rows() else map[])
    }

    /** Schedule keeps fresh copies: nothing the caller still holds is part of the queue. */
    method Schedule(joinKeyHash: Buffer, joinedBytes: Buffer, msgKey: Buffer, publishAt: int)
      requires Valid()
      modifies this
      ensures Valid() && fresh(repr - old(repr))
      ensures contents == old(contents +
        [Value(BytesOf(joinKeyHash), BytesOf(joinedBytes), BytesOf(msgKey), publishAt)])
    {
      var item := CopyItem(joinKeyHash, joinedBytes, msgKey, publishAt);
      pending, contents, repr := pending + [item], contents + [ValueOf(item)], repr + Owned(item);
    }

    /** publishAndCleanup: the row goes unless the produce reported an error. */
    method PublishAndCleanup(p: Pending, produce: Reply, delete: Reply)
      modifies Topics(), Stores()
      ensures producer != null ==>
        producer.log == old(producer.log) + if produce.Took()
          then [old(Message(if p.msgKey == null then [] else p.msgKey[..],
                            if p.joinedBytes == null then [] else p.joinedBytes[..]))] else []
      ensures store.Some? ==>
        store.value.Rows() == old(store.value.Rows()) - if (producer != null ==> produce.Fine()) && delete.Took()
          then {old(if p.joinKeyHash == null then [] else p.joinKeyHash[..])} else {}
      ensures Effected() == Attempt(old(Effected()), old(ValueOf(p)), producer != null, store.Some?, produce, delete)
    {
      var hash := if p.joinKeyHash == null then [] else p.joinKeyHash[..];
      var key := if p.msgKey == null then [] else p.msgKey[..];
      var value := if p.joinedBytes == null then [] else p.joinedBytes[..];
      if producer != null {
        var ok := producer.ProduceSync(Message(key, value), produce);
        if !ok {
          return;
        }
      }
      if store.Some? {
        var _ := store.value.DeleteState(hash, delete);
      }
    }

    method Split(now: int) returns (due: seq<Pending>, keep: seq<Pending>)
      requires Valid()
      ensures Holds(due, DueOf(contents, now), repr)
      ensures Holds(keep, KeptOf(contents, now), repr)
    {
      due, keep := [], [];
      for i := 0 to |pending|
        invariant Holds(due, DueOf(contents[..i], now), repr)
        invariant Holds(keep, KeptOf(contents[..i], now), repr)
      {
        assert contents[..i + 1][..i] == contents[..i];
        assert Owned(pending[i]) <= repr && ValueOf(pending[i]) == contents[i];
        if pending[i].publishAt <= now {
          due := due + [pending[i]];
        } else {
          keep := keep + [pending[i]];
        }
      }
      assert contents[..|pending|] == contents;
    }

    method PublishAll(due: seq<Pending>, ghost vs: seq<Value>, f: Replier)
      requires Holds(due, vs, repr)
      modifies Topics(), Stores()
      ensures Effected() == AttemptAll(old(Effected()), vs, producer != null, store.Some?, f)
    {
      for i := 0 to |due|
        invariant Effected() == AttemptAll(old(Effected()), vs[..i], producer != null, store.Some?, f)
        invariant Holds(due, vs, repr)
      {
        assert vs[..i + 1][..i] == vs[..i];
        PublishAndCleanup(due[i], f(i).0, f(i).1);
      }
      assert vs[..|due|] == vs;
    }

    /** The slice is split under the lock; what is due is published after the lock is released. */
    method TakeDue(now: int) returns (due: seq<Pending>)
      requires Valid()
      modifies this
      ensures Valid() && repr == old(repr)
      ensures contents == KeptOf(old(contents), now)
      ensures Holds(due, DueOf(old(contents), now), repr)
    {
      var keep;
      due, keep := Split(now);
      pending, contents := keep, KeptOf(contents, now);
    }

    /** flushDueMemory: what is due leaves the queue and is attempted in order; the rest stays, in order. */
    method FlushDueMemory(now: int, f: Replier)
      requires Valid()
      modifies this, Topics(), Stores()
      ensures Valid() && repr == old(repr)
      ensures contents == KeptOf(old(contents), now)
      ensures Effected() == AttemptAll(old(Effected()), DueOf(old(contents), now), producer != null, store.Some?, f)
      ensures producer != null && store.Some? && (forall i: nat :: f(i).0.Fine() && f(i).1.Took()) ==>
        var due := DueOf(old(contents), now);
        && producer.log == old(producer.log) + seq(|due|, i requires 0 <= i < |due| =>
             Message(if due[i].key.Some? then due[i].key.value else [],
                     if due[i].joined.Some? then due[i].joined.value else []))
        && store.value.Rows() == old(store.value.Rows()) - set v | v in due :: if v.hash.Some? then v.hash.value else []
    {
      if forall i: nat :: f(i).0.Fine() && f(i).1.Took() { AllSucceed(Effected(), DueOf(contents, now), f); }
      ghost var vs := DueOf(contents, now);
      var due := TakeDue(now);
      PublishAll(due, vs, f);
    }
  }

  method Overwrite(a: array<byte>, bytes: Bytes)
    requires |bytes| <= a.Length
    modifies a
    ensures a[..|bytes|] == bytes
  {
    for i := 0 to |bytes|
      invariant a[..i] == bytes[..i]
    {
      a[i] := bytes[i];
    }
    assert bytes[..|bytes|] == bytes;
  }

  /** A caller may reuse its buffers at once: what is pending is what they held when Schedule was called. */
  method ReuseAfterSchedule(q: Queue, hash: array<byte>, joined: array<byte>, key: array<byte>, at: int, bytes: Bytes)
    requires q.Valid() && {hash, joined, key} !! q.repr
    requires |bytes| <= hash.Length && |bytes| <= joined.Length && |bytes| <= key.Length
    modifies q, hash, joined, key
    ensures q.Valid()
    ensures q.contents == old(q.contents + [Value(Some(hash[..]), Some(joined[..]), Some(key[..]), at)])
    ensures hash[..|bytes|] == joined[..|bytes|] == key[..|bytes|] == bytes
  {
    q.Schedule(hash, joined, key, at);
    Overwrite(hash, bytes);
    Overwrite(joined, bytes);
    Overwrite(key, bytes);
  }
}
