/**
 * What a handler and a timeout manager share besides rows: the Bloom filter (internal/bloom/redis.go), the set of
 * partially published keys (internal/egress/partial_tracker.go), the timeout ZSET, and the Kafka producer.
 */
module Collaborators {
  import opened Protocol

  class BloomFilter {
    /** The keys the filter answers "maybe" for. */
    var seen: set<Hash>

    constructor ()
      ensures seen == {}
    {
      seen := {};
    }

    method Exists(h: Hash, r: Reply) returns (ok: bool, found: bool)
      ensures ok == r.Fine() && found == (ok && h in seen)
    {
      ok, found := r.Fine(), r.Fine() && h in seen;
    }

    method Add(h: Hash, r: Reply) returns (ok: bool)
      modifies this
      ensures seen == if r.Took() then old(seen) + {h} + r.collisions else old(seen)
      ensures ok == r.Fine()
    {
      if r.Took() {
        seen := seen + {h} + r.collisions;
      }
      ok := r.Fine();
    }
  }

  class PartialTracker {
    var keys: set<Hash>

    constructor ()
      ensures keys == {}
    {
      keys := {};
    }

    method Add(h: Hash, r: Reply) returns (ok: bool)
      modifies this
      ensures keys == if r.Took() then old(keys) + {h} else old(keys)
      ensures ok == r.Fine()
    {
      if r.Took() {
        keys := keys + {h};
      }
      ok := r.Fine();
    }

    method Contains(h: Hash, r: Reply) returns (ok: bool, found: bool)
      ensures ok == r.Fine() && found == (ok && h in keys)
    {
      ok, found := r.Fine(), r.Fine() && h in keys;
    }

    method Remove(h: Hash, r: Reply) returns (ok: bool)
      modifies this
      ensures keys == if r.Took() then old(keys) - {h} else old(keys)
      ensures ok == r.Fine()
    {
      if r.Took() {
        keys := keys - {h};
      }
      ok := r.Fine();
    }
  }

  /** Byte by byte, which is the order of the hexadecimal texts. */
  predicate Below(a: Hash, b: Hash) {
    b != [] && (a == [] || a[0] < b[0] || (a[0] == b[0] && Below(a[1..], b[1..])))
  }

  lemma {:induction false} BelowTotal(a: Hash, b: Hash)
    ensures a == b || Below(a, b) || Below(b, a)
  {
    if a != [] && b != [] && a[0] == b[0] {
      BelowTotal(a[1..], b[1..]);
      assert a == [a[0]] + a[1..] && b == [b[0]] + b[1..];
    }
  }

  /** `a` is a proper beginning of `b`, or the first byte in which they differ is smaller in `a`. */
  lemma {:induction false} BelowIff(a: Hash, b: Hash)
    ensures Below(a, b) <==>
      || a < b
      || exists k :: 0 <= k < |a| && k < |b| && a[..k] == b[..k] && a[k] < b[k]
  {
    if a != [] && b != [] && a[0] == b[0] {
      var s, t := a[1..], b[1..];
      BelowIff(s, t);
      assert a == [a[0]] + s && b == [b[0]] + t;
      if k :| 0 <= k < |s| && k < |t| && s[..k] == t[..k] && s[k] < t[k] {
        assert a[..k + 1] == [a[0]] + s[..k] && b[..k + 1] == [b[0]] + t[..k];
      }
      if k :| 0 <= k < |a| && k < |b| && a[..k] == b[..k] && a[k] < b[k] {
        assert s[..k - 1] == a[..k][1..] && t[..k - 1] == b[..k][1..] && s[k - 1] == a[k] && t[k - 1] == b[k];
      }
    } else if a != [] && b != [] {
      if a[0] < b[0] { assert a[..0] == b[..0]; }
      forall k | 0 < k < |a| && k < |b| ensures a[..k] != b[..k] {
        assert a[..k][0] == a[0] && b[..k][0] == b[0];
      }
    }
  }

  lemma {:induction false} BelowTransitive(a: Hash, b: Hash, c: Hash)
    requires Below(a, b) && Below(b, c)
    ensures Below(a, c)
  {
    if a != [] && a[0] == b[0] == c[0] { BelowTransitive(a[1..], b[1..], c[1..]); }
  }

  /** Redis orders members by score, and those of equal score by text. */
  predicate Before(scores: map<Hash, int>, h: Hash, k: Hash)
    requires h in scores && k in scores
  {
    scores[h] < scores[k] || (scores[h] == scores[k] && Below(h, k))
  }

  predicate IsFirst(scores: map<Hash, int>, due: set<Hash>, h: Hash)
    requires due <= scores.Keys
  {
    h in due && forall k | k in due && k != h :: Before(scores, h, k)
  }

  lemma FirstOfMore(scores: map<Hash, int>, due: set<Hash>, h: Hash, m: Hash)
    requires due <= scores.Keys && h in due && IsFirst(scores, due - {h}, m)
    ensures IsFirst(scores, due, if Before(scores, h, m) then h else m)
  {
    BelowTotal(h, m);
    forall k | k in due && k != h && Before(scores, h, m) ensures Before(scores, h, k) {
      if k != m {
        assert k in due - {h} && Before(scores, m, k);
        if scores[h] == scores[m] == scores[k] { BelowTransitive(h, m, k); }
      }
    }
  }

  lemma {:induction false} FirstExists(scores: map<Hash, int>, due: set<Hash>)
    requires due != {} && due <= scores.Keys
    ensures exists h :: IsFirst(scores, due, h)
  {
    var h :| h in due;
    if due - {h} == {} {
      assert due == {h};
      assert IsFirst(scores, due, h);
    } else {
      FirstExists(scores, due - {h});
      var m :| IsFirst(scores, due - {h}, m);
      FirstOfMore(scores, due, h, m);
    }
  }

  /** The Redis ZSET of deadlines, one score per key. */
  class TimeoutSet {
    var scores: map<Hash, int>

    constructor ()
      ensures scores == map[]
    {
      scores := map[];
    }

    method Add(h: Hash, score: int, r: Reply) returns (ok: bool)
      modifies this
      ensures scores == if r.Took() then old(scores)[h := score] else old(scores)
      ensures ok == r.Fine()
    {
      if r.Took() {
        scores := scores[h := score];
      }
      ok := r.Fine();
    }

    /** ZRANGEBYSCORE -inf now LIMIT 0 limit: the first due member after another. */
    method RangeByScore(now: int, limit: nat) returns (members: seq<Hash>)
      ensures IsBatch(scores, now, limit, members)
      ensures forall h | h in members :: h in scores
      ensures forall i, j | 0 <= i < j < |members| :: Before(scores, members[i], members[j])
      ensures forall h, k | h in members && k in DueKeys(scores, now) && k !in members :: Before(scores, h, k)
    {
      members := [];
      var due := set h | h in scores && scores[h] <= now;
      ghost var all := due;
      while |members| < limit && due != {}
        invariant due <= all <= scores.Keys
        invariant forall h :: h in members <==> h in all && h !in due
        invariant forall i, j | 0 <= i < j < |members| ::
          members[i] != members[j] && Before(scores, members[i], members[j])
        invariant forall h, k | h in members && k in due :: Before(scores, h, k)
        invariant |members| <= limit && |members| + |due| == |all|
        decreases |due|
      {
        FirstExists(scores, due);
        var h :| h in due && forall k | k in due && k != h :: Before(scores, h, k);
        members, due := members + [h], due - {h};
      }
      assert all == DueKeys(scores, now);
    }

    method Remove(h: Hash, r: Reply) returns (ok: bool)
      modifies this
      ensures scores == if r.Took() then old(scores) - {h} else old(scores)
      ensures ok == r.Fine()
    {
      if r.Took() {
        scores := scores - {h};
      }
      ok := r.Fine();
    }
  }

  /** A topic and the messages it has accepted. */
  class Producer<M> {
    var log: seq<M>

    constructor ()
      ensures log == []
    {
      log := [];
    }

    method ProduceSync(m: M, r: Reply) returns (ok: bool)
      modifies this
      ensures log == if r.Took() then old(log) + [m] else old(log)
      ensures ok == r.Fine()
    {
      if r.Took() {
        log := log + [m];
      }
      ok := r.Fine();
    }
  }

  /** Where completed joins settle: in memory, where a schedule cannot fail, or in a ZSET keyed by the member's text. */
  class DelayPublisher {
    const durable: bool
    var items: seq<Item>

    constructor (durable: bool)
      ensures this.durable == durable && items == []
    {
      this.durable, items := durable, [];
    }

    method Schedule(item: Item, r: Reply)
      modifies this
      ensures items == if !durable then old(items) + [item]
                       else if r.Took() then Without(old(items), item) + [item]
                       else old(items)
    {
      if !durable {
        items := items + [item];
      } else if r.Took() {
        items := Without(items, item) + [item];
      }
    }
  }
}
