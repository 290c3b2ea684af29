/** The timeout manager as an object (internal/timeout/manager.go), held against the step machine of Protocol. */
module TimeoutManager {
  import opened Base
  import opened JoinConfig
  import opened Projection
  import opened Protocol
  import opened Atomic
  import opened RowStore
  import opened Collaborators
  import opened Outcomes

  const DEFAULT_BATCH_SIZE := 100

  class Manager {
    const store: StateStore
    const joinCfg: JoinConfig
    const decode: Decoder
    const producer: Producer?<Sent>
    const redis: TimeoutSet
    const batchSize: nat
    const partialTracker: PartialTracker?

    constructor (store: StateStore, joinCfg: JoinConfig, decode: Decoder, producer: Producer?<Sent>, redis: TimeoutSet,
                 batchSize: nat, partialTracker: PartialTracker?)
      ensures this.store == store && this.joinCfg == joinCfg && this.decode == decode && this.producer == producer
      ensures this.redis == redis && this.partialTracker == partialTracker
      ensures this.batchSize == (if batchSize == 0 then 100 else batchSize)
    {
      this.store, this.joinCfg, this.decode, this.producer := store, joinCfg, decode, producer;
      this.redis, this.partialTracker := redis, partialTracker;
      this.batchSize := if batchSize == 0 then DEFAULT_BATCH_SIZE else batchSize;
    }

    /** The part of a processor's setup that the manager looks at. */
    function Config(): Setup {
      Setup(joinCfg, decode, false, true, partialTracker != null, false, false, false, producer != null)
    }

    ghost function Footprint(): set<object> {
      {store.store, redis}
        + (if producer != null then {producer} else {})
        + (if partialTracker != null then {partialTracker} else {})
    }

    ghost function View(): World
      reads Footprint()
    {
      World(store.Rows(), {}, redis.scores,
        if partialTracker != null then partialTracker.keys else {},
        [],
        if producer != null then producer.log else [])
    }

    /** The score is the deadline in Unix seconds. */
    method ScheduleTimeout(h: Hash, deadline: int, r: Reply) returns (ok: bool)
      modifies redis
      ensures redis.scores == if r.Took() then old(redis.scores)[h := deadline / 1_000_000_000] else old(redis.scores)
      ensures ok == r.Fine()
    {
      var score := UnixSeconds(deadline);
      ok := redis.Add(h, score, r);
    }

    /** DeleteState and ZREM, whose errors are ignored; before them SADD when a partial has gone out. */
    method Retire(h: Hash, ghost rest: seq<Hash>, track: bool, f: (Hash, MSite) -> Reply)
      modifies Footprint()
      ensures DriveManager(Config(), View(), NextMember(rest), f) ==
        (var m := if track && partialTracker != null then Track(h, rest) else DropRow(h, rest);
         DriveManager(Config(), old(View()), m, f))
    {
      ghost var c := Config();
      if track && partialTracker != null {
        ManagerDriveStep(c, View(), Track(h, rest), f);
        var _ := partialTracker.Add(h, f(h, AtTrack));
      }
      ManagerDriveStep(c, View(), DropRow(h, rest), f);
      var _ := store.DeleteState(h, f(h, AtDropRow));
      Unlist(h, rest, f);
    }

    method Unlist(h: Hash, ghost rest: seq<Hash>, f: (Hash, MSite) -> Reply)
      modifies redis
      ensures DriveManager(Config(), View(), NextMember(rest), f) ==
        DriveManager(Config(), old(View()), Unschedule(h, rest), f)
    {
      ManagerDriveStep(Config(), View(), Unschedule(h, rest), f);
      var _ := redis.Remove(h, f(h, AtUnschedule));
    }

    /** The key's row is read, and a stream is missing. */
    predicate Short(rows: map<Hash, Row>, k: Hash, f: (Hash, MSite) -> Reply) {
      f(k, AtGet).Fine() && k in rows && |rows[k].cells| < |joinCfg.streamIDs|
    }

    /** And under partial policy it does not project, or its partial is not acknowledged. */
    predicate HeldUp(rows: map<Hash, Row>, k: Hash, f: (Hash, MSite) -> Reply) {
      && Short(rows, k, f) && joinCfg.egress == "partial"
      && ((exists s | s in rows[k].cells :: decode(rows[k].cells[s]).None?) ||
          (producer != null && !f(k, AtPartial).Fine()))
    }

    lemma FateOf(w: World, members: seq<Hash>, f: (Hash, MSite) -> Reply, k: Hash)
      requires (forall i, j | 0 <= i < j < |members| :: members[i] != members[j]) && k in members
      ensures var v := DriveManager(Config(), w, NextMember(members), f);
        && (k in v.timeouts <==> k in w.timeouts && (HeldUp(w.rows, k, f) || !f(k, AtUnschedule).Took()))
        && (k in v.timeouts ==> v.timeouts[k] == w.timeouts[k])
        && (k in v.rows <==>
              k in w.rows && !(Short(w.rows, k, f) && !HeldUp(w.rows, k, f) && f(k, AtDropRow).Took()))
        && (k in v.rows ==> v.rows[k] == w.rows[k])
    {
      MemberFate(Config(), w, members, f, k);
      var v := DriveManager(Config(), w, NextMember(members), f);
      assert RowAt(v, k).Some? <==> k in v.rows;
    }

    /** The projection of a member's incomplete row, under the key's hash, and partial policy. */
    predicate IsPartial(rows: map<Hash, Row>, members: seq<Hash>, m: Sent) {
      && m.kind == Partial && m.hash in members && m.key == m.hash && joinCfg.egress == "partial"
      && m.hash in rows && m.cells == rows[m.hash].cells && |m.cells| < |joinCfg.streamIDs|
      && Applied(decode, m.cells, joinCfg.projection) == Some(m.text)
    }

    lemma PartialsOf(w: World, members: seq<Hash>, f: (Hash, MSite) -> Reply)
      requires forall i, j | 0 <= i < j < |members| :: members[i] != members[j]
      ensures var v := DriveManager(Config(), w, NextMember(members), f);
        w.out <= v.out && forall m | m in v.out[|w.out|..] :: IsPartial(w.rows, members, m)
    {
      var at := BatchMessages(Config(), w, members, f);
      var v := DriveManager(Config(), w, NextMember(members), f);
      forall m | m in v.out[|w.out|..] ensures IsPartial(w.rows, members, m) {
        var i :| 0 <= i < |at| && v.out[|w.out|..][i] == m;
        assert at[i] in at && m == v.out[|w.out| + i];
      }
    }

    /** One round of processDue's loop. */
    method ProcessMember(h: Hash, ghost rest: seq<Hash>, f: (Hash, MSite) -> Reply)
      modifies Footprint()
      ensures DriveManager(Config(), View(), NextMember(rest), f) ==
        DriveManager(Config(), old(View()), Get(h, rest), f)
    {
      ghost var c := Config();
      var ok, state := store.GetState(h, f(h, AtGet));
      ManagerDriveStep(c, View(), Get(h, rest), f);
      if !ok || state.None? {
        Unlist(h, rest, f);
        return;
      }
      var cells := state.value.cells;
      if |cells| >= joinCfg.N() {
        Unlist(h, rest, f);
        return;
      }
      if joinCfg.egress == EGRESS_PARTIAL {
        var partial := Apply(decode, cells, joinCfg.projection);
        if partial.None? {
          return;
        }
        if producer != null {
          ManagerDriveStep(c, View(), PublishPartial(h, rest, cells, partial.value), f);
          var sent := producer.ProduceSync(Sent(Partial, h, partial.value, "", h, cells), f(h, AtPartial));
          if !sent {
            return;
          }
        }
        Retire(h, rest, true, f);
      } else {
        Retire(h, rest, false, f);
      }
    }

    /**
     * processDue, at a clock in nanoseconds: the due members of one batch, one after the other, as the step machine
     * takes them. A member is left on the timeout set if its removal has no effect, or it is held up: its row was read
     * and misses a stream, and under partial policy it did not project or its partial was not acknowledged. A row goes
     * exactly if it was read, misses a stream and was not held up, and its deletion has effect.
     */
    method ProcessDue(clock: int, list: Reply, f: (Hash, MSite) -> Reply) returns (ok: bool, members: seq<Hash>)
      modifies Footprint()
      ensures ok == list.Fine()
      ensures !ok ==> members == [] && View() == old(View())
      ensures ok ==> IsBatch(old(redis.scores), clock / 1_000_000_000, batchSize, members)
      ensures View() == DriveManager(Config(), old(View()), NextMember(members), f)
      ensures forall k | k in members ::
        && (k in redis.scores <==> HeldUp(old(store.Rows()), k, f) || !f(k, AtUnschedule).Took())
        && (k in redis.scores ==> redis.scores[k] == old(redis.scores)[k])
      ensures forall k | k in members ::
        var rows := old(store.Rows());
        && (k in store.Rows() <==>
              k in rows && !(Short(rows, k, f) && !HeldUp(rows, k, f) && f(k, AtDropRow).Took()))
        && (k in store.Rows() ==> store.Rows()[k] == rows[k])
      ensures producer != null ==>
        && old(producer.log) <= producer.log
        && forall m | m in producer.log[|old(producer.log)|..] :: IsPartial(old(store.Rows()), members, m)
    {
      if !list.Fine() {
        return false, [];
      }
      ok := true;
      var now := UnixSeconds(clock);
      members := redis.RangeByScore(now, batchSize);
      for i := 0 to |members|
        invariant DriveManager(Config(), View(), NextMember(members[i..]), f) ==
          DriveManager(Config(), old(View()), NextMember(members), f)
      {
        ProcessMember(members[i], members[i + 1..], f);
        assert members[i..][0] == members[i] && members[i..][1..] == members[i + 1..];
      }
      assert members[|members|..] == [];
      PartialsOf(old(View()), members, f);
      forall k | k in members
        ensures k in redis.scores <==> HeldUp(old(store.Rows()), k, f) || !f(k, AtUnschedule).Took()
        ensures k in redis.scores ==> redis.scores[k] == old(redis.scores)[k]
        ensures k in store.Rows() <==>
          && k in old(store.Rows())
          && !(Short(old(store.Rows()), k, f) && !HeldUp(old(store.Rows()), k, f) && f(k, AtDropRow).Took())
        ensures k in store.Rows() ==> store.Rows()[k] == old(store.Rows())[k]
      {
        FateOf(old(View()), members, f, k);
      }
    }
  }
}
