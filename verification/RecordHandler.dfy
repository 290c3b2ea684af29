/** The record handler as an object (internal/consumer/consumer.go), held against the step machine of Protocol. */
module RecordHandler {
  import opened Base
  import opened JoinConfig
  import opened Projection
  import opened Protocol
  import opened Atomic
  import opened Engine
  import opened RowStore
  import opened Collaborators
  import opened TimeoutManager
  import Keys

  const STREAM_ID_HEADER := "x-stream-id"

  datatype Header = Header(key: string, value: string)

  /** A Kafka message; a tombstone has no value. */
  datatype Record = Record(headers: seq<Header>, key: Bytes, value: Option<Payload>)

  /** The value of the first header of that name. */
  function HeaderValue(headers: seq<Header>, name: string): Option<string> {
    if headers == [] then None
    else if headers[0].key == name then Some(headers[0].value)
    else HeaderValue(headers[1..], name)
  }

  /** Header `i` is the first of this name. */
  predicate IsFirstHeader(headers: seq<Header>, name: string, i: int) {
    0 <= i < |headers| && headers[i].key == name && forall k | 0 <= k < i :: headers[k].key != name
  }

  lemma {:induction false} FirstHeader(headers: seq<Header>, name: string)
    ensures forall i | IsFirstHeader(headers, name, i) :: HeaderValue(headers, name) == Some(headers[i].value)
    ensures (exists i :: IsFirstHeader(headers, name, i)) || forall i | 0 <= i < |headers| :: headers[i].key != name
    ensures HeaderValue(headers, name).None? <==> forall i | 0 <= i < |headers| :: headers[i].key != name
  {
    if headers != [] {
      var rest := headers[1..];
      FirstHeader(rest, name);
      if headers[0].key == name {
        assert IsFirstHeader(headers, name, 0);
      } else {
        forall i | IsFirstHeader(headers, name, i) ensures HeaderValue(headers, name) == Some(headers[i].value) {
          assert IsFirstHeader(rest, name, i - 1);
        }
        forall i | IsFirstHeader(rest, name, i) ensures IsFirstHeader(headers, name, i + 1) {
        }
        if forall i | 0 <= i < |rest| :: rest[i].key != name {
          forall i | 0 <= i < |headers| ensures headers[i].key != name { assert i > 0 ==> headers[i] == rest[i - 1]; }
        }
      }
    }
  }

  method GetStreamID(rec: Record) returns (r: Option<string>)
    ensures r == HeaderValue(rec.headers, STREAM_ID_HEADER)
    ensures r.None? <==> forall i | 0 <= i < |rec.headers| :: rec.headers[i].key != "x-stream-id"
    ensures r.Some? ==> exists i :: IsFirstHeader(rec.headers, "x-stream-id", i) && r == Some(rec.headers[i].value)
  {
    FirstHeader(rec.headers, STREAM_ID_HEADER);
    for i := 0 to |rec.headers|
      invariant HeaderValue(rec.headers, STREAM_ID_HEADER) == HeaderValue(rec.headers[i..], STREAM_ID_HEADER)
    {
      if rec.headers[i].key == STREAM_ID_HEADER {
        return Some(rec.headers[i].value);
      }
    }
    return None;
  }

  /** The event a record stands for, if it has a stream header and a value that decodes. */
  function EventOf(j: JoinConfig, decode: Decoder, sha: string -> Bytes, rec: Record): Option<Event> {
    match (HeaderValue(rec.headers, STREAM_ID_HEADER), rec.value)
    case (Some(stream), Some(payload)) =>
      (match decode(payload)
       case Some(values) =>
         var raw := Keys.RawKey(j.key.field, j.key.fields, values);
         Some(Event(sha(raw), raw, stream, payload, rec.key))
       case None => None)
    case _ => None
  }

  /**
   * A record is an event exactly if it has a stream header, and a value that decodes: of the stream its first such
   * header names, with its own value and message key, under the hash of its raw key. That is the text of the configured
   * field, "" if there is none; or, where fields are listed, the JSON text of those it has, "" if it has none.
   */
  lemma EventIs(j: JoinConfig, decode: Decoder, sha: string -> Bytes, rec: Record)
    ensures EventOf(j, decode, sha, rec).Some? <==>
      && (exists i :: 0 <= i < |rec.headers| && rec.headers[i].key == "x-stream-id")
      && rec.value.Some? && decode(rec.value.value).Some?
    ensures EventOf(j, decode, sha, rec).Some? ==>
      var e, values := EventOf(j, decode, sha, rec).value, decode(rec.value.value).value;
      && e.msgKey == rec.key && rec.value == Some(e.payload) && e.hash == sha(e.raw)
      && (exists i :: IsFirstHeader(rec.headers, "x-stream-id", i) && e.stream == rec.headers[i].value)
      && (j.key.field != "" && j.key.field in values && values[j.key.field].Str? ==> e.raw == values[j.key.field].s)
      && (j.key.field != "" && !(j.key.field in values && values[j.key.field].Str?) ==> e.raw == "")
      && (j.key.field == "" ==>
            var listed := map n | n in j.key.fields && n in values :: values[n];
            e.raw == if listed == map[] then "" else Json.Marshal(Json.Obj(listed)))
  {
    FirstHeader(rec.headers, STREAM_ID_HEADER);
    if HeaderValue(rec.headers, STREAM_ID_HEADER).None? {
      assert forall i | 0 <= i < |rec.headers| :: rec.headers[i].key != "x-stream-id";
    }
  }

  lemma DriveContains(c: Setup, w: World, e: Event, row: Row, f: Site -> Reply)
    requires c.Corrects() && |row.cells| < c.N()
    ensures Drive(c, w, AfterRead(c, e, Some(row)), f) ==
      (var late := f(AtContains).Fine() && e.hash in w.tracker;
       Drive(c, w, if late then Correction(c, e, row) else Completion(c, e, Some(row)), f))
  {
    DriveStep(c, w, Contains(e, row), f);
  }

  class Handler {
    const store: StateStore
    const joinCfg: JoinConfig
    const decode: Decoder
    const sha: string -> Bytes
    const producer: Producer?<Sent>
    const bloom: BloomFilter?
    const timeoutSched: Manager?
    const delayQueue: DelayPublisher?
    const lateTracker: PartialTracker?
    const correctionsTopic: string

    constructor (store: StateStore, joinCfg: JoinConfig, decode: Decoder, sha: string -> Bytes,
                 producer: Producer?<Sent>, bloom: BloomFilter?, timeoutSched: Manager?,
                 delayQueue: DelayPublisher?, lateTracker: PartialTracker?,
                 correctionsTopic: string)
      ensures this.store == store && this.joinCfg == joinCfg && this.decode == decode && this.sha == sha
      ensures this.producer == producer && this.bloom == bloom && this.timeoutSched == timeoutSched
      ensures this.delayQueue == delayQueue && this.lateTracker == lateTracker
        && this.correctionsTopic == correctionsTopic
    {
      this.store, this.joinCfg, this.decode, this.sha, this.producer := store, joinCfg, decode, sha, producer;
      this.bloom, this.timeoutSched, this.delayQueue := bloom, timeoutSched, delayQueue;
      this.lateTracker, this.correctionsTopic := lateTracker, correctionsTopic;
    }

    function Config(): Setup {
      Setup(joinCfg, decode, bloom != null, timeoutSched != null, lateTracker != null, correctionsTopic != "",
        delayQueue != null, delayQueue != null && delayQueue.durable, producer != null)
    }

    ghost function Footprint(): set<object> {
      {store.store}
        + (if producer != null then {producer} else {})
        + (if bloom != null then {bloom} else {})
        + (if timeoutSched != null then {timeoutSched.redis} else {})
        + (if delayQueue != null then {delayQueue} else {})
        + (if lateTracker != null then {lateTracker} else {})
    }

    ghost function View(): World
      reads Footprint()
    {
      World(store.Rows(),
        if bloom != null then bloom.seen else {},
        if timeoutSched != null then timeoutSched.redis.scores else map[],
        if lateTracker != null then lateTracker.keys else {},
        if delayQueue != null then delayQueue.items else [],
        if producer != null then producer.log else [])
    }

    /** extractKey: the configured field's text, or else the listed fields present, hashed. */
    method ExtractKey(payload: Payload) returns (r: Option<(Hash, string)>)
      ensures r == match decode(payload)
                   case Some(values) =>
                     (var raw := Keys.RawKey(joinCfg.key.field, joinCfg.key.fields, values); Some((sha(raw), raw)))
                   case None => None
    {
      var m := decode(payload);
      if m.None? {
        return None;
      }
      var values := m.value;
      if joinCfg.key.field != "" {
        var v := "";
        if joinCfg.key.field in values && values[joinCfg.key.field].Str? {
          v := values[joinCfg.key.field].s;
        }
        var hash, raw := Keys.CompositeKey(v, map[], sha);
        return Some((hash, raw));
      }
      var hash, raw := Keys.KeyFromFields(joinCfg.key.fields, values, sha);
      return Some((hash, raw));
    }

    // Each call on a collaborator, seen from the whole.

    method WriteCell(e: Event, r: Reply) returns (ok: bool)
      modifies store.store
      ensures View() == if r.Took() then Upsert(old(View()), e) else old(View())
      ensures ok == r.Fine()
    {
      ok := store.UpsertParticipantOnly(e, r);
    }

    method WriteAndRead(e: Event, write: Reply, read: Reply) returns (ok: bool, state: Option<Row>)
      modifies store.store
      ensures View() == if write.Took() then Upsert(old(View()), e) else old(View())
      ensures ok == (write.Fine() && read.Fine())
      ensures ok ==> state == RowAt(View(), e.hash)
    {
      ok, state := store.UpsertParticipant(e, write, read);
    }

    method DeleteRow(h: Hash, r: Reply) returns (ok: bool)
      modifies store.store
      ensures View() == if r.Took() then Delete(old(View()), h) else old(View())
      ensures ok == r.Fine()
    {
      ok := store.DeleteState(h, r);
    }

    method AddToBloom(h: Hash, r: Reply) returns (ok: bool)
      requires bloom != null
      modifies bloom
      ensures View() == if r.Took() then old(View()).(bloom := old(View()).bloom + {h} + r.collisions) else old(View())
      ensures ok == r.Fine()
    {
      ok := bloom.Add(h, r);
    }

    /** publish and publishTo: without a producer, nothing, successfully. */
    method PublishTo(m: Sent, r: Reply) returns (ok: bool)
      modifies if producer != null then {producer} else {}
      ensures View() == if producer != null && r.Took() then Produce(old(View()), m) else old(View())
      ensures ok == (producer == null || r.Fine())
    {
      if producer == null {
        return true;
      }
      ok := producer.ProduceSync(m, r);
    }

    // Handle, branch by branch.

    /** A key the filter has not seen: write, add, and schedule its timeout. */
    method HandleFirstArrival(e: Event, f: Site -> Reply) returns (ok: bool)
      requires bloom != null
      modifies Footprint()
      ensures (View(), ok) == Drive(Config(), old(View()), WriteOnly(e), f)
    {
      DriveStep(Config(), View(), WriteOnly(e), f);
      ok := WriteCell(e, f(AtWriteOnly));
      if !ok {
        return false;
      }
      ok := AddAndSchedule(e, f);
    }

    method AddAndSchedule(e: Event, f: Site -> Reply) returns (ok: bool)
      requires bloom != null
      modifies Footprint()
      ensures (View(), ok) == Drive(Config(), old(View()), Add(e), f)
    {
      DriveStep(Config(), View(), Add(e), f);
      ok := AddToBloom(e.hash, f(AtAdd));
      if !ok {
        return false;
      }
      if timeoutSched != null {
        if joinCfg.ttl > 0 {
          DriveStep(Config(), View(), Schedule(e), f);
          var _ := timeoutSched.ScheduleTimeout(e.hash, f(AtSchedule).at + joinCfg.ttl, f(AtSchedule));
        }
      }
      return true;
    }

    /** A late arrival for a key whose partial is out: a correction, and both the tracker entry and the row go. */
    method HandleLate(e: Event, state: Row, f: Site -> Reply) returns (ok: bool)
      requires lateTracker != null
      modifies Footprint()
      ensures (View(), ok) == Drive(Config(), old(View()), Correction(Config(), e, state), f)
    {
      var partial := Apply(decode, state.cells, joinCfg.projection);
      if partial.None? {
        return false;
      }
      ghost var w := View();
      var corr := Sent(Late, e.hash, partial.value, state.raw, e.hash, state.cells);
      DriveStep(Config(), w, Correct(e, state, partial.value), f);
      var _ := PublishTo(corr, f(AtCorrect));
      assert View() == if Config().producer && f(AtCorrect).Took() then Produce(w, corr) else w;
      ok := ForgetKey(e, f);
    }

    method ForgetKey(e: Event, f: Site -> Reply) returns (ok: bool)
      requires lateTracker != null
      modifies Footprint()
      ensures (View(), ok) == Drive(Config(), old(View()), Forget(e), f)
    {
      DriveStep(Config(), View(), Forget(e), f);
      var _ := lateTracker.Remove(e.hash, f(AtForget));
      DriveStep(Config(), View(), DropLate(e), f);
      var _ := DeleteRow(e.hash, f(AtDropLate));
      return true;
    }

    /** The engine's Process, and what becomes of a join it returns. */
    method HandleCompletion(e: Event, state: Option<Row>, f: Site -> Reply) returns (ok: bool)
      modifies Footprint()
      ensures (View(), ok) == Drive(Config(), old(View()), Completion(Config(), e, state), f)
    {
      var res := Process(joinCfg, decode, state);
      if res.None? {
        return false;
      }
      if |res.value.joined| > 0 {
        if delayQueue != null && joinCfg.postJoinDelay > 0 {
          ok := ScheduleJoin(e, state.value.cells, res.value.joined, f);
          return ok;
        }
        ok := PublishJoin(e, state.value.cells, res.value.joined, f);
        return ok;
      }
      return true;
    }

    method ScheduleJoin(e: Event, cells: Cells, joined: string, f: Site -> Reply) returns (ok: bool)
      requires delayQueue != null
      modifies Footprint()
      ensures (View(), ok) == Drive(Config(), old(View()), Enqueue(e, cells, joined), f)
    {
      DriveStep(Config(), View(), Enqueue(e, cells, joined), f);
      var publishAt := f(AtEnqueue).at + joinCfg.postJoinDelay;
      delayQueue.Schedule(Item(e.hash, joined, e.msgKey, publishAt, cells), f(AtEnqueue));
      return true;
    }

    method PublishJoin(e: Event, cells: Cells, joined: string, f: Site -> Reply) returns (ok: bool)
      modifies Footprint()
      ensures (View(), ok) == Drive(Config(), old(View()), Publish(e, cells, joined), f)
    {
      DriveStep(Config(), View(), Publish(e, cells, joined), f);
      ok := PublishTo(Sent(Main, e.msgKey, joined, "", e.hash, cells), f(AtPublish));
      if !ok {
        return false;
      }
      DriveStep(Config(), View(), Drop(e), f);
      ok := DeleteRow(e.hash, f(AtDrop));
    }

    method HandleWithReadback(e: Event, f: Site -> Reply) returns (ok: bool)
      modifies Footprint()
      ensures (View(), ok) == Drive(Config(), old(View()), Write(e), f)
    {
      DriveStep(Config(), View(), Write(e), f);
      var written, state := WriteAndRead(e, f(AtWrite), f(AtRead));
      if f(AtWrite).Fine() { DriveStep(Config(), View(), Read(e), f); }
      if !written {
        return false;
      }
      ok := HandleState(e, state, f);
    }

    method HandleState(e: Event, state: Option<Row>, f: Site -> Reply) returns (ok: bool)
      modifies Footprint()
      ensures (View(), ok) == Drive(Config(), old(View()), AfterRead(Config(), e, state), f)
    {
      if state.Some? && |state.value.cells| < joinCfg.N() && lateTracker != null && correctionsTopic != "" {
        DriveContains(Config(), View(), e, state.value, f);
        var _, found := lateTracker.Contains(e.hash, f(AtContains));
        if found {
          ok := HandleLate(e, state.value, f);
          return ok;
        }
      }
      ok := HandleCompletion(e, state, f);
    }

    /** The cells of the key's row, with the record's value under its first stream header. */
    ghost predicate WithRecord(w: World, rec: Record, h: Hash, cells: Cells) {
      rec.value.Some? && exists i | IsFirstHeader(rec.headers, "x-stream-id", i) ::
        cells == (if h in w.rows then w.rows[h].cells else map[])[rec.headers[i].value := rec.value.value]
    }

    /**
     * At most one message, the projection of the row with the record: a join under the record's own message key, or,
     * with a tracker and a corrections topic, a correction under the hash. A queued join is such a projection too,
     * under that key, due at the clock plus the settle delay.
     */
    ghost predicate Sends(w: World, v: World, rec: Record, f: Site -> Reply) {
      && (v.out == w.out ||
          exists m :: v.out == w.out + [m] &&
            WithRecord(w, rec, m.hash, m.cells) && Applied(decode, m.cells, joinCfg.projection) == Some(m.text) &&
            if |m.cells| >= |joinCfg.streamIDs| then m.kind == Main && m.key == rec.key
            else m.kind == Late && m.key == m.hash == sha(m.joinKey) && lateTracker != null && correctionsTopic != "")
      && (forall i | i in v.queue && i !in w.queue ::
            && Applied(decode, i.cells, joinCfg.projection) == Some(i.text)
            && i.msgKey == rec.key && i.publishAt == f(AtEnqueue).at + joinCfg.postJoinDelay)
    }

    /**
     * A deadline is set only for a key unknown to the filter, at the clock plus the ttl, in seconds. A cell that was
     * not there has the record's value, under its first stream header and the hash of the raw key.
     */
    ghost predicate Writes(w: World, v: World, rec: Record, f: Site -> Reply) {
      && (forall h | h in v.timeouts && !(h in w.timeouts && v.timeouts[h] == w.timeouts[h]) ::
            && v.timeouts[h] == (f(AtSchedule).at + joinCfg.ttl) / 1_000_000_000
            && joinCfg.ttl > 0 && timeoutSched != null && bloom != null && h !in w.bloom)
      && (forall h, s | h in v.rows && s in v.rows[h].cells && !(h in w.rows && s in w.rows[h].cells &&
            v.rows[h].cells[s] == w.rows[h].cells[s]) ::
              && rec.value == Some(v.rows[h].cells[s]) && h == sha(v.rows[h].raw)
              && exists i :: IsFirstHeader(rec.headers, "x-stream-id", i) && rec.headers[i].value == s)
    }

    lemma HandleSends(w: World, rec: Record, f: Site -> Reply)
      ensures var e := EventOf(joinCfg, decode, sha, rec);
        Sends(w, if e.Some? then Atomic.Handle(Config(), w, e.value, f).0 else w, rec, f)
    {
      EventIs(joinCfg, decode, sha, rec);
      var e := EventOf(joinCfg, decode, sha, rec);
      if e.Some? { Outcomes.HandleAdds(Config(), w, e.value, f); }
    }

    lemma HandleWrites(w: World, rec: Record, f: Site -> Reply)
      ensures var e := EventOf(joinCfg, decode, sha, rec);
        Writes(w, if e.Some? then Atomic.Handle(Config(), w, e.value, f).0 else w, rec, f)
    {
      EventIs(joinCfg, decode, sha, rec);
      var e := EventOf(joinCfg, decode, sha, rec);
      if e.Some? { Outcomes.HandleAdds(Config(), w, e.value, f); }
    }

    /** Handle: a record that is no event changes nothing; an event drives the protocol's handler to its end. */
    method Handle(rec: Record, f: Site -> Reply) returns (ok: bool)
      modifies Footprint()
      ensures Sends(old(View()), View(), rec, f) && Writes(old(View()), View(), rec, f)
      ensures var e := EventOf(joinCfg, decode, sha, rec);
        (View(), ok) == if e.Some? then Atomic.Handle(Config(), old(View()), e.value, f) else (old(View()), false)
    {
      HandleSends(View(), rec, f);
      HandleWrites(View(), rec, f);
      var streamID := GetStreamID(rec);
      if streamID.None? || rec.value.None? {
        return false;
      }
      var key := ExtractKey(rec.value.value);
      if key.None? {
        return false;
      }
      var e := Event(key.value.0, key.value.1, streamID.value, rec.value.value, rec.key);
      if bloom != null {
        DriveStep(Config(), View(), Exists(e), f);
        var asked, known := bloom.Exists(e.hash, f(AtExists));
        if !asked {
          return false;
        }
        if !known {
          ok := HandleFirstArrival(e, f);
          return ok;
        }
      }
      ok := HandleWithReadback(e, f);
    }
  }
}
