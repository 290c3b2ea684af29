/** Join definitions and their validation (internal/config/config.go). */
module JoinConfig {
  import opened Base

  const EGRESS_PARTIAL := "partial"

  datatype KeyDef = KeyDef(field: string, fields: seq<string>)

  datatype ProjectionField = ProjectionField(output: string, stream: string, field: string)

  /** Durations are in nanoseconds; `egress` is any text, as in the source. */
  datatype JoinConfig = JoinConfig(
    configID: string,
    name: string,
    streamIDs: seq<string>,
    key: KeyDef,
    ttl: int,
    projection: seq<ProjectionField>,
    egress: string,
    postJoinDelay: int)
  {
    function N(): nat { |streamIDs| }

    function Streams(): set<string> { set s | s in streamIDs }

    predicate DistinctStreams() {
      forall i, j | 0 <= i < j < |streamIDs| :: streamIDs[i] != streamIDs[j]
    }
  }

  datatype Fault =
    | NilConfig
    | NoStreams
    | EmptyStream(i: nat)
    | UnknownStream(i: nat)
    | NoKey
    | EmptyKeyField(i: nat)
    | PartialNeedsTTL

  predicate GoodEntry(c: JoinConfig, p: ProjectionField) {
    p.stream != "" && p.stream in c.streamIDs
  }

  predicate Valid(c: JoinConfig) {
    && c.streamIDs != []
    && (forall p | p in c.projection :: GoodEntry(c, p))
    && (c.key.field != "" || c.key.fields != [])
    && (forall f | f in c.key.fields :: f != "")
    && (c.egress == EGRESS_PARTIAL ==> c.ttl > 0)
  }

  /** The first of these checks that a configuration fails is the fault reported. */
  method ValidateJoinConfig(cfg: Option<JoinConfig>) returns (r: Option<Fault>)
    ensures r.None? <==> cfg.Some? && Valid(cfg.value)
    ensures r == Some(NilConfig) <==> cfg.None?
    ensures r == Some(NoStreams) <==> cfg.Some? && cfg.value.streamIDs == []
    ensures cfg.Some? && cfg.value.streamIDs != [] ==>
      var c := cfg.value;
      var entries := forall p | p in c.projection :: p.stream != "" && p.stream in c.streamIDs;
      var keyed := c.key.field != "" || c.key.fields != [];
      var named := forall f | f in c.key.fields :: f != "";
      var timed := c.egress == "partial" ==> c.ttl > 0;
      && (r.None? <==> entries && keyed && named && timed)
      && (r == Some(NoKey) <==> entries && !keyed)
      && (r == Some(PartialNeedsTTL) <==> entries && keyed && named && !timed)
      && (forall i: nat :: r == Some(EmptyStream(i)) <==>
            && i < |c.projection| && c.projection[i].stream == ""
            && forall j | 0 <= j < i :: c.projection[j].stream != "" && c.projection[j].stream in c.streamIDs)
      && (forall i: nat :: r == Some(UnknownStream(i)) <==>
            && i < |c.projection| && c.projection[i].stream != "" && c.projection[i].stream !in c.streamIDs
            && forall j | 0 <= j < i :: c.projection[j].stream != "" && c.projection[j].stream in c.streamIDs)
      && (forall i: nat :: r == Some(EmptyKeyField(i)) <==>
            && entries && keyed && i < |c.key.fields| && c.key.fields[i] == ""
            && forall j | 0 <= j < i :: c.key.fields[j] != "")
  {
    if cfg.None? {
      return Some(NilConfig);
    }
    var c := cfg.value;
    if |c.streamIDs| == 0 {
      return Some(NoStreams);
    }
    var streamSet: set<string> := {};
    for i := 0 to |c.streamIDs|
      invariant streamSet == set s | s in c.streamIDs[..i]
    {
      streamSet := streamSet + {c.streamIDs[i]};
    }
    assert c.streamIDs[..|c.streamIDs|] == c.streamIDs;
    for i := 0 to |c.projection|
      invariant forall j | 0 <= j < i :: GoodEntry(c, c.projection[j])
    {
      var p := c.projection[i];
      assert p in c.projection;
      if p.stream == "" {
        return Some(EmptyStream(i));
      }
      if p.stream !in streamSet {
        return Some(UnknownStream(i));
      }
    }
    if c.key.field == "" && |c.key.fields| == 0 {
      return Some(NoKey);
    }
    for i := 0 to |c.key.fields|
      invariant forall j | 0 <= j < i :: c.key.fields[j] != ""
    {
      assert c.key.fields[i] in c.key.fields;
      if c.key.fields[i] == "" {
        return Some(EmptyKeyField(i));
      }
    }
    if c.egress == EGRESS_PARTIAL && c.ttl <= 0 {
      return Some(PartialNeedsTTL);
    }
    return None;
  }

  // ---------- what counting the participants decides ----------

  function Elements(s: seq<string>): set<string> { set x | x in s }

  predicate Distinct(s: seq<string>) {
    forall i, j | 0 <= i < j < |s| :: s[i] != s[j]
  }

  lemma {:induction false} ElementsCount(s: seq<string>)
    ensures |Elements(s)| <= |s|
    ensures |Elements(s)| == |s| <==> Distinct(s)
  {
    if s == [] {
      assert Elements(s) == {};
    } else {
      var t, x := s[..|s| - 1], s[|s| - 1];
      ElementsCount(t);
      assert Elements(s) == Elements(t) + {x};
      if x in t {
        var i :| 0 <= i < |t| && t[i] == x;
        assert s[i] == s[|s| - 1];
        assert Elements(s) == Elements(t);
      } else {
        assert Distinct(s) <==> Distinct(t);
      }
    }
  }

  lemma SubsetOfSameSize(a: set<string>, b: set<string>)
    requires a <= b && |a| >= |b|
    ensures a == b
  {
    assert |b - a| == |b| - |a|;
  }

  /** Counting decides completeness: with N participants, all from configured streams, none is missing. */
  predicate CountDecides(c: JoinConfig) {
    forall keys: set<string> | keys <= c.Streams() :: |keys| >= c.N() <==> keys == c.Streams()
  }

  /**
   * `len(ParticipantData) >= N` says "every configured stream has arrived" if and only if the configuration
   * lists no stream twice. Validation does not ask for that.
   */
  lemma CompleteMeansAllStreamsIff(c: JoinConfig)
    ensures CountDecides(c) <==> c.DistinctStreams()
  {
    var all := c.Streams();
    assert all == Elements(c.streamIDs);
    ElementsCount(c.streamIDs);
    if c.DistinctStreams() {
      forall keys: set<string> | keys <= all ensures |keys| >= c.N() <==> keys == all {
        if |keys| >= c.N() { SubsetOfSameSize(keys, all); }
      }
    } else {
      assert !(|all| >= c.N() <==> all == all);
    }
  }
}
