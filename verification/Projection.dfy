/** The projected document of a set of participants (internal/projection/project.go). */
module Projection {
  import opened Base
  import opened Json
  import opened JoinConfig

  type Payload = Bytes
  type Cells = map<string, Payload>
  type Participants = map<string, Fields>

  /** json.Unmarshal of a payload into a map, which may fail. */
  type Decoder = Payload -> Option<Fields>

  predicate Decodes(decode: Decoder, cells: Cells) {
    forall s | s in cells :: decode(cells[s]).Some?
  }

  function Decoded(decode: Decoder, cells: Cells): Participants
    requires Decodes(decode, cells)
  {
    map s | s in cells :: decode(cells[s]).value
  }

  predicate Present(data: Participants, p: ProjectionField) {
    p.stream in data && p.field in data[p.stream]
  }

  /** The document: later entries of the projection overwrite earlier ones. */
  function Project(data: Participants, proj: seq<ProjectionField>): Fields {
    if proj == [] then map[] else
    var p := proj[|proj| - 1];
    var before := Project(data, proj[..|proj| - 1]);
    if Present(data, p) then before[p.output := data[p.stream][p.field]] else before
  }

  function Document(data: Participants, proj: seq<ProjectionField>): string {
    Marshal(Obj(Project(data, proj)))
  }

  /** What Apply returns: the document's text, or nothing when some payload does not decode. */
  function Applied(decode: Decoder, cells: Cells, proj: seq<ProjectionField>): Option<string> {
    if Decodes(decode, cells) then Some(Document(Decoded(decode, cells), proj)) else None
  }

  method Apply(decode: Decoder, participantData: Cells, proj: seq<ProjectionField>) returns (r: Option<string>)
    ensures r == Applied(decode, participantData, proj)
    ensures r.None? <==> exists s | s in participantData :: decode(participantData[s]).None?
  {
    var streamDecoded: Participants := map[];
    var todo := participantData.Keys;
    while todo != {}
      invariant todo <= participantData.Keys
      invariant forall s | s in participantData && s !in todo :: decode(participantData[s]).Some?
      invariant streamDecoded == map s | s in participantData.Keys - todo :: decode(participantData[s]).value
      decreases |todo|
    {
      var streamID :| streamID in todo;
      var m := decode(participantData[streamID]);
      if m.None? {
        return None;
      }
      streamDecoded, todo := streamDecoded[streamID := m.value], todo - {streamID};
    }
    assert streamDecoded == Decoded(decode, participantData);
    var out: Fields := map[];
    for i := 0 to |proj|
      invariant out == Project(streamDecoded, proj[..i])
    {
      assert proj[..i + 1][..i] == proj[..i];
      var p := proj[i];
      if p.stream !in streamDecoded {
        continue;
      }
      if p.field in streamDecoded[p.stream] {
        out := out[p.output := streamDecoded[p.stream][p.field]];
      }
    }
    assert proj[..|proj|] == proj;
    return Some(Marshal(Obj(out)));
  }

  // ---------- what the document says ----------

  /** Entry `i` is the last one for its output that has something to show. */
  predicate Wins(data: Participants, proj: seq<ProjectionField>, i: int) {
    && 0 <= i < |proj|
    && Present(data, proj[i])
    && forall j | i < j < |proj| && proj[j].output == proj[i].output :: !Present(data, proj[j])
  }

  /** Each winning entry is shown with its own value. */
  lemma {:induction false} WinnerShown(data: Participants, proj: seq<ProjectionField>, i: int)
    requires Wins(data, proj, i)
    ensures proj[i].output in Project(data, proj)
    ensures Project(data, proj)[proj[i].output] == data[proj[i].stream][proj[i].field]
  {
    var last := |proj| - 1;
    if i < last {
      assert Wins(data, proj[..last], i);
      WinnerShown(data, proj[..last], i);
    }
  }

  /** Whatever is shown has a winning entry. */
  lemma {:induction false} ShownHasWinner(data: Participants, proj: seq<ProjectionField>, o: string) returns (i: int)
    requires o in Project(data, proj)
    ensures Wins(data, proj, i) && proj[i].output == o
  {
    var last := |proj| - 1;
    if Present(data, proj[last]) && proj[last].output == o {
      i := last;
    } else {
      i := ShownHasWinner(data, proj[..last], o);
    }
  }

  /** An output is in the document exactly when some entry for it is present, and shows the last such entry. */
  lemma LastPresentWins(data: Participants, proj: seq<ProjectionField>)
    ensures forall o :: o in Project(data, proj) <==> exists i :: Wins(data, proj, i) && proj[i].output == o
    ensures forall i | Wins(data, proj, i) ::
      var o := proj[i].output; o in Project(data, proj) && Project(data, proj)[o] == data[proj[i].stream][proj[i].field]
  {
    forall o | o in Project(data, proj) ensures exists i :: Wins(data, proj, i) && proj[i].output == o {
      var i := ShownHasWinner(data, proj, o);
    }
    forall i | Wins(data, proj, i)
      ensures proj[i].output in Project(data, proj)
      ensures Project(data, proj)[proj[i].output] == data[proj[i].stream][proj[i].field]
    {
      WinnerShown(data, proj, i);
    }
  }

  lemma {:induction false} PresentEntryShows(data: Participants, proj: seq<ProjectionField>, k: nat)
    requires k < |proj| && Present(data, proj[k])
    ensures proj[k].output in Project(data, proj)
  {
    if k < |proj| - 1 {
      PresentEntryShows(data, proj[..|proj| - 1], k);
    }
  }

  /**
   * Payloads project if they all decode. The document is then an object that has just the outputs of the entries whose
   * stream has a payload with their field, whatever its value, null too; each shows the value of the last of these.
   */
  lemma AppliedIs(decode: Decoder, cells: Cells, proj: seq<ProjectionField>) returns (out: Fields)
    ensures Applied(decode, cells, proj).None? <==> exists s :: s in cells && decode(cells[s]).None?
    ensures Applied(decode, cells, proj).Some? ==>
      var shown := (p: ProjectionField) =>
        p.stream in cells && decode(cells[p.stream]).Some? && p.field in decode(cells[p.stream]).value;
      && Applied(decode, cells, proj).value == Marshal(Obj(out))
      && (forall o :: o in out <==> exists p :: p in proj && p.output == o && shown(p))
      && forall i | 0 <= i < |proj| && shown(proj[i])
           && (forall j | i < j < |proj| && proj[j].output == proj[i].output :: !shown(proj[j])) ::
             var p := proj[i];
             p.output in out && out[p.output] == decode(cells[p.stream]).value[p.field]
  {
    out := map[];
    if Decodes(decode, cells) {
      var data := Decoded(decode, cells);
      out := Project(data, proj);
      LastPresentWins(data, proj);
      forall p | p in proj && Present(data, p) ensures p.output in out {
        var k :| 0 <= k < |proj| && proj[k] == p;
        PresentEntryShows(data, proj, k);
      }
      forall i | 0 <= i < |proj| && Present(data, proj[i])
          && (forall j | i < j < |proj| && proj[j].output == proj[i].output :: !Present(data, proj[j]))
        ensures Wins(data, proj, i)
      {
      }
    }
  }

  /** No output is fed by two different streams. Distinct outputs are the simplest case. */
  predicate OutputsOwned(proj: seq<ProjectionField>) {
    forall i, j | 0 <= i < |proj| && 0 <= j < |proj| && proj[i].output == proj[j].output ::
      proj[i].stream == proj[j].stream
  }

  predicate Disjoint(a: Participants, b: Participants) {
    a.Keys !! b.Keys
  }

  /** Participants without a stream show none of the outputs it owns. */
  lemma OwnOutput(data: Participants, init: seq<ProjectionField>, p: ProjectionField)
    requires p.stream !in data
    requires forall i | 0 <= i < |init| && init[i].output == p.output :: init[i].stream == p.stream
    ensures p.output !in Project(data, init)
  {
    if p.output in Project(data, init) {
      var i := ShownHasWinner(data, init, p.output);
    }
  }

  /** Projecting a union of disjoint participants is merging the projections of the parts. */
  lemma {:induction false} MergeLaw(a: Participants, b: Participants, proj: seq<ProjectionField>)
    requires Disjoint(a, b) && OutputsOwned(proj)
    ensures Project(a + b, proj) == Project(a, proj) + Project(b, proj)
    ensures Project(a, proj).Keys !! Project(b, proj).Keys
  {
    if proj != [] {
      var init, p := proj[..|proj| - 1], proj[|proj| - 1];
      MergeLaw(a, b, init);
      if Present(a, p) {
        OwnOutput(b, init, p);
      } else if Present(b, p) {
        OwnOutput(a, init, p);
      }
    }
  }

  ghost predicate Merges(proj: seq<ProjectionField>) {
    forall a, b | Disjoint(a, b) :: Project(a + b, proj) == Project(a, proj) + Project(b, proj)
  }

  function NextFor(proj: seq<ProjectionField>, i: nat, from: nat): (j: nat)
    requires i < from && exists j :: from <= j < |proj| && proj[j].output == proj[i].output
    ensures from <= j < |proj| && proj[j].output == proj[i].output
    decreases |proj| - from
  {
    if proj[from].output == proj[i].output then from else NextFor(proj, i, from + 1)
  }

  function LastFor(proj: seq<ProjectionField>, i: nat): (l: nat)
    requires i < |proj|
    ensures i <= l < |proj| && proj[l].output == proj[i].output
    ensures forall j | l < j < |proj| :: proj[j].output != proj[i].output
    decreases |proj| - i
  {
    if exists j :: i < j < |proj| && proj[j].output == proj[i].output then
      var j := NextFor(proj, i, i + 1);
      LastFor(proj, j)
    else i
  }

  lemma SplitOutputUnmerged(proj: seq<ProjectionField>, k: nat, l: nat)
    requires k < |proj| && l < |proj|
    requires proj[k].output == proj[l].output && proj[k].stream != proj[l].stream
    requires forall j | l < j < |proj| :: proj[j].output != proj[l].output
    ensures !Merges(proj)
  {
    var a: Participants := map[proj[l].stream := map[proj[l].field := Num("1")]];
    var b: Participants := map[proj[k].stream := map[proj[k].field := Num("2")]];
    var o := proj[l].output;
    assert Present(a + b, proj[l]) && Wins(a + b, proj, l);
    WinnerShown(a + b, proj, l);
    PresentEntryShows(b, proj, k);
    var w := ShownHasWinner(b, proj, o);
    WinnerShown(b, proj, w);
    assert proj[w].stream == proj[k].stream && proj[w].field == proj[k].field;
    assert Project(b, proj)[o] == Num("2");
    assert Disjoint(a, b);
    assert Project(a + b, proj)[o] != (Project(a, proj) + Project(b, proj))[o];
  }

  /** The merge law holds of a projection if and only if no output is fed by two streams. */
  lemma MergeLawIff(proj: seq<ProjectionField>)
    ensures Merges(proj) <==> OutputsOwned(proj)
  {
    if OutputsOwned(proj) {
      forall a, b | Disjoint(a, b) ensures Project(a + b, proj) == Project(a, proj) + Project(b, proj) {
        MergeLaw(a, b, proj);
      }
    } else {
      var i, j :| 0 <= i < |proj| && 0 <= j < |proj| && proj[i].output == proj[j].output
        && proj[i].stream != proj[j].stream;
      var l := LastFor(proj, i);
      var k := if proj[i].stream != proj[l].stream then i else j;
      assert LastFor(proj, i) == l && proj[k].stream != proj[l].stream && proj[k].output == proj[l].output;
      SplitOutputUnmerged(proj, k, l);
    }
  }

  // ---------- any number of parts ----------

  function Union(parts: seq<Participants>): Participants {
    if parts == [] then map[] else Union(parts[..|parts| - 1]) + parts[|parts| - 1]
  }

  function MergedDocuments(parts: seq<Participants>, proj: seq<ProjectionField>): Fields {
    if parts == [] then map[] else MergedDocuments(parts[..|parts| - 1], proj) + Project(parts[|parts| - 1], proj)
  }

  lemma {:induction false} UnionKeys(parts: seq<Participants>, s: string)
    ensures s in Union(parts) <==> exists i :: 0 <= i < |parts| && s in parts[i]
  {
    if parts != [] {
      UnionKeys(parts[..|parts| - 1], s);
    }
  }

  lemma {:induction false} EmptyProjection(proj: seq<ProjectionField>)
    ensures Project(map[], proj) == map[]
  {
    if proj != [] { EmptyProjection(proj[..|proj| - 1]); }
  }

  lemma {:induction false} MergeLawMany(parts: seq<Participants>, proj: seq<ProjectionField>)
    requires OutputsOwned(proj)
    requires forall i, j | 0 <= i < j < |parts| :: Disjoint(parts[i], parts[j])
    ensures Project(Union(parts), proj) == MergedDocuments(parts, proj)
  {
    if parts == [] {
      EmptyProjection(proj);
    } else {
      var init, last := parts[..|parts| - 1], parts[|parts| - 1];
      MergeLawMany(init, proj);
      forall s | s in last ensures s !in Union(init) {
        UnionKeys(init, s);
        assert forall i | 0 <= i < |init| :: Disjoint(init[i], last);
      }
      MergeLaw(Union(init), last, proj);
    }
  }

  /** A document made from some of the participants is part of the document made from all of them. */
  lemma PartialIsSubdocument(some: Participants, all: Participants, proj: seq<ProjectionField>)
    requires OutputsOwned(proj)
    requires some.Keys <= all.Keys && forall s | s in some :: some[s] == all[s]
    ensures Project(some, proj).Items <= Project(all, proj).Items
  {
    var others := all - some.Keys;
    assert some + others == all;
    MergeLaw(some, others, proj);
    var m, full := Project(some, proj), Project(all, proj);
    forall item | item in m.Items ensures item in full.Items {
      assert item.0 in full && full[item.0] == m[item.0];
    }
  }
}
