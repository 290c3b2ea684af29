/** The engine's step (internal/engine/join.go): is the row complete, and if so what is its join? */
module Engine {
  import opened Base
  import opened Json
  import opened JoinConfig
  import opened Projection
  import opened Protocol

  /** The row still incomplete, or the document to publish; neither when there is no row. */
  datatype ProcessResult = ProcessResult(state: Option<Row>, joined: string)

  predicate IsComplete(join: JoinConfig, state: Option<Row>) {
    state.Some? && |state.value.cells| >= join.N()
  }

  function Process(join: JoinConfig, decode: Decoder, state: Option<Row>): Option<ProcessResult> {
    if state.None? then Some(ProcessResult(None, ""))
    else if !IsComplete(join, state) then Some(ProcessResult(state, ""))
    else match Applied(decode, state.value.cells, join.projection)
      case None => None
      case Some(joined) => Some(ProcessResult(None, joined))
  }

  /** The row holds cells of configured streams only. */
  predicate OnlyConfigured(join: JoinConfig, state: Option<Row>) {
    state.Some? ==> state.value.cells.Keys <= join.Streams()
  }

  /**
   * With no stream listed twice and no stray streams in the row, a document comes out exactly when every configured
   * stream is present and every payload decodes; the step fails exactly when all are present and one does not.
   */
  lemma JoinedIffAllPresent(join: JoinConfig, decode: Decoder, state: Option<Row>)
    requires join.DistinctStreams() && OnlyConfigured(join, state)
    ensures var r := Process(join, decode, state);
      var all := state.Some? && state.value.cells.Keys == join.Streams();
      && (r.Some? && r.value.joined != "" <==> all && Decodes(decode, state.value.cells))
      && (r.None? <==> all && !Decodes(decode, state.value.cells))
  {
    if state.Some? {
      var cells := state.value.cells;
      CompleteMeansAllStreamsIff(join);
      assert |cells.Keys| >= join.N() <==> cells.Keys == join.Streams();
      assert |cells| == |cells.Keys|;
      if Decodes(decode, cells) {
        WriteStart(Obj(Project(Decoded(decode, cells), join.projection)), "");
      }
    }
  }

  /** No projection entry of a validated configuration is skipped for want of its stream on a complete row. */
  lemma NoStreamMissing(join: JoinConfig, state: Option<Row>, p: ProjectionField)
    requires Valid(join) && join.DistinctStreams() && OnlyConfigured(join, state)
    requires IsComplete(join, state) && p in join.projection
    ensures p.stream in state.value.cells
  {
    CompleteMeansAllStreamsIff(join);
    var cells := state.value.cells;
    assert |cells| == |cells.Keys|;
    assert GoodEntry(join, p);
    assert cells.Keys == join.Streams();
  }
}
