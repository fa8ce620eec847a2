/**
 * Sequences of client calls, as a caller's program issues them, and the
 * properties that hold across a whole session: the cache stays below its
 * threshold, no deferred record is ever lost or reordered, the trace only
 * grows, and deferred logs below the threshold send nothing.
 */
module Session {
  import opened Wrappers
  import opened PyValues
  import opened Wire
  import opened Client

  /** One call on the client's public interface. */
  datatype Call =
    | NewProjectCall(name: string)
    | NewModelCall(name: string, projectId: PyVal, description: PyVal)
    | SetModelCall(modelId: PyVal)
    | ResetModelCall
    | LogCall(parameters: Mapping, scores: Mapping, modelId: PyVal)
    | DeferredLogCall(parameters: Mapping, scores: Mapping, modelId: PyVal)
    | SendCacheCall

  /** Performs one call, keeping only whether it succeeded. */
  function Apply(c: TrackML, server: Server, call: Call): Step<()>
  {
    match call
    case NewProjectCall(name) => Forget(NewProject(c, server, name))
    case NewModelCall(name, projectId, description) => Forget(NewModel(c, server, name, projectId, description))
    case SetModelCall(modelId) => Step(SetModel(c, modelId), Ok(()))
    case ResetModelCall => Step(ResetModel(c), Ok(()))
    case LogCall(parameters, scores, modelId) => Forget(Log(c, server, parameters, scores, modelId))
    case DeferredLogCall(parameters, scores, modelId) => DeferredLog(c, server, parameters, scores, modelId)
    case SendCacheCall => Forget(SendCache(c, server))
  }

  /** Performs the calls in order, stopping at the first one that raises. */
  function Run(c: TrackML, server: Server, calls: seq<Call>): Step<()>
    decreases |calls|
  {
    if calls == [] then Step(c, Ok(()))
    else
      var s := Apply(c, server, calls[0]);
      if s.result.Err? then s else Run(s.state, server, calls[1..])
  }

  /** The cache invariant: below the flush threshold, or empty. */
  predicate Settled(c: TrackML)
  {
    |c.cache| < c.cacheSize || c.cache == []
  }

  /** Every record handed to the client for batching: those already sent in batches, then those still cached. */
  function Pending(c: TrackML): seq<Record>
  {
    Batched(c.trace) + c.cache
  }

  /** A fresh client is settled, whatever its threshold. */
  lemma InitSettled(modelId: PyVal, cacheSize: int)
    ensures Settled(Init(modelId, cacheSize))
    ensures Pending(Init(modelId, cacheSize)) == []
  {
  }

  /** A successful call keeps the cache invariant; `DeferredLog` and `SendCache` establish it outright. */
  lemma ApplySettled(c: TrackML, server: Server, call: Call)
    requires Settled(c) || call.DeferredLogCall? || call.SendCacheCall?
    ensures Apply(c, server, call).result.Ok? ==> Settled(Apply(c, server, call).state)
  {
  }

  /** Every call leaves the threshold and the assertion flag as they were, and only appends to the trace. */
  lemma ApplyExtends(c: TrackML, server: Server, call: Call)
    ensures SameSettings(c, Apply(c, server, call).state)
    ensures c.trace <= Apply(c, server, call).state.trace
    ensures |Apply(c, server, call).state.trace| <= |c.trace| + 1
  {
  }

  /** Sending a request that carries no batch leaves the pending records unchanged. */
  lemma PendingAfterSingle(c: TrackML, d: TrackML, req: Request)
    requires !req.payload.ExperimentsForm?
    requires d.trace == c.trace + [req] && d.cache == c.cache
    ensures Pending(d) == Pending(c)
  {
    BatchedSnoc(c.trace, req);
  }

  /** Sending the cache as a batch and then emptying it leaves the pending records unchanged. */
  lemma PendingAfterFlush(c: TrackML, d: TrackML)
    requires d.trace == c.trace + [Request(CreateExperimentsPath, ExperimentsForm(c.cache))] && d.cache == []
    ensures Pending(d) == Pending(c)
  {
    BatchedSnoc(c.trace, Request(CreateExperimentsPath, ExperimentsForm(c.cache)));
  }

  /** A successful deferred log appends exactly its resolved record to the pending records. */
  lemma PendingAfterDeferredLog(c: TrackML, server: Server, parameters: Mapping, scores: Mapping, modelId: PyVal)
    requires DeferredLog(c, server, parameters, scores, modelId).result.Ok?
    ensures Pending(DeferredLog(c, server, parameters, scores, modelId).state)
      == Pending(c) + [ExperimentRecord(c, parameters, scores, modelId).value]
  {
    var rec := ExperimentRecord(c, parameters, scores, modelId).value;
    var d := c.(cache := c.cache + [rec]);
    if |d.cache| >= d.cacheSize {
      PendingAfterFlush(d, DeferredLog(c, server, parameters, scores, modelId).state);
    }
  }

  /**
   * A successful call neither drops nor reorders any pending record: a
   * deferred log appends exactly its resolved record, every other call
   * leaves the pending records as they were.
   */
  lemma ApplyPending(c: TrackML, server: Server, call: Call)
    ensures Apply(c, server, call).result.Ok? ==>
      if call.DeferredLogCall? then
        Pending(Apply(c, server, call).state)
          == Pending(c) + [ExperimentRecord(c, call.parameters, call.scores, call.modelId).value]
      else
        Pending(Apply(c, server, call).state) == Pending(c)
  {
    var s := Apply(c, server, call);
    if s.result.Ok? {
      match call
      case DeferredLogCall(parameters, scores, modelId) =>
        PendingAfterDeferredLog(c, server, parameters, scores, modelId);
      case SendCacheCall =>
        if c.cache != [] {
          PendingAfterFlush(c, s.state);
        }
      case NewProjectCall(name) =>
        PendingAfterSingle(c, s.state, Request(CreateProjectPath, ProjectForm(name)));
      case NewModelCall(name, projectId, description) =>
        PendingAfterSingle(c, s.state, Request(CreateModelPath, ModelForm(name, projectId, description)));
      case LogCall(parameters, scores, modelId) =>
        if ExperimentRecord(c, parameters, scores, modelId).Ok? {
          var rec := ExperimentRecord(c, parameters, scores, modelId).value;
          PendingAfterSingle(c, s.state, Request(CreateExperimentPath, ExperimentForm(rec)));
        }
      case _ =>
    }
  }

  /** A session of successful calls, started settled, ends settled. */
  lemma {:induction false} RunSettled(c: TrackML, server: Server, calls: seq<Call>)
    requires Settled(c)
    ensures Run(c, server, calls).result.Ok? ==> Settled(Run(c, server, calls).state)
    decreases |calls|
  {
    if calls != [] {
      var s := Apply(c, server, calls[0]);
      ApplySettled(c, server, calls[0]);
      if s.result.Ok? {
        RunSettled(s.state, server, calls[1..]);
      }
    }
  }

  /** Whatever happens, even an error, a session only appends to the trace and keeps the settings. */
  lemma {:induction false} RunExtends(c: TrackML, server: Server, calls: seq<Call>)
    ensures c.trace <= Run(c, server, calls).state.trace
    ensures |Run(c, server, calls).state.trace| <= |c.trace| + |calls|
    ensures SameSettings(c, Run(c, server, calls).state)
    decreases |calls|
  {
    if calls != [] {
      var s := Apply(c, server, calls[0]);
      ApplyExtends(c, server, calls[0]);
      if s.result.Ok? {
        RunExtends(s.state, server, calls[1..]);
      }
    }
  }

  /** In a session of successful calls no deferred record is lost or reordered: the earlier pending records are a prefix of the later ones. */
  lemma {:induction false} RunPending(c: TrackML, server: Server, calls: seq<Call>)
    ensures Run(c, server, calls).result.Ok? ==> Pending(c) <= Pending(Run(c, server, calls).state)
    decreases |calls|
  {
    if calls != [] {
      var s := Apply(c, server, calls[0]);
      ApplyPending(c, server, calls[0]);
      if s.result.Ok? {
        RunPending(s.state, server, calls[1..]);
      }
    }
  }

  /** Each call is a deferred log whose model id resolves against the default `loggingParams`. */
  predicate AllDeferredResolvable(loggingParams: Option<PyVal>, calls: seq<Call>)
  {
    forall i :: 0 <= i < |calls| ==>
      calls[i].DeferredLogCall? && ResolveModelId(calls[i].modelId, loggingParams).Ok?
  }

  /** The records a run of deferred logs queues, in call order. */
  function Queued(loggingParams: Option<PyVal>, calls: seq<Call>): seq<Record>
    requires AllDeferredResolvable(loggingParams, calls)
    decreases |calls|
  {
    if calls == [] then []
    else
      [Record(ResolveModelId(calls[0].modelId, loggingParams).value, calls[0].parameters, calls[0].scores)]
        + Queued(loggingParams, calls[1..])
  }

  /**
   * Deferred logs that keep the cache below its threshold send nothing: they
   * all succeed, the trace and the default are unchanged, and the cache is
   * the old cache followed by one record per call, in call order.
   */
  lemma {:induction false} DeferredBelowThreshold(c: TrackML, server: Server, calls: seq<Call>)
    requires AllDeferredResolvable(c.loggingParams, calls)
    requires |c.cache| + |calls| < c.cacheSize
    ensures Run(c, server, calls).result.Ok?
    ensures Run(c, server, calls).state.trace == c.trace
    ensures Run(c, server, calls).state.loggingParams == c.loggingParams
    ensures Run(c, server, calls).state.cache == c.cache + Queued(c.loggingParams, calls)
    decreases |calls|
  {
    if calls != [] {
      var call := calls[0];
      assert call.DeferredLogCall?;
      var rec := Record(ResolveModelId(call.modelId, c.loggingParams).value, call.parameters, call.scores);
      var s := Apply(c, server, call);
      assert s == Step(c.(cache := c.cache + [rec]), Ok(()));
      assert AllDeferredResolvable(s.state.loggingParams, calls[1..]) by {
        forall i | 0 <= i < |calls[1..]|
          ensures calls[1..][i].DeferredLogCall? && ResolveModelId(calls[1..][i].modelId, c.loggingParams).Ok?
        {
          assert calls[1..][i] == calls[i + 1];
        }
      }
      DeferredBelowThreshold(s.state, server, calls[1..]);
      assert c.cache + [rec] + Queued(c.loggingParams, calls[1..]) == c.cache + Queued(c.loggingParams, calls);
    }
  }

  /**
   * The deferred log that makes the cache reach (or pass) its threshold
   * flushes it: one batch with the earlier entries followed by the new
   * record is sent; the flush fails exactly when success is asserted and
   * the server reports failure, and otherwise the cache is empty.
   */
  lemma FlushOnFull(c: TrackML, server: Server, parameters: Mapping, scores: Mapping, modelId: PyVal)
    requires ResolveModelId(modelId, c.loggingParams).Ok?
    requires |c.cache| + 1 >= c.cacheSize
    ensures var rec := Record(ResolveModelId(modelId, c.loggingParams).value, parameters, scores);
      var r := DeferredLog(c, server, parameters, scores, modelId);
      && r.state.trace == c.trace + [Request(CreateExperimentsPath, ExperimentsForm(c.cache + [rec]))]
      && (r.result.Err? <==> c.assertSuccess && !server(r.state.trace).success)
      && (r.result.Ok? ==> r.state.cache == [])
  {
  }

  /**
   * A failed automatic flush keeps every queued record, the new one
   * included, so the cache is at or past its threshold and the cache
   * invariant is broken until the next successful flush.
   */
  lemma FailedFlushLeavesCacheFull(c: TrackML, server: Server, parameters: Mapping, scores: Mapping, modelId: PyVal)
    requires c.assertSuccess
    requires ResolveModelId(modelId, c.loggingParams).Ok?
    requires |c.cache| + 1 >= c.cacheSize
    requires !server(DeferredLog(c, server, parameters, scores, modelId).state.trace).success
    ensures var rec := Record(ResolveModelId(modelId, c.loggingParams).value, parameters, scores);
      DeferredLog(c, server, parameters, scores, modelId) == Step(
        DeferredLog(c, server, parameters, scores, modelId).state, Err(AssertionFailed))
      && DeferredLog(c, server, parameters, scores, modelId).state.cache == c.cache + [rec]
    ensures |DeferredLog(c, server, parameters, scores, modelId).state.cache| >= c.cacheSize
    ensures !Settled(DeferredLog(c, server, parameters, scores, modelId).state)
  {
  }

  /** Flushing twice: the second flush finds an empty cache and sends nothing. */
  lemma SendCacheTwice(c: TrackML, server: Server)
    requires SendCache(c, server).result.Ok?
    ensures var d := SendCache(c, server).state;
      SendCache(d, server) == Step(d, Ok(NothingToSend))
  {
  }

  /**
   * Setting a default makes every later log without a truthy id use it,
   * and a truthy explicit id overrides it for that call only.
   */
  lemma SetModelThenLog(c: TrackML, server: Server, m: PyVal, explicit: PyVal, parameters: Mapping, scores: Mapping)
    ensures var d := SetModel(c, m);
      var s := Log(d, server, parameters, scores, explicit);
      && s.state.trace == c.trace + [Request(CreateExperimentPath,
           ExperimentForm(Record(if Truthy(explicit) then explicit else m, parameters, scores)))]
      && s.state.loggingParams == Some(m)
  {
  }

  /** Creating a model clears the default, so a following log without a truthy id fails and sends nothing. */
  lemma NewModelThenLogFails(c: TrackML, server: Server, name: string, projectId: PyVal, description: PyVal,
                             parameters: Mapping, scores: Mapping, explicit: PyVal)
    requires NewModel(c, server, name, projectId, description).result.Ok?
    requires !Truthy(explicit)
    ensures var d := NewModel(c, server, name, projectId, description).state;
      Log(d, server, parameters, scores, explicit) == Step(d, Err(NoDefaultModel))
  {
  }

  /** Creating a project clears the default too, with the same effect on a following log. */
  lemma NewProjectThenLogFails(c: TrackML, server: Server, name: string,
                               parameters: Mapping, scores: Mapping, explicit: PyVal)
    requires NewProject(c, server, name).result.Ok?
    requires !Truthy(explicit)
    ensures var d := NewProject(c, server, name).state;
      Log(d, server, parameters, scores, explicit) == Step(d, Err(NoDefaultModel))
  {
  }

  /** After `ResetModel`, logging without a truthy id fails and sends nothing. */
  lemma ResetModelThenLogFails(c: TrackML, server: Server, parameters: Mapping, scores: Mapping, explicit: PyVal)
    requires !Truthy(explicit)
    ensures Log(ResetModel(c), server, parameters, scores, explicit) == Step(ResetModel(c), Err(NoDefaultModel))
  {
  }
  /**
   * Deferred logs below the threshold followed by an explicit flush send
   * exactly one batch: the earlier cache and then every new record, in call
   * order.
   */
  lemma DeferredThenSendCache(c: TrackML, server: Server, calls: seq<Call>)
    requires AllDeferredResolvable(c.loggingParams, calls)
    requires |c.cache| + |calls| < c.cacheSize
    requires c.cache + Queued(c.loggingParams, calls) != []
    ensures var s := SendCache(Run(c, server, calls).state, server);
      s.state.trace == c.trace + [Request(CreateExperimentsPath, ExperimentsForm(c.cache + Queued(c.loggingParams, calls)))]
  {
    DeferredBelowThreshold(c, server, calls);
  }

  /**
   * A worked example: default model 1,
   * threshold 2; the second deferred log sends both records in one batch
   * and leaves the cache empty.
   */
  lemma TwoDeferredLogsFlush(p1: Mapping, s1: Mapping, p2: Mapping, s2: Mapping)
    ensures var server: Server := (t: seq<Request>) => Response(true, None);
      var c := Init(Int(1), 2);
      var a := DeferredLog(c, server, p1, s1, PyNone);
      var b := DeferredLog(a.state, server, p2, s2, PyNone);
      && a.state.cache == [Record(Int(1), p1, s1)] && a.state.trace == []
      && b.result.Ok? && b.state.cache == []
      && b.state.trace == [Request(CreateExperimentsPath, ExperimentsForm([Record(Int(1), p1, s1), Record(Int(1), p2, s2)]))]
  {
    var server: Server := (t: seq<Request>) => Response(true, None);
    var c := Init(Int(1), 2);
    assert c.loggingParams == Some(Int(1));
    var a := DeferredLog(c, server, p1, s1, PyNone);
    assert a.state.cache == [Record(Int(1), p1, s1)];
    var b := DeferredLog(a.state, server, p2, s2, PyNone);
    assert a.state.cache + [Record(Int(1), p2, s2)] == [Record(Int(1), p1, s1), Record(Int(1), p2, s2)];
    assert server(b.state.trace).success;
  }
}
