/**
 * The bookkeeping of the `TrackML` client: the optional default model id,
 * the ordered cache of deferred experiment records with its flush
 * threshold, and the requests each operation sends.
 *
 * Every operation is a function from the client state (and the server) to a
 * `Step`: the state afterwards together with the operation's value or its
 * error. As in the client, an error does not undo what happened before it:
 * a request already sent stays in the trace and a record already appended
 * stays in the cache.
 */
module Client {
  import opened Wrappers
  import opened PyValues
  import opened Wire

  /** The two ways an operation fails. */
  datatype Error =
    | AssertionFailed  // the server answered with `success` false while success is asserted
    | NoDefaultModel   // no truthy model id was passed and no default is set

  /**
   * The client state. `loggingParams` is `None` when no default model id is
   * set, and `Some(m)` when the default is `m` (which may itself be falsy).
   * `trace` holds every request sent, oldest first.
   */
  datatype TrackML = TrackML(
    loggingParams: Option<PyVal>,
    cache: seq<Record>,
    cacheSize: int,
    assertSuccess: bool,
    trace: seq<Request>)

  /** The state after an operation and what the operation returned or raised. */
  datatype Step<+T> = Step(state: TrackML, result: Result<T, Error>)

  /** What `send_cache` returns: `True` for an empty cache, otherwise the id the server gave the batch. */
  datatype Sent = NothingToSend | BatchId(id: int)

  /** The fields no operation other than the ones that say so may change. */
  predicate SameSettings(c: TrackML, d: TrackML)
  {
    c.cacheSize == d.cacheSize && c.assertSuccess == d.assertSuccess
  }

  /** Keeps the state and whether the operation succeeded, dropping its value. */
  function Forget<T>(s: Step<T>): (r: Step<()>)
    ensures r.state == s.state
    ensures r.result.Ok? <==> s.result.Ok?
    ensures r.result.Err? ==> r.result.error == s.result.error
  {
    Step(s.state, if s.result.Ok? then Ok(()) else Err(s.result.error))
  }

  /** A fresh client: empty cache, nothing sent, success asserted, default set iff a model id was passed. */
  function Init(modelId: PyVal, cacheSize: int): (c: TrackML)
    ensures c.cache == [] && c.trace == []
    ensures c.cacheSize == cacheSize && c.assertSuccess
    ensures c.loggingParams.Some? <==> modelId != PyNone
    ensures c.loggingParams.Some? ==> c.loggingParams.value == modelId
  {
    var c := TrackML(None, [], cacheSize, true, []);
    if modelId != PyNone then SetModel(c, modelId) else c
  }

  /** Sets the default model id; nothing else changes. */
  function SetModel(c: TrackML, modelId: PyVal): (d: TrackML)
    ensures d.loggingParams == Some(modelId)
    ensures d.cache == c.cache && d.trace == c.trace && SameSettings(c, d)
  {
    c.(loggingParams := Some(modelId))
  }

  /** Clears the default model id; nothing else changes. */
  function ResetModel(c: TrackML): (d: TrackML)
    ensures d.loggingParams == None
    ensures d.cache == c.cache && d.trace == c.trace && SameSettings(c, d)
  {
    c.(loggingParams := None)
  }

  /**
   * Sends one request and checks the answer: with success asserted, a
   * response whose `success` is false is an error; otherwise the result is
   * the response's id, or 0 when it has none.
   */
  function PostAndAssert(c: TrackML, server: Server, path: string, payload: Payload): (r: Step<int>)
    ensures r.state == c.(trace := c.trace + [Request(path, payload)])
    ensures r.result.Err? <==> c.assertSuccess && !server(r.state.trace).success
    ensures r.result.Err? ==> r.result.error == AssertionFailed
    ensures r.result.Ok? ==> r.result.value == ResponseId(server(r.state.trace))
  {
    var trace := c.trace + [Request(path, payload)];
    var resp := server(trace);
    if c.assertSuccess && !resp.success then
      Step(c.(trace := trace), Err(AssertionFailed))
    else
      Step(c.(trace := trace), Ok(ResponseId(resp)))
  }

  /**
   * Creates a model under a project. Exactly one request is sent; on success
   * the default model id is cleared, and on a failed assertion it is left as
   * it was. The cache is never touched.
   */
  function NewModel(c: TrackML, server: Server, name: string, projectId: PyVal, description: PyVal): (r: Step<int>)
    ensures r.state.trace == c.trace + [Request(CreateModelPath, ModelForm(name, projectId, description))]
    ensures r.state.cache == c.cache && SameSettings(c, r.state)
    ensures r.result.Ok? <==> !c.assertSuccess || server(r.state.trace).success
    ensures r.result.Ok? ==> r.state.loggingParams == None
    ensures r.result.Ok? ==> r.result.value == ResponseId(server(r.state.trace))
    ensures r.result.Err? ==> r.result.error == AssertionFailed && r.state.loggingParams == c.loggingParams
  {
    var s := PostAndAssert(c, server, CreateModelPath, ModelForm(name, projectId, description));
    if s.result.Err? then s else Step(ResetModel(s.state), s.result)
  }

  /** Creates a project, with the same effect on the default model id as `NewModel`. */
  function NewProject(c: TrackML, server: Server, name: string): (r: Step<int>)
    ensures r.state.trace == c.trace + [Request(CreateProjectPath, ProjectForm(name))]
    ensures r.state.cache == c.cache && SameSettings(c, r.state)
    ensures r.result.Ok? <==> !c.assertSuccess || server(r.state.trace).success
    ensures r.result.Ok? ==> r.state.loggingParams == None
    ensures r.result.Ok? ==> r.result.value == ResponseId(server(r.state.trace))
    ensures r.result.Err? ==> r.result.error == AssertionFailed && r.state.loggingParams == c.loggingParams
  {
    var s := PostAndAssert(c, server, CreateProjectPath, ProjectForm(name));
    if s.result.Err? then s else Step(ResetModel(s.state), s.result)
  }

  /**
   * `model_id or logging_params.get(...)`: a truthy explicit id is used as
   * is; a falsy one (None, 0, "") falls back to the stored default, whatever
   * that default is; with no default stored, resolution fails.
   */
  function ResolveModelId(modelId: PyVal, loggingParams: Option<PyVal>): (r: Result<PyVal, Error>)
    ensures r.Ok? <==> Truthy(modelId) || loggingParams.Some?
    ensures r.Err? ==> r.error == NoDefaultModel
    ensures r.Ok? ==> r.value == modelId || Some(r.value) == loggingParams
    ensures r.Ok? && r.value != modelId ==> !Truthy(modelId)
    ensures r.Ok? && !Truthy(modelId) ==> Some(r.value) == loggingParams
  {
    if Truthy(modelId) then Ok(modelId)
    else
      match loggingParams
      case Some(m) => Ok(m)
      case None => Err(NoDefaultModel)
  }

  /** The record an experiment is logged as, its model id resolved against the state's default. */
  function ExperimentRecord(c: TrackML, parameters: Mapping, scores: Mapping, modelId: PyVal): (r: Result<Record, Error>)
    ensures r.Ok? <==> ResolveModelId(modelId, c.loggingParams).Ok?
    ensures r.Ok? ==> r.value.parameters == parameters && r.value.scores == scores
    ensures r.Ok? ==> r.value.modelId == ResolveModelId(modelId, c.loggingParams).value
    ensures r.Err? ==> r.error == NoDefaultModel
  {
    match ResolveModelId(modelId, c.loggingParams)
    case Ok(m) => Ok(Record(m, parameters, scores))
    case Err(e) => Err(e)
  }

  /**
   * Logs one experiment immediately. When the model id resolves, exactly one
   * `api/create_experiment` request carrying the resolved record is sent;
   * when it does not, nothing is sent. The default and the cache are never
   * touched.
   */
  function Log(c: TrackML, server: Server, parameters: Mapping, scores: Mapping, modelId: PyVal): (r: Step<int>)
    ensures r.state.loggingParams == c.loggingParams && r.state.cache == c.cache && SameSettings(c, r.state)
    ensures ExperimentRecord(c, parameters, scores, modelId).Err? ==> r == Step(c, Err(NoDefaultModel))
    ensures ExperimentRecord(c, parameters, scores, modelId).Ok? ==>
      r.state.trace == c.trace + [Request(CreateExperimentPath, ExperimentForm(ExperimentRecord(c, parameters, scores, modelId).value))]
    ensures r.result.Err? && r.state.trace != c.trace ==> r.result.error == AssertionFailed
    ensures ExperimentRecord(c, parameters, scores, modelId).Ok? ==>
      (r.result.Err? <==> c.assertSuccess && !server(r.state.trace).success)
    ensures r.result.Ok? ==> r.result.value == ResponseId(server(r.state.trace))
  {
    match ExperimentRecord(c, parameters, scores, modelId)
    case Err(e) => Step(c, Err(e))
    case Ok(rec) => PostAndAssert(c, server, CreateExperimentPath, ExperimentForm(rec))
  }

  /**
   * Sends the whole cache as one batch. An empty cache sends nothing and
   * reports `NothingToSend`. Otherwise one `api/create_experiments` request
   * carries the cache in insertion order; the cache is emptied on success and
   * left exactly as it was when the assertion fails.
   */
  function SendCache(c: TrackML, server: Server): (r: Step<Sent>)
    ensures r.state.loggingParams == c.loggingParams && SameSettings(c, r.state)
    ensures c.cache == [] ==> r == Step(c, Ok(NothingToSend))
    ensures c.cache != [] ==> r.state.trace == c.trace + [Request(CreateExperimentsPath, ExperimentsForm(c.cache))]
    ensures c.cache != [] && r.result.Ok? ==> r.state.cache == [] && r.result.value == BatchId(ResponseId(server(r.state.trace)))
    ensures r.result.Err? ==> r.result.error == AssertionFailed && r.state.cache == c.cache
    ensures r.result.Err? <==> c.cache != [] && c.assertSuccess && !server(r.state.trace).success
  {
    if |c.cache| == 0 then Step(c, Ok(NothingToSend))
    else
      var s := PostAndAssert(c, server, CreateExperimentsPath, ExperimentsForm(c.cache));
      match s.result
      case Err(e) => Step(s.state, Err(e))
      case Ok(id) => Step(s.state.(cache := []), Ok(BatchId(id)))
  }

  /**
   * Appends one resolved record to the end of the cache and, once the cache
   * has reached `cacheSize`, flushes it with `SendCache`. Below the threshold
   * nothing is sent and every earlier entry keeps its place. A failed model
   * id resolution changes nothing; a failed flush leaves the new record in
   * the cache.
   */
  function DeferredLog(c: TrackML, server: Server, parameters: Mapping, scores: Mapping, modelId: PyVal): (r: Step<()>)
    ensures r.state.loggingParams == c.loggingParams && SameSettings(c, r.state)
    ensures ExperimentRecord(c, parameters, scores, modelId).Err? ==> r == Step(c, Err(NoDefaultModel))
    ensures ExperimentRecord(c, parameters, scores, modelId).Ok? ==>
      var queued := c.cache + [ExperimentRecord(c, parameters, scores, modelId).value];
      if |queued| < c.cacheSize then
        r == Step(c.(cache := queued), Ok(()))
      else
        && r.state.trace == c.trace + [Request(CreateExperimentsPath, ExperimentsForm(queued))]
        && (r.result.Ok? ==> r.state.cache == [])
        && (r.result.Err? ==> r.state.cache == queued && r.result.error == AssertionFailed)
        && (r.result.Err? <==> c.assertSuccess && !server(r.state.trace).success)
    ensures r.result.Ok? ==> |r.state.cache| < r.state.cacheSize || r.state.cache == []
  {
    match ExperimentRecord(c, parameters, scores, modelId)
    case Err(e) => Step(c, Err(e))
    case Ok(rec) =>
      var d := c.(cache := c.cache + [rec]);
      if |d.cache| >= d.cacheSize then
        Forget(SendCache(d, server))
      else
        Step(d, Ok(()))
  }
}
