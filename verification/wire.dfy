/**
 * What the client sends to the TrackML server and what it gets back.
 * The HTTP transport itself (URL composition, form encoding, JSON decoding)
 * is abstracted into a server oracle: every POST appends one `Request` to a
 * trace, and the server answers with an arbitrary `Response` that may depend
 * on everything sent so far.
 */
module Wire {
  import opened Wrappers
  import opened PyValues

  /** Free-form key/value mapping (hyperparameters or scores); the client never looks inside. */
  type Mapping = map<string, string>

  /** One experiment: the model it belongs to, its parameters and its scores. */
  datatype Record = Record(modelId: PyVal, parameters: Mapping, scores: Mapping)

  /** The form parameters of each API call the client makes. */
  datatype Payload =
    | ProjectForm(name: string)
    | ModelForm(name: string, projectId: PyVal, comment: PyVal)
    | ExperimentForm(experiment: Record)
    | ExperimentsForm(experiments: seq<Record>)

  datatype Request = Request(path: string, payload: Payload)

  /** The decoded JSON body: the `success` flag and the optional `id`. */
  datatype Response = Response(success: bool, id: Option<int>)

  /** The server: the answer to the last request of the trace it is given. */
  type Server = seq<Request> -> Response

  const CreateProjectPath: string := "api/create_project"
  const CreateModelPath: string := "api/create_model"
  const CreateExperimentPath: string := "api/create_experiment"
  const CreateExperimentsPath: string := "api/create_experiments"

  /** `int(response.get("id", 0))`: the id the server reported, or 0 when it reported none. */
  function ResponseId(resp: Response): (n: int)
    ensures resp.id.Some? ==> n == resp.id.value
    ensures resp.id.None? ==> n == 0
  {
    match resp.id
    case Some(i) => i
    case None => 0
  }

  /** The experiment records a request carries as a batch (none for any other request). */
  function BatchOf(req: Request): seq<Record>
  {
    match req.payload
    case ExperimentsForm(experiments) => experiments
    case _ => []
  }

  /** Every record delivered in batch requests along a trace, in the order they were sent. */
  function Batched(trace: seq<Request>): seq<Record>
  {
    if trace == [] then [] else Batched(trace[..|trace| - 1]) + BatchOf(trace[|trace| - 1])
  }

  /** Sending one request extends the batched records by exactly that request's batch. */
  lemma BatchedSnoc(t: seq<Request>, req: Request)
    ensures Batched(t + [req]) == Batched(t) + BatchOf(req)
  {
    assert (t + [req])[..|t + [req]| - 1] == t;
  }
}
