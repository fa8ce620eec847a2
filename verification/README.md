# TrackML client bookkeeping, in Dafny

This project models the `TrackML` client class of the TrackML Python client
library. The client logs machine-learning experiments (a model id,
hyperparameters and scores) to a TrackML server. It keeps three pieces of
state:

- an optional default model id (`logging_params`);
- an ordered cache of deferred experiment records;
- the cache's flush threshold (`cache_size`, 20 by default).

The HTTP transport is abstracted. Every POST appends a `Request` (path and
form payload) to a `trace` field of the client state. The server is an
arbitrary function from the trace so far to a `Response` (`success` flag and
optional `id`), so the proofs hold for every server behaviour.

Files:

- `wrappers.dfy`: `Option` and `Result`.
- `pyvalues.dfy`: the Python values a model id can take (`None`, an integer, a string) and Python truthiness.
- `wire.dfy`: records, payloads, requests, responses, the four API paths, and `Batched`, the records a trace has delivered in batch requests.
- `client.dfy`: the client state and its operations. Each operation returns a `Step`: the state afterwards plus the value or the error. As in Python, an error does not undo what came before it. A request already sent stays in the trace, and a record already appended stays in the cache.
- `session.dfy`: sequences of calls (`Run`) and the properties that hold across them.

Model-id resolution follows the code, `model_id or self.logging_params.get(...)`:

- a truthy explicit id is used;
- a falsy one (`None`, `0`, `""`) falls back to the stored default, even when that default is itself falsy;
- with no stored default, the call fails with `NoDefaultModel`. In Python this is the `AttributeError` from `None.get`.

The docstring of `log` (trackml/client.py:106-107) says the default is used when the model id is `None`. The code also falls back to the default for `0` and `""`, because it uses `or`. The model follows the code.

`send_cache` returns `True` for an empty cache (`Sent.NothingToSend` here) and otherwise the integer id from `_post_and_assert`.

## Model

| member | source | states |
|---|---|---|
| Client.Init | trackml/client.py:39-51 | a new client has an empty cache, has sent nothing, asserts success, keeps the given threshold (the caller passes the keyword default 20 explicitly), and has a default model id exactly when a non-None id was passed, equal to that id |
| Client.SetModel | trackml/client.py:91-95 | the default becomes the given id; cache, trace and settings are unchanged |
| Client.ResetModel | trackml/client.py:97-101 | the default is cleared; cache, trace and settings are unchanged |
| Wire.ResponseId | trackml/client.py:62 | the id the server reported, or 0 when the response carries none |
| Client.PostAndAssert | trackml/client.py:53-62 | exactly one request is appended to the trace and nothing else changes; the call fails exactly when success is asserted and the response's success is false; otherwise it returns the response id or 0 |
| Client.NewModel | trackml/client.py:70-79 | one `api/create_model` request with name, project id and comment; the cache is untouched; on success the default is cleared and the id is returned; on a failed assertion the default is as before |
| Client.NewProject | trackml/client.py:81-89 | one `api/create_project` request; on success the default is cleared and the id is returned; on a failed assertion the default is as before; the cache is untouched |
| Client.ResolveModelId | trackml/client.py:110 | resolution succeeds iff the explicit id is truthy or a default is stored; a truthy explicit id is used as is; a falsy one always yields the stored default; failure is `NoDefaultModel` |
| Client.ExperimentRecord | trackml/client.py:121-125 | the record carries the given parameters and scores and the resolved model id, and fails exactly when resolution fails |
| Client.Log | trackml/client.py:103-114 | with a resolvable id, exactly one `api/create_experiment` request carrying the resolved record, failing exactly when success is asserted and the server reports failure, otherwise returning the response id; with no resolvable id, nothing is sent and the state is unchanged; the default and the cache are never modified |
| Client.SendCache | trackml/client.py:131-140 | an empty cache sends nothing and returns the success indicator; otherwise one `api/create_experiments` request carries the whole cache in insertion order, the cache is emptied on success, and it is left exactly as it was on a failed assertion |
| Client.DeferredLog | trackml/client.py:116-128 | the resolved record is appended to the end of the cache; below the threshold nothing is sent and earlier entries keep their order; at the threshold one batch with the whole cache is sent, failing exactly when success is asserted and the server reports failure, emptying the cache on success and keeping it (new record included) on failure; after success the cache is below the threshold or empty |
| Session.InitSettled | trackml/client.py:46-51 | a fresh client satisfies the cache invariant and has no pending records |
| Session.ApplySettled | trackml/client.py:116-140 | a successful call keeps the cache invariant (below the threshold or empty); a deferred log or flush establishes it from any state |
| Session.ApplyExtends | trackml/client.py:53-62 | every call keeps threshold and assertion flag and appends at most one request to the trace |
| Session.ApplyPending | trackml/client.py:116-140 | a successful deferred log appends exactly its record to the records sent in batches plus those cached; every other successful call leaves that sequence unchanged |
| Session.PendingAfterDeferredLog | trackml/client.py:116-140 | a successful deferred log adds exactly its resolved record at the end of the records sent in batches plus those cached, whether or not it flushed |
| Session.RunSettled | trackml/client.py:116-140 | a session of successful calls that starts settled ends settled |
| Session.RunExtends | trackml/client.py:53-62 | any session, even one that fails, only appends to the trace (at most one request per call) and keeps the settings |
| Session.RunPending | trackml/client.py:116-140 | across a successful session no deferred record is lost or reordered: the earlier pending records are a prefix of the later ones |
| Session.DeferredBelowThreshold | trackml/client.py:121-128 | deferred logs that keep the cache below the threshold all succeed and send nothing; the cache becomes the old cache followed by one record per call in call order |
| Session.DeferredThenSendCache | trackml/client.py:116-140 | deferred logs below the threshold followed by an explicit flush send one batch holding the earlier cache and then every new record in call order |
| Session.FlushOnFull | trackml/client.py:127-139 | the deferred log that makes the cache reach or pass its threshold sends one batch of the earlier entries followed by the new record; it fails exactly when success is asserted and the server reports failure, and otherwise leaves the cache empty |
| Session.FailedFlushLeavesCacheFull | trackml/client.py:127-139 | when that automatic flush fails, the call raises `AssertionFailed` and the cache keeps every record, the new one at the end, so it is at or past the threshold and the cache invariant is broken; this holds from any starting cache, including an empty one with threshold 1 |
| Session.SendCacheTwice | trackml/client.py:131-140 | after a successful flush, a second flush sends nothing and changes nothing |
| Session.SetModelThenLog | trackml/client.py:91-114 | after setting a default, a log sends the default unless a truthy explicit id overrides it, and the override does not change the stored default |
| Session.NewModelThenLogFails | trackml/client.py:70-114 | after creating a model, a log without a truthy explicit id fails and sends nothing |
| Session.NewProjectThenLogFails | trackml/client.py:81-114 | after creating a project, a log without a truthy explicit id fails and sends nothing |
| Session.ResetModelThenLogFails | trackml/client.py:97-114 | after resetting the default, a log without a truthy explicit id fails and sends nothing |
| Session.TwoDeferredLogsFlush | trackml/client.py:116-140 | with default model 1 and threshold 2, the first deferred log is cached, the second sends both records in one batch and empties the cache |

## Left out

- The `Client` HTTP class (trackml/client.py:6-31): URL composition, form encoding, the connection pool and JSON decoding are I/O and library calls. They are replaced by the trace of requests and the server function.
- Transport failures (connection errors, malformed JSON) are not modelled. They propagate from the transport layer, which is not part of this model.
- `get_base_url` (trackml/client.py:64-68) is an accessor of the transport's base URL, which is not modelled.
- Wire.ResponseId: does not model `int(...)` failing on an id the server sent in a non-integer form, because the response format belongs to the JSON layer.
- Client.PostAndAssert: a response without a `success` key is folded into `success == false`. Python raises a `KeyError` there instead of an `AssertionError`, and only when success is asserted. Both are errors.
- The contents of `parameters` and `scores` are opaque string maps. The client never inspects them.
- Model ids other than `None`, integers and strings (for example a dict) are not modelled. Only their truthiness matters to the client.
- `assert_success` is a public attribute that the class never changes after construction. The model keeps it as a field set to true by `Init` and offers no setter.
- Client.PostAndAssert: the success check is a Python `assert` statement, which `python -O` removes. The model always performs it when `assert_success` is true, so the `AssertionFailed` path of running without `-O` is the one modelled.
- Cached records hold references to the caller's `parameters` and `scores` dicts. A batch therefore carries their contents at flush time, not at `deferred_log` time. `Record` is a value, so the model does not capture the caller mutating a dict after deferring it.
- examples/simple_example.py is a demo script with no logic of its own.
