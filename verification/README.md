# aioarangodb `Cluster` endpoint group and `Response` value, in Dafny

This project models the administrative `Cluster` endpoint group of the
aioarangodb driver for ArangoDB, and the `Response` value its handlers read.

Each of the eight `Cluster` methods (`server_id`, `server_role`,
`server_version`, `server_engine`, `server_statistics`, `health`,
`toggle_maintenance_mode`, `endpoints`) builds one `Request`. It also defines one
response handler. On a successful response the handler returns a value taken
from the decoded body. On any other response it raises the method's own
exception, which carries the response and the request.

Files and modules:

- `wrappers.dfy` (`Wrappers`): `Option` and `Result`.
- `json_data.dfy` (`JsonData`): the decoded body as a `Json` datatype.
- `requests.dfy` (`Requests`): the arguments passed to `Request(...)`.
- `responses.dfy` (`Responses`): the ten slot fields of `Response`. It also holds the
  constructor, which lower-cases the method and leaves the four derived fields unset. The
  later step that sets `is_success` from the status code is here too.
- `cluster.dfy` (`Cluster`): an `Operation` per method and `BuildRequest`, with its parser
  `OperationOf`. It also holds the exception taxonomy `ClusterError`, the eight handlers and
  their dispatcher `Handle`. `Execute` builds the request and applies the handler to the response.
- `cluster_properties.dfy` (`ClusterProperties`): lemmas relating these definitions.

Modelling choices:

- A handler is a total function `Result<Json, ClusterError>`. Python truthiness is
  kept: an unset `is_success` (`None`) counts as failure.
- An unset body and a JSON `null` are the same Python value. `BodyValue` reads both as `JNull`.
- When a handler reads a key that a successful body lacks, Python raises a `KeyError`,
  `TypeError` or `AttributeError`. None of these is a cluster exception. The model
  represents them by one extra constructor, `BodyKeyError(key)`, instead of a
  precondition. `health` pops `'error'` before `'code'`, so the error names the first
  missing key. The lemmas about success values state the body's shape as a `requires`.
- `endpoints` iterates `body['endpoints']` as Python does. A list yields its items. An
  empty dict or an empty string yields nothing, so the result is `[]`. A non-empty dict or
  string yields strings, and subscripting a string with `'endpoint'` raises. Any other
  value is not iterable.
- Where the code and its documentation differ, the model follows the code. The
  doc-comment of `toggle_maintenance_mode` allows only "on" and "off", but the code never
  checks the mode; it only wraps it in double quotes. HTTP methods are the lower-case
  strings the code passes (`'get'`, `'put'`).

## Model

| member | source | states |
|---|---|---|
| Responses.ToLower | aioarangodb/response.py:64 | the stored method is lower-case ASCII and equals the input ignoring case, position by position |
| Responses.LowerUnique | aioarangodb/response.py:64 | only one lower-case string equals a given string ignoring case, so the stored method is determined by the input |
| Responses.LowerFixesLowercase | aioarangodb/response.py:64 | lower-casing an already lower-case method leaves it unchanged |
| Responses.LowerIdempotent | aioarangodb/response.py:64 | lower-casing twice is the same as lower-casing once |
| Responses.NewResponse | aioarangodb/response.py:57-75 | the method is stored lower-cased; url, headers, status code, status text and raw body are stored as given; body, error code, error message and is_success start as None |
| Responses.NewResponseKeepsLowercaseMethod | aioarangodb/response.py:64 | constructing with an already lower-case method stores that method unchanged |
| Responses.Populate | aioarangodb/response.py:40 | after population, is_success is set and is true exactly when the status code is 2XX; the six stored fields are kept |
| Responses.NewResponseNotPopulated | aioarangodb/response.py:71-75 | a freshly constructed response has no is_success yet; populating it sets one |
| Cluster.Quote | aioarangodb/cluster.py:164 | the request data is the mode with one double quote added at each end, whatever the mode is |
| Cluster.Unquote | aioarangodb/cluster.py:164 | stripping the quotes accepts exactly the quoted strings, and re-quoting gives the original data back |
| Cluster.BuildRequest | aioarangodb/cluster.py:31-184 | each method's endpoint path; PUT only for the maintenance toggle, GET otherwise; params exist only for the three per-node queries and are exactly {'ServerID': id}; data exists only for the toggle and unquotes to the mode |
| Cluster.ServerIdOf | aioarangodb/cluster.py:73-77 | reads the server id back from params that are exactly {'ServerID': id}, and rejects every other params value |
| Cluster.Subscript | aioarangodb/cluster.py:38 | `body[key]` yields the field exactly when the body is an object holding the key, and otherwise the lookup error for that key |
| Cluster.ProjectField | aioarangodb/cluster.py:189 | the comprehension succeeds exactly when every item holds the key; the result then has one entry per item, in order, each being that item's field |
| Cluster.ProjectEndpoints | aioarangodb/cluster.py:189 | a list is projected item by item; an empty dict or string gives []; a non-empty one raises; a null, bool or number raises |
| Cluster.HandleServerId | aioarangodb/cluster.py:36-39 | failure gives ServerIdError(resp, request); a value is returned exactly when the response succeeded and the body holds 'id', and it is body['id'] |
| Cluster.HandleServerRole | aioarangodb/cluster.py:57-60 | failure gives ServerRoleError(resp, request); a value is returned exactly when the response succeeded and the body holds 'role', and it is body['role'] |
| Cluster.PassBody | aioarangodb/cluster.py:79-82 | the pass-through handler returns a value exactly on success, and that value is the body; otherwise it raises the given dedicated error |
| Cluster.HandleHealth | aioarangodb/cluster.py:143-148 | failure gives HealthError(resp, request); success needs both 'error' and 'code', and returns an object with exactly the other keys and their values; a missing 'error' is reported before a missing 'code' |
| Cluster.HandleEndpoints | aioarangodb/cluster.py:186-189 | failure gives EndpointsError(resp, request) before the body is read; a missing 'endpoints' key raises; success returns the projected list |
| ClusterProperties.QuoteRoundTrip | aioarangodb/cluster.py:164 | unquoting the request data gives back the mode, for every mode |
| ClusterProperties.BuildRequestRoundTrip | aioarangodb/cluster.py:31-184 | the built request identifies the method that built it and that method's argument |
| ClusterProperties.OperationOfSound | aioarangodb/cluster.py:31-184 | any request recognised as a Cluster request is exactly the one its method builds |
| ClusterProperties.BuildRequestInjective | aioarangodb/cluster.py:31-184 | two different calls never build the same request |
| ClusterProperties.FailureYieldsDedicatedError | aioarangodb/cluster.py:36-189 | on an unsuccessful response every handler raises its own exception carrying exactly that response and request, and never returns a value |
| ClusterProperties.DedicatedErrorExactlyOnFailure | aioarangodb/cluster.py:36-189 | a value is returned only on success, and the dedicated exception is raised exactly when the response did not succeed |
| ClusterProperties.ExecuteErrorIdentifiesOperation | aioarangodb/cluster.py:31-41 | the exception from a failed call carries the response and the request the call built, and that request names the failing method |
| ClusterProperties.PopulatedFailureIsNonTwoXX | aioarangodb/response.py:40 | once is_success is populated, a non-2XX response always raises the dedicated exception, and a value implies a 2XX status |
| ClusterProperties.SuccessDependsOnlyOnBody | aioarangodb/cluster.py:36-189 | on a successful response the outcome depends only on the body, not on the request or the other response fields |
| ClusterProperties.PassThroughReturnsBody | aioarangodb/cluster.py:79-170 | server_version, server_engine, server_statistics and toggle_maintenance_mode return the body unchanged on success |
| ClusterProperties.HealthRestores | aioarangodb/cluster.py:143-147 | adding back the popped 'error' and 'code' fields rebuilds the received body, so nothing else was removed, added or changed |
| ClusterProperties.ProjectionAppend | aioarangodb/cluster.py:189 | the projections of two lists, concatenated, are the projection of the concatenated list |
| ClusterProperties.ProjectFieldAppend | aioarangodb/cluster.py:189 | the projection keeps order: projecting a concatenation concatenates the projections |
| ClusterProperties.EndpointsProjects | aioarangodb/cluster.py:186-189 | for a list of items, endpoints succeeds exactly when every item has 'endpoint'; the i-th result is then the i-th item's 'endpoint' |
| ClusterProperties.HealthExample | aioarangodb/cluster.py:143-147 | {error: false, code: 200, Node1: n} gives {Node1: n} |
| ClusterProperties.EndpointsExample | aioarangodb/cluster.py:186-189 | two items with 'tcp://a:1' and 'tcp://b:2' give exactly those two strings, in that order |

## Left out

- The `async`/`await` wrapping, `APIWrapper`, and the executor behind `self._execute`. `Execute` models a call as building the request and applying the handler directly to a given response. Deferred, batched and transactional execution are not modelled.
- The HTTP transport and the JSON decoding of `raw_body` into `body`. The response is a parameter of every handler. The code that populates the derived fields is not part of this model. `Populate` takes the decoded body, error code and error message as inputs and sets `is_success` as the field's documentation describes.
- aioarangodb/request.py is not part of this model. `Request` holds only the four arguments the `Cluster` methods pass.
- The internals of the exception classes. Each one is a constructor carrying `(resp, request)`.
- Cluster.HandleHealth: returns a new object instead of popping keys from the live `resp.body`. The in-place change to the response is not modelled.
- Cluster.Subscript: does not tell `KeyError`, `TypeError` and `AttributeError` apart. A body that cannot be read at a key gives `BodyKeyError(key)`.
- Responses.ToLower: lower-cases ASCII letters only. `str.lower` maps all of Unicode, so a non-ASCII upper-case method name is not lower-cased here.
- Python floats in the body: `Json` has no float case.
- `headers` is a plain map. A case-insensitive header dictionary is not modelled.
- Arguments that are not strings: `server_id` and `mode` are strings here. Python would accept other objects and format them with `str`.
- The role names and the "on"/"off" mode values that appear only in doc-comments. The code does not enforce them.
- The ten-slot restriction of `__slots__` (aioarangodb/response.py:44-55) holds by construction: a datatype has exactly its declared fields. It is not a separate lemma.
