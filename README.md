# Record store of the DevOps assessment API

This project models the application core of the `devops-assessment-api`
service, which is a small web API. The service keeps its records in
`data_store`, an in-memory list at module level. Three handlers use that list:

- `POST /data` (`create_data`) refuses an empty JSON object with status 400.
  Otherwise it appends the entry `{id, content, timestamp}` with
  `id = len(data_store) + 1` and returns that entry with status 200.
- `GET /data` (`get_data`) returns `{count, data}`, where `count` is the
  length of the list.
- `GET /health` (`health_check`) returns a fixed status and service name, with
  the current time. It does not touch the list.

The tests empty the list with `data_store.clear()` before each case.

Layout:

- `json_value.dfy` (module `JsonValue`) defines the JSON values that a request
  body carries, and `IsEmptyObject`, Python's `not item` test on a dict.
- `app.dfy` (module `App`) defines the entities `Entry`, `CreateResponse`,
  `DataListing` and `HealthResponse`.
  - `CreateStep` is the value-level specification of a create.
  - `Replay`, `Accepted` and `Numbered` describe a run of creates, and lemmas
    prove what such a run does.
  - The class `DataStore` holds the list as a `seq<Entry>` field. Its
    `Create` and `Clear` methods update that field in place, and `Get` reads it.
  - `HealthCheck` models the health handler.
  - `ApiScenario` is a scenario built from the API tests, run against one store.

The status of a successful create is 200: src/tests/test_api.py:25 asserts status 200.

## Model

| member | source | states |
|---|---|---|
| `JsonValue.IsEmptyObject` | src/app.py:46 | A request body is "empty", and so refused, exactly when it is the object with no keys. |
| `App.CreateStep` | src/app.py:43-57 | A create is refused with 400 and "Empty data not allowed" if and only if the body is empty. A refused create leaves the list exactly as it was. An accepted create adds exactly one entry at the end and leaves every earlier entry unchanged. The new entry's id is the old length plus one, its content is the submitted body unchanged, and it is the entry returned. The id-equals-position invariant is preserved. |
| `App.DataStore.Create` | src/app.py:43-57 | The in-place create on the store has the same refusal condition, status and detail as `CreateStep`. On refusal the list is unchanged. On success the list becomes the old list plus the returned entry, which has id `old length + 1`, the body and the given timestamp. The store invariant is kept. The new state and response are exactly those of `CreateStep`. |
| `App.DataStore.Get` | src/app.py:34-41 | `count` equals the number of entries, and `data` is the stored entries in order. So an empty store gives count 0 with empty data, which is a normal answer and not an error. On a store that keeps its invariant, the i-th listed entry has id i + 1. As a function it cannot change the store. |
| `App.HealthCheck` | src/app.py:25-32 | The status is always "healthy" and the service is always "devops-assessment-api", whatever the clock reading. The timestamp is that clock reading. The function takes no store and reads no object, so it can neither depend on the store nor change it. |
| `App.DataStore.constructor` | src/app.py:22-23 | The store starts as an empty list, and that empty list satisfies the invariant. |
| `App.DataStore.Clear` | src/tests/test_api.py:7-9 | After a reset the list is empty and the invariant holds. |
| `App.Numbered` | src/app.py:49-53 | Numbering requests from `base` gives exactly one entry per request. |
| `App.NumberedAt` | src/app.py:49-53 | The k-th numbered entry has id `base + k + 1` and keeps the k-th request's body and timestamp, as successive appends with `len(data_store) + 1` give. |
| `App.ReplayAppendsAccepted` | src/app.py:46-54 | Any run of creates leaves the earlier entries as they were. It appends exactly the non-empty bodies, in the order they were handled, numbered on from the list's length. Refused requests leave no trace. |
| `App.FromEmptyIdsAreOneToN` | src/app.py:50-51 | Start from a fresh or cleared list and handle n accepted creates. The result has n entries with ids 1..n in order, each holding its submitted body and timestamp. |
| `App.ReplayKeepsIdsArePositions` | src/app.py:50-54 | Every run of creates keeps the invariant that each id is its position plus one. |
| `App.IdsAreIncreasing` | src/app.py:50 | Under the invariant, ids strictly increase along the list, so no two entries share an id. |
| `App.ApiScenario` | src/tests/test_api.py:7-34 | This is a scenario built from the test cases, run against one store. Unlike the tests, it does not reset before every step: it refuses after a create and lists again. An empty store lists count 0 and empty data. The first create of `{"message": "test", "value": 42}` gets id 1 and keeps that content. An empty body is refused with 400 and changes nothing, so the listing shows exactly the first entry. After a reset the next create gets id 1 again: ids come from the current length, not from a counter. |

## Left out

- HTTP plumbing is not modelled: FastAPI routing, request parsing, JSON serialisation and response construction. The handlers are plain functions and methods. `Created` stands for a 200 response and `Rejected` for an `HTTPException`.
- A request body that is not a JSON object is not modelled. The framework rejects it before `create_data` runs.
- JSON numbers are modelled as integers only. Floating point is not modelled.
- The wall clock (`datetime.utcnow().isoformat()`) is not read. Timestamps are opaque strings passed in by the caller.
- Logging calls and their configuration are left out, because they are output-only side effects.
- The Prometheus instrumentation and the `/metrics` endpoint are left out. They come from a foreign library whose behaviour is not visible here.
- The health response-time test is left out. It measures wall-clock time.
- Concurrency is not modelled, and requests are handled one at a time. `create_data` has no suspension point between reading the length and appending, so within one event loop this matches the code.
- Aliasing is not modelled. `get_data` returns the live list object, but here `Get` returns its value at the time of the call. The framework serialises the response immediately, so no caller sees it change afterwards.
