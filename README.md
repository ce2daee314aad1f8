# Neo4j Bolt session layer, modelled in Dafny

This project models `neo4j/session.py` of an early Neo4j Python driver, without its I/O. The module
has four parts:

- `Session.run` pipelines a RUN request and a PULL_ALL request over one connection and flushes
  them in one send. It consumes the run-response to its end, then the pull-response. It returns
  one `Record` per row under the header's field names, and records one `BenchTest` latency sample.
- A transaction state machine. It uses the session's `transaction` slot and the transaction's
  `success` and `closed` flags. BEGIN, COMMIT and ROLLBACK are ordinary runs.
- `Record`, an immutable pairing of field names and values. Records can be looked up by
  position, by name or by attribute, and compared for equality.
- `BenchTest.latency`, and the `Driver` guard that accepts only the `bolt` scheme.

Files and modules:

- `results.dfy` (`Results`): `Option`, `Result` and the `Error` kinds. The kinds are CypherError,
  AssertionError, AttributeError, IndexError, TypeError, KeyError and ValueError, plus
  ConnectionClosed for a server that stops sending.
- `records.dfy` (`Records`): the `Record` datatype and its lookup, length, iteration and equality.
- `bench.dfy` (`Bench`): the `BenchTest` class, its `Latency()`, and a monotone logical `Clock`
  that stands in for `perf_counter`.
- `connection.dfy` (`Connections`): an abstract connection. It keeps a queue of appended requests,
  the requests already sent, a count of sends, and a scripted sequence of server messages.
  The messages are `Header(fields)`, `Row(values)`, `Success` and `Failure`. `Header` is a
  SUCCESS whose metadata holds field names; `Success` is a SUCCESS without them.
- `pipeline.dfy` (`Pipeline`): a pure definition of what one run makes of the server's
  messages, with lemmas about it.
- `session.dfy` (`Sessions`): the `Session` and `Transaction` classes, the driver's scheme guard,
  and `OpenSession`.

`Session.Run` is proved against `Pipeline.Run`. The lemmas about `Pipeline.Run` state what that means:

- the records are the pull-response's rows in arrival order, under the header's names;
- a run succeeds only when the messages begin with such a script;
- a failure on either response raises CypherError.

Modelling decisions:

- The connection code (`neo4j/connection.py`) is not part of this model. The model assumes what
  the session relies on. A response's `consume` takes messages until one ends that response.
  A RECORD delivered to the run-response is ignored, because that response sets no record
  callback. A run-response SUCCESS without `fields` raises KeyError, as `metadata["fields"]` does
  at line 137.
- When the scripted messages run out before a response ends, the model returns ConnectionClosed.
  The real code would block on the socket instead.
- After a failure, the model does not drain the rest. The pull-response's messages stay on the
  connection, as the code leaves them (line 147 raises out of `consume`).
- Dafny constructors cannot fail, so `Session.NewTransaction` allocates the transaction and then
  runs BEGIN straight away, which is what `Transaction.__init__` does at line 210. Only after that
  does it fill the slot.
- Hydration is the session's `hydrate` function, an arbitrary `R -> V`.
- Python `index`, negative subscripts and `tuple(record)` are written out. `tuple(record)` uses
  Python's `__getitem__` iteration protocol and stops at the first IndexError.
- Facts about the code that the model keeps:
  - The code does not check that field names are unique. With a repeated name, `record[i]` is
    the value at the first occurrence of `fields[i]`.
  - A COMMIT or ROLLBACK that fails leaves the transaction open and the slot filled, because
    the raise in `session.run` skips lines 250-251.
  - `commit`/`rollback` on a closed transaction still overwrite `success` before the assertion
    at line 245 fails.
  - `overall` (line 52) is not the sum of the send time, `wait` and `network`. The model proves
    `0 <= wait <= network <= overall`.
- Every `Driver` has passed the scheme check of line 82, so drivers are the subset type
  `BoltDriver`, and only `NewDriver` builds one from a URL.
- The session's `Valid()` says that the transaction slot holds only an open transaction of that
  session. Every method that changes a session or a transaction requires and keeps it.

## Model

| member | source | states |
|---|---|---|
| `Records.IndexOf` | neo4j/session.py:293-295 | the first position holding the name, or none exactly when the name is absent |
| `Records.PositionsWithinLen` | neo4j/session.py:280-289 | when every name has a value, positional lookup succeeds exactly for the positions `-len(record) <= i < len(record)` |
| `Records.GetAttr` | neo4j/session.py:291-297 | AttributeError exactly for an unknown name; otherwise the value at the name's first occurrence, or IndexError when values are too short |
| `Records.Wrap` | neo4j/session.py:287 | Python subscripting: an in-range position, negative ones counted from the end |
| `Records.GetItem` | neo4j/session.py:283-289 | a name goes through attribute lookup; a position goes through the name stored there, IndexError when out of range; any other index kind is a TypeError |
| `Records.LookupUnique` | neo4j/session.py:283-297 | with unique names and one value each, position i, position i-len and name fields[i] all give values[i] |
| `Records.LookupFirstOccurrence` | neo4j/session.py:286-287 | with a repeated name, position i yields the value at that name's first occurrence |
| `Records.IterateLookups` | neo4j/session.py:275 | every value that `__getitem__` iteration yields is the successful lookup at its position |
| `Records.IterateStops` | neo4j/session.py:275 | iteration stops early only at a position whose lookup fails |
| `Records.IterateAllOk` | neo4j/session.py:275 | when every lookup up to the end succeeds, iteration yields exactly those values |
| `Records.AsTuple` | neo4j/session.py:275 | `tuple(record)` is the run of successful positional lookups from 0, at most one per name, ending at the names' end or at the first failing lookup |
| `Records.IterateWellFormed` | neo4j/session.py:275 | iterating a well-formed record yields exactly its values |
| `Records.Equals` | neo4j/session.py:271-275 | two records are equal exactly when names and values are; a well-formed record equals a plain sequence exactly when that sequence is its values |
| `Records.FieldNamesMatterForRecords` | neo4j/session.py:271-275 | same values under different names: unequal as records, yet each equals the other's values as a sequence |
| `Records.DuplicateNameIteration` | neo4j/session.py:275-287 | with names [a, a] and values [1, 2], tuple(record) is [1, 1], so the record does not equal its values |
| `Bench.Clock.Read` | neo4j/session.py:131 | every clock reading is no earlier than the previous one |
| `Bench.BenchTest.constructor` | neo4j/session.py:42-49 | all six timestamps start unset |
| `Bench.BenchTest.Latency` | neo4j/session.py:51-54 | defined exactly when all six timestamps are set, a TypeError otherwise |
| `Bench.LatencyBounds` | neo4j/session.py:51-54 | timestamps in run order give 0 <= wait <= network <= overall |
| `Connections.Connection.Append` | neo4j/session.py:158-159 | a request joins the end of the queue and nothing is sent |
| `Connections.Connection.Send` | neo4j/session.py:161 | the whole queue is sent in order and the send count grows by one |
| `Connections.Connection.FetchNext` | neo4j/session.py:164-165 | the next server message is taken off the front, or none when the server has stopped |
| `Pipeline.FirstTerminal` | neo4j/session.py:164-165 | the position of the first SUCCESS or FAILURE, every earlier message being a row; none when all are rows |
| `Pipeline.Consumed` | neo4j/session.py:164-165 | one consume never takes more messages than the server sent |
| `Pipeline.Hydrate` | neo4j/session.py:141 | one hydrated value per raw value, in order |
| `Pipeline.RunResponse` | neo4j/session.py:136-152 | yields a header's names exactly when a header is the first message after the rows; ConnectionClosed exactly when every message is a row; otherwise KeyError or CypherError |
| `Pipeline.PullResponse` | neo4j/session.py:140-147 | on success, one record per leading row under the given names, in arrival order, ending at a terminal message that is not FAILURE; ConnectionClosed exactly when every message is a row; otherwise CypherError |
| `Pipeline.Run` | neo4j/session.py:164-165 | consumes at least the run-response and never more than was sent; a failed run-response is the run's error with the pull-response unread; every record carries the run-response's names; the only errors are CypherError, KeyError and ConnectionClosed |
| `Pipeline.RunResponseOfScript` | neo4j/session.py:136-164 | stray rows then a header: the run-response yields the header's names and takes exactly those messages |
| `Pipeline.PullResponseOfRows` | neo4j/session.py:140-165 | rows then SUCCESS give one hydrated record per row in order; rows then FAILURE raise CypherError |
| `Pipeline.ScriptOutcome` | neo4j/session.py:136-170 | a server script yields its rows as records in arrival order under the header's names, each as long as the header; it raises if its footer is FAILURE; it consumes exactly the script |
| `Pipeline.ScriptOfSuccess` | neo4j/session.py:136-170 | from a successful run's messages, the script they begin with and whose rows are the records |
| `Pipeline.SucceedsOnlyOnScript` | neo4j/session.py:136-170 | every successful run's messages begin with such a script, and its records are that script's rows |
| `Pipeline.RunResponseRaises` | neo4j/session.py:136-164 | FAILURE on the run-response raises CypherError; SUCCESS without names raises KeyError; the pull-response is left unread |
| `Pipeline.ServerStopsEarly` | neo4j/session.py:164 | a server that never ends the run-response leaves the run without result |
| `Pipeline.StalePullResponse` | neo4j/session.py:146-165 | after a run-response FAILURE, the unread pull-response's SUCCESS is taken as the next run's run-response, which raises KeyError |
| `Pipeline.ReturnOneAsX` | neo4j/session.py:136-170 | header [x], row [1], SUCCESS give one record with record["x"] == record[0] == 1 and length 1 |
| `Sessions.NewDriver` | neo4j/session.py:79-86 | a driver is built exactly for the bolt scheme and keeps the host and port; any other scheme is a ValueError naming it |
| `Sessions.OpenSession` | neo4j/session.py:89-96 | a bolt driver's session: a fresh connection to the driver's host and port, an empty slot and no samples |
| `Sessions.Parameters` | neo4j/session.py:129 | a missing parameter mapping is sent as the empty one, a given one as it is |
| `Sessions.Session.constructor` | neo4j/session.py:105-108 | the session owns the connection, its slot is empty and it has no samples |
| `Sessions.Session.Submit` | neo4j/session.py:123-162 | RUN (statement, parameters) is queued before PULL_ALL, both go out in one send, and init <= start_send <= end_send |
| `Sessions.Session.ConsumeRunResponse` | neo4j/session.py:136-164 | consumes the run-response as `Pipeline.RunResponse` defines it, capturing the header's names and stamping start_recv |
| `Sessions.Session.ConsumePullResponse` | neo4j/session.py:140-165 | consumes the pull-response as `Pipeline.PullResponse` defines it, one record per row, stamping end_recv |
| `Sessions.Session.ConsumeResponses` | neo4j/session.py:164-165 | the two consumes in order give `Pipeline.Run`'s result and leave the messages it does not consume; on success start_recv <= end_recv |
| `Sessions.Session.Run` | neo4j/session.py:116-170 | `Ran`: RUN then PULL_ALL in one send after what was queued; the result and the messages consumed are those of `Pipeline.Run`; a success appends exactly one fresh in-order BenchTest and keeps all earlier ones; a failure appends none; the slot is untouched |
| `Sessions.Session.NewTransaction` | neo4j/session.py:177-184 | refused with nothing changed while the slot is taken; otherwise exactly the session's run of BEGIN (all of `Ran`), and only if it succeeds is the slot filled with a fresh open unsuccessful transaction |
| `Sessions.Transaction.constructor` | neo4j/session.py:202-209 | a new transaction belongs to its session and is neither successful nor closed |
| `Sessions.Transaction.Run` | neo4j/session.py:218-226 | refused with nothing changed once closed; otherwise the session's run with its whole effect (`Ran`) and its result |
| `Sessions.Transaction.Close` | neo4j/session.py:242-251 | refused once closed; otherwise the session's run (`Ran`) of COMMIT if successful, else ROLLBACK; a successful statement closes the transaction and empties the slot; a failed one changes neither and is the close's error |
| `Sessions.Transaction.Commit` | neo4j/session.py:228-233 | success becomes true even when already closed; then closes, with the session's run of COMMIT and its error on failure |
| `Sessions.Transaction.Rollback` | neo4j/session.py:235-240 | success becomes false even when already closed; then closes, with the session's run of ROLLBACK and its error on failure |
| `Sessions.CommitThenReuse` | neo4j/session.py:218-251 | committing the session's open transaction is never refused; once it succeeds the slot is empty, and a further run or rollback of it is refused with only COMMIT sent |

## Left out

- `connect` and all socket I/O, framing and `Session.close` (lines 96 and 172-175): the connection is the scripted abstraction above.
- `Response.consume` internals in `neo4j/connection.py`, which is not part of this model; only the behaviour assumed above is modelled.
- After a failure, the model leaves the unread pull-response's messages on the connection, and the next run reads them as its own run-response (`Pipeline.StalePullResponse`). The real connection matches responses to requests through a queue of pending responses in `neo4j/connection.py`, which is not part of this model, so how that queue and the server recover from a failure is not captured.
- Real `perf_counter` floating-point values: timestamps are integers from a monotone logical clock, passed to each run as a parameter.
- `hydrated` from the type system module: kept as an arbitrary function.
- The `config` keyword arguments of `GraphDatabase.driver`, `Driver` and `Driver.session`, which this module only stores or forwards.
- `urlparse` and host/port extraction (lines 81-84): the driver takes an already parsed URL.
- Decoding a bytes statement as UTF-8 (lines 126-127): statements are strings.
- `Record.__repr__` (lines 264-269) and `__ne__` (lines 277-278, the negation of equality).
- Python reflection. A field named like a real attribute of the object (say `__fields__`) would be found by `getattr` before `__getattr__`. Records built from lists and from tuples also compare unequal in Python. Neither is modelled.
- `bool` indices count as integer positions, as in Python. Every index that is neither string nor integer is the single `OtherKey`.
- The context-manager methods `__enter__`/`__exit__`, and what `__exit__` does: it only calls `close`.
