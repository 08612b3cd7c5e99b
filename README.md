# Log store: a Dafny model

This project models the in-memory log store of a small demo service and the item
conversions of the infrastructure-as-code provider that talks to it.

- **Demo server** (`demo_server.dfy`, module `DemoServer`). The server holds one
  ordered list of logs. It is the class `Server` with a `seq<Log>` field. Four
  handlers act on the route `/`:
  - GET returns every log in order.
  - POST replaces the whole list with the request's items.
  - PUT checks its index against the current list, then replaces the whole list anyway.
  - DELETE drops the last log, or answers 404 on an empty list.

  Each handler returns a `Reply`: an HTTP status (200, 400 or 404) and, when the
  handler writes one, the JSON envelope before encoding. The handlers share two
  loops. `CopyOut` fills a pre-sized array by index. `Server.Install` resets the
  sequence field and rebuilds it by appending. They are proved against the functions
  `Items` and `Logs`, and the two functions are proved inverse to each other.
  The methods after the class run the handlers in sequence. `ReadTwice` works on any
  server; the others build a fresh one. Their contracts state the handlers'
  behaviours visible in the code: idempotent reads, full replacement, delete-last,
  empty-store PUT and DELETE, out-of-range PUT, and acceptance of a negative index.
- **Wire and provider records** (`client_model.dfy`, `provider_model.dfy`). These
  are the envelope `Order{id, items}`, `OrderItem{log}` and `Log{body}` on both
  sides. On the provider side a body is the framework's string type, with Null and
  Unknown flags (`TfString`).
- **Provider conversions** (`resource_log.dfy`, module `ResourceLog`).
  - The Create loop compacts present bodies into a pre-sized slice through a
    separate write index. `CreateRequestItems` is proved to establish `Compacted`.
  - The index and append loops copy element for element: server items into state
    (`CopyToState`, `Read`) and plan into request (`CopyToRequest`). They are proved
    against `StateItems` and `RequestItems`. These two functions are round-trip
    partners.
  - `Create`, `Read` and `Update` chain the loops. The client's answer is an input:
    a function of the request sent (`createLog`, `updateLog`) or a fetched value.

Two behaviours of the code that a reader might not expect:

- PUT's bounds check only rejects `orderID > len(logs) - 1`. A negative index is
  therefore accepted.
- On an empty list, PUT still answers 400 first when the index does not parse.

## Model

| member | source | states |
|---|---|---|
| DemoServer.Items | demo-server/main.go:43-50 | one envelope item per stored log, same length, item i carries log i |
| DemoServer.Logs | demo-server/main.go:78-83 | one log per request item, same length, log i is item i's log |
| DemoServer.LogsOfItems | demo-server/main.go:86-93 | decoding the written-back items recovers exactly the stored logs |
| DemoServer.ItemsOfLogs | demo-server/main.go:79-93 | storing the request items and writing them back gives the same items |
| DemoServer.CopyOut | demo-server/main.go:43-50 | the pre-sized index-filled copy equals the envelope items of the stored logs |
| DemoServer.Server.constructor | demo-server/main.go:203 | a new server holds no logs |
| DemoServer.Server.Install | demo-server/main.go:138-143 | after the reset-and-append loop the list is exactly the request's logs in order, nothing of the prior list kept |
| DemoServer.Server.Get | demo-server/main.go:40-67 | status 200, empty id, the response items decode to the stored logs in order; the store is not modified (the envelope `client.Order{Items: logs}` of lines 52-54, 95-97, 155-157 and 188-190 is the helper `Envelope` in POST, PUT and DELETE) |
| DemoServer.Server.Post | demo-server/main.go:69-109 | undecodable body: 400 and list unchanged; otherwise the list is the request's logs and the reply is 200 with the envelope of the new list |
| DemoServer.Server.Put | demo-server/main.go:111-167 | unparsable index: 400, unchanged; empty list: 200 without body, still empty; index > len-1: 400, unchanged; undecodable body: 400, unchanged; otherwise the list is the request's logs whatever the index and the reply is 200 with its envelope |
| DemoServer.Server.Delete | demo-server/main.go:169-200 | empty list: 404, still empty; otherwise the list loses exactly its last log and the reply is 200 with the envelope of what remains |
| DemoServer.ReadTwice | demo-server/main.go:40-67 | two reads with no write in between return identical replies showing the stored logs |
| DemoServer.ReplaceThenRead | demo-server/main.go:111-167 | after POST of one list and an in-range PUT of another, both the PUT reply and a read show exactly the second list |
| DemoServer.DeleteThenRead | demo-server/main.go:169-190 | DELETE on [a, b, c] replies with [a, b] and a read shows [a, b] |
| DemoServer.EmptyStore | demo-server/main.go:120-123 | on an empty store PUT answers 200 without body for any parsed index and any body, 400 for an unparsable index; the store stays empty, so DELETE answers 404 |
| DemoServer.OutOfRangeUpdate | demo-server/main.go:125-129 | on a store of two logs PUT with index 2 or more answers 400 and a read shows the two logs unchanged |
| DemoServer.NegativeIndexAccepted | demo-server/main.go:125-157 | on a non-empty store PUT with a negative index replaces the list and replies 200 with the request's items |
| ResourceLog.KeptBodies | log/resource_log.go:77-87 | the present planned bodies in plan order; an item is present (helper `Present`) when its body is neither Null nor Unknown, the skip test of line 78; never more of them than planned items |
| ResourceLog.KeptCountsPresent | log/resource_log.go:77-87 | the number of kept bodies, which is the final write index, equals the number of present planned items |
| ResourceLog.KeptAllPresent | log/resource_log.go:77-87 | when no body is Null or Unknown every planned body is kept, in order |
| ResourceLog.KeptNoneAbsent | log/resource_log.go:78-80 | when every body is Null or Unknown nothing is kept |
| ResourceLog.KeptFromPlan | log/resource_log.go:77-87 | every kept body is the value of some present planned item |
| ResourceLog.CreateRequestItems | log/resource_log.go:74-88 | the slice has the plan's length, its first k slots hold the k kept bodies in plan order, and the remaining slots hold the zero item (empty body) |
| ResourceLog.CompactedAllPresent | log/resource_log.go:74-88 | when every body is present the compacted slice is the element-for-element copy of the plan |
| ResourceLog.StateItems | log/resource_log.go:102-111 | same length as the returned items, item i holds returned body i as a known string |
| ResourceLog.RequestItems | log/resource_log.go:175-182 | same length as the plan, item i holds plan body i's value regardless of its flags |
| ResourceLog.RequestOfState | log/resource_log.go:196-205 | copying returned items into state and back to a request gives the returned items |
| ResourceLog.StateOfRequest | log/resource_log.go:175-182 | a plan of known bodies copied to a request and back into state is unchanged |
| ResourceLog.CopyToState | log/resource_log.go:102-111 | the index-filled copy equals StateItems of the returned items |
| ResourceLog.CopyToRequest | log/resource_log.go:175-182 | the index-filled copy equals RequestItems of the plan |
| ResourceLog.Create | log/resource_log.go:56-124 | the request has an empty id and the compacted plan items; the new state has id "0", the returned items as known strings and the given time |
| ResourceLog.Read | log/resource_log.go:126-158 | the state's items are rebuilt from the fetched items only, in order; id and time stamp kept |
| ResourceLog.Update | log/resource_log.go:160-220 | the request holds the plan's bodies and goes out under the prior state's id; a failed call sets no state; otherwise the new state keeps that id and holds the returned items and the given time |

## Left out

- The mutex and its lock and unlock calls: each handler is one sequential atomic step. The concurrent-writer safety property is therefore not stated.
- The lock discipline itself is not modelled: GET is unguarded, DELETE's emptiness check and PUT's bounds check run outside the lock.
- HTTP routing, middleware, server start-up and response writing are reduced to the returned `Reply`. The text of `http.Error` messages is not modelled.
- JSON encoding and decoding, and `strconv.Atoi`, are inputs of type `Option`. The 500 branches after `json.Marshal` are left out because marshalling these records cannot fail.
- The route `/` has no `{orderID}` parameter, so in the running server the parse always fails and PUT on `/` always answers 400. The client sends PUT to `/<id>`, which that route does not match, so those requests never reach the handler. The model takes the parse result as an input and covers all of PUT's branches.
- Logs are stored as values, not as pointers. The server allocates a fresh pointer per element and never shares them, so no aliasing is lost.
- The HTTP client (`client/log.go`, `client/main.go`): timeouts, the status check and the default host.
- The plugin-framework glue: the schema, `NewResource`, the provider, the stub `Delete` and `ImportState` handlers, plan and state access, and diagnostics.
- Create's unchecked client error (the missing `return` before the returned order is used) and Read's use of the order after a failed fetch are left out: the client's answer is always an order in the model. Update's failed call is modelled as `None`, with no new state set.
- The wall-clock time stamp `time.Now().Format(time.RFC850)` is the parameter `now`.
- Stderr and `log.Printf` output.
