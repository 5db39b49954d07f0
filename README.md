# Curling batch engine, modelled in Dafny

Curling is a small Go library that issues HTTP requests, one at a time or as
a batch of repeated requests. This project models its two core files:

- `batch.go`. A `BatchRequest` holds an ordered list of `BatchItem`s, kept
  unique by id when added with `Add`, and one shared output channel. Each
  item runs a counted loop of requests. Every iteration produces one
  `OutputFrame`, which goes to exactly one channel: the item's dedicated
  channel if it has one, otherwise the shared channel. An item closes its
  dedicated channel when it is done. `RunBatch` runs every item and then
  closes the shared channel.
- `request.go`. The `Method` enumeration and its names, request
  construction, the choice of request body (only a POST carries one), and
  the error returns of `Do`.

The model has three modules:

- `Wrappers` (`wrappers.dfy`): `Option` and `Result`.
- `Requests` (`requests.dfy`): `request.go`. Functions for the pure parts,
  and a method for `Do`, which loops over the response header.
  `Do` is proved equal to the function `Perform`. Lemmas state what
  `Perform` promises.
- `Batches` (`batches.dfy`): `batch.go`. `Channel`, `BatchItem` and
  `BatchRequest` are classes whose methods update their fields in place.
  `Exec`, `GetTotalIterations`, `itemInSlice` and `RunBatch` are methods
  with loops. Each is proved against a specification function:
  `FramesUpTo`, `TotalIterations`, `HasId` and `SharedFrames`.
  Lemmas about those functions give the frame counts.

`Step`, `Advance`, `RunRoutes` and `PlanFor` in `batches.dfy` break the
proof of `RunBatch` into steps. They restate `Exec` and the goroutine
loop of `batch.go:53-59` item by item, over a ghost plan of where each
item's frames go. They model nothing beyond `RunBatch` and `Exec`.

How the model stands in for the outside world:

- A Go channel is a `Channel` object. It records every frame sent on it,
  in order, whether it is closed, and its capacity. Sending on or closing
  a closed channel panics in Go, so both are preconditions.
- The HTTP collaborator is a parameter of type `Http`. Its `newRequest`
  stands for `http.NewRequest`. Its `send` stands for
  `http.DefaultClient.Do` followed by reading the body. Iteration `k` of
  item `i` meets the collaborator `http(i)(k)`, so responses can differ
  from call to call.
- JSON serialisation of a struct is a parameter `marshal`, which may fail.
- Go's reflection on the dataset becomes the tag of `Dataset`: nil,
  string, struct or any other kind.
- `uuid.New()` becomes an id passed in by the caller.

Where the design description and the code disagree, the model follows the
code:

- `NewBatchRequest` ignores `initOutput` and always allocates the shared
  channel.
- `Exec` resets `IterationsDone` to 0 at the start of every run, so a
  second run starts again from zero.
- The design calls for at least one iteration per item. The code accepts
  any count; a count of zero or less runs nothing.
- Items built as struct literals, as the tests build them, all carry the
  zero UUID (`ZeroUuid`). So `Add` treats any two of them as duplicates.
  `NewBatchRequest` does not deduplicate, so such items all stay in its
  list.

## Model

| member | source | states |
|---|---|---|
| Requests.MethodName | request.go:23-36 | GET, POST, PUT and PATCH map to "GET", "POST", "PUT" and "PATCH". Each name comes only from its own method. Every other value maps to "". |
| Requests.MethodNameInjective | request.go:23-36 | Two defined methods with the same name are the same method. |
| Requests.New | request.go:44-52 | The request holds the given method, URL and headers unchanged. |
| Requests.GetReaderForType | request.go:90-107 | Nil and other kinds give no body and no error. A string is the body verbatim. A struct gives its serialisation, or the serialiser's error. The result is an error exactly when serialising a struct fails. |
| Requests.Do | request.go:55-88 | `Do`'s three results equal `Perform`. Only a POST builds a body. A body error is wrapped with "error setting postbody". A request-building error is wrapped with "error creating request". A send error is wrapped with "error executing requesst". On success the response body and a copy of the response header come back. |
| Requests.NonPostIgnoresDataset | request.go:58-63 | For any method but POST, the dataset and serialiser do not change the request or the outcome, and no body is sent. |
| Requests.PostStringVerbatim | request.go:96-97 | A POST of a string dataset sends exactly that string as the body. |
| Requests.BodyErrorSkipsRequest | request.go:59-62 | When a POST body cannot be built, the outcome does not depend on the collaborator. `Do` returns empty data, an empty header and the wrapped body error. |
| Requests.PerformSucceeds | request.go:73-87 | There is no error exactly when the request was built and sent. Then the data is the response body, and the header has exactly the response's names, each with its value list unchanged. With an error, data and header are empty. |
| Batches.Channel.constructor | batch.go:19 | `make(chan OutputFrame, n)`: an open, empty channel of capacity n. |
| Batches.Channel.Send | batch.go:117 | Sending appends exactly that frame and leaves the channel open. |
| Batches.Channel.Close | batch.go:121 | Closing marks the channel closed and keeps its frames. |
| Batches.BatchItem.Literal | batch.go:75-85 | A struct literal holds every field as given. |
| Batches.BatchItem.New | batch.go:87-96 | `NewBatchItem` stores the method, URL, headers and id. It sets one iteration, no data, no delay, zero iterations done and no dedicated output. |
| Batches.BatchItem.SetIterations | batch.go:98-100 | Only `Iterations` changes, to the given value. |
| Batches.BatchItem.SetOutput | batch.go:102-104 | Only `Output` changes, to the given value. |
| Batches.BatchItem.GetOutput | batch.go:106-108 | It returns the item's `ItemOutput`. It requires one to be set. |
| Batches.BatchItem.Exec | batch.go:110-123 | Exactly max(0, Iterations) frames are sent, in iteration order. Frame k is `Do`'s reply for iteration k, error or not. They go to the dedicated channel if there is one, which is then closed; a distinct shared channel is left untouched. Without one they go to the shared channel, which stays as open or closed as it was. `IterationsDone` ends at max(0, Iterations). |
| Batches.NothingShared | batch.go:111-113 | The shared channel gets no frame exactly when every item has a dedicated output or runs no iteration. |
| Batches.ItemInSlice | batch.go:42-49 | The result is the first index whose item has `bi`'s id, or -1 exactly when no item has it. |
| Batches.BatchRequest.constructor | batch.go:15-21 | The items are kept as given. A fresh, open, empty shared channel is made with capacity `GetTotalIterations()`, whatever `initOutput` says. |
| Batches.BatchRequest.SetOutput | batch.go:23-25 | Only the shared channel reference changes, to the given one. |
| Batches.BatchRequest.GetTotalIterations | batch.go:27-34 | The result is the sum of `Iterations` over the items, and 0 for no items. |
| Batches.BatchRequest.Add | batch.go:36-40 | `bi` is appended exactly when no item has its id; otherwise the list is unchanged. Either way the existing items keep their order, and a list with unique ids stays unique. |
| Batches.BatchRequest.RunBatch | batch.go:51-62 | Every dedicated channel holds its item's frames in iteration order, appended to what it held, and is closed. The shared channel gets the frames of the items without a dedicated output, in list order, and is closed once. Every item's counter ends at max(0, Iterations). No item's iterations or output change. Only the shared channel, the items' counters and the items' own dedicated channels may change. It requires each item to be listed once and each dedicated channel to belong to one item. |
| Batches.SharedFramesLength | batch.go:51-62 | The shared channel receives as many frames as the items without a dedicated output have iterations. |
| Batches.DedicatedFramesLength | batch.go:110-123 | The dedicated channels together receive as many frames as the items with a dedicated output have iterations. |
| Batches.EveryFrameRouted | batch.go:27-34 | The frames on the shared channel plus those on the dedicated channels number `GetTotalIterations()` when no count is negative. |
| Batches.ZeroIdsCollide | batch.go:36-49 | Once an item with the zero id is in the list, any other item with the zero id is already present, so `Add` leaves the list unchanged. |
| Batches.AllFramesCounted | batch.go:27-34 | The shared frame count plus the dedicated frame count is `GetTotalIterations()` when no count is negative. |

## Left out

- Goroutines, `sync.WaitGroup`, and channel blocking and buffering are not
  modelled. `RunBatch` runs the items one after another in list order.
  When every item is listed once and no two items share a dedicated
  channel, the proved facts do not depend on cross-item interleaving:
  per-channel frames, per-item order, and who closes which channel.
- Batches.BatchRequest.RunBatch: the order of frames on the shared channel
  is one of the orders Go allows, the list order. The concurrent program
  may interleave items differently.
- Batches.BatchRequest.RunBatch: Go does not receive `owner`. It is a
  ghost map from each dedicated channel to the index of its one item, and
  it holds no other channel (`Owns`). Its existence states the Go
  precondition that no two items share a dedicated channel (a second
  close would panic).
- Batches.BatchRequest.RunBatch: a list holding the same item twice is
  excluded by the ghost map `index` (`Indexes`). `NewBatchRequest` accepts
  such a list, but then two goroutines run `Exec` on one item and race on
  its `IterationsDone`. One goroutine's reset to 0 can lengthen the other's
  loop, so neither the frame count nor the final counter is determined.
  The model does not capture that race.
- The shared channel being nil (after `SetOutput(nil)`) is left out,
  because sending on a nil channel blocks forever. A dedicated
  `ItemOutput` with a nil channel is left out for the same reason.
- `time.Sleep(bi.Delay)` is not modelled, because timing has no
  functional effect. In the code it also sleeps after the last iteration.
  `Delay` is only stored.
- `uuid.New()` comes from a foreign library; the id is a parameter.
- `http.NewRequest`, `http.DefaultClient.Do` and `ioutil.ReadAll` are
  network I/O. They are the abstract `Http` collaborator.
- The loop that adds request headers with `req.Header.Add`, including
  header-name canonicalisation, is not modelled. The headers are handed
  to the collaborator as given.
- `json.Marshal` and `reflect.TypeOf(...).Kind()` become the `marshal`
  parameter and the `Dataset` tag. A named string type, on which
  `data.(string)` would panic, is not distinguished from a plain string.
- Batches.BatchRequest.GetTotalIterations: the sum is taken over
  unbounded integers. Go's 64-bit `int` wrap-around on overflow is not
  modelled.
- Batches.BatchRequest.constructor: a negative total is excluded by the
  precondition, because `make` panics on a negative size.
- Batches.BatchItem.GetOutput: the nil dereference panic is a
  precondition.
- The example programs under `example/` and the test files are not part
  of this model.
