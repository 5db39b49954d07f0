/**
 * Batch execution (batch.go): a batch request holds an ordered list of items,
 * unique by id when added through `Add`, and one shared output channel. Each
 * item runs its own counted loop of requests and routes every result frame to
 * exactly one channel: its dedicated one if it has one, else the shared one.
 *
 * `RunBatch` starts one goroutine per item and joins them; this model runs the
 * items one after another in list order, which fixes one interleaving. With
 * every item listed once and every dedicated channel owned by one item, what it
 * proves does not depend on that order: per-channel frame counts, per-item
 * frame order, and who closes which channel.
 */
module Batches {
  import opened Wrappers
  import opened Requests

  /** A `uuid.UUID`: sixteen bytes, compared by value. */
  type Uuid = s: seq<bv8> | |s| == 16 witness seq(16, _ => 0)

  /** The all-zero id that a struct literal without `Id` carries. */
  const ZeroUuid: Uuid := seq(16, _ => 0)

  function Max0(n: int): nat {
    if n < 0 then 0 else n
  }

  /** One iteration's result: response body, response header and error. */
  datatype OutputFrame = OutputFrame(data: Bytes, headers: Header, err: Option<Error>)

  /**
   * A Go `chan OutputFrame`. `frames` is everything sent on it, in order;
   * blocking and buffering are not modelled, `capacity` is only recorded.
   */
  class Channel {
    const capacity: nat
    var frames: seq<OutputFrame>
    var closed: bool

    /** `make(chan OutputFrame, capacity)` */
    constructor (capacity: nat)
      ensures this.capacity == capacity && frames == [] && !closed
    {
      this.capacity := capacity;
      frames, closed := [], false;
    }

    /** `c <- f`; sending on a closed channel panics in Go. */
    method Send(f: OutputFrame)
      requires !closed
      modifies this
      ensures frames == old(frames) + [f] && !closed
    {
      frames := frames + [f];
    }

    /** `close(c)`; closing a closed channel panics in Go. */
    method Close()
      requires !closed
      modifies this
      ensures closed && frames == old(frames)
    {
      closed := true;
    }
  }

  /** A caller-chosen name paired with an item's dedicated channel. */
  datatype ItemOutput = ItemOutput(id: string, output: Channel)

  /** One request template repeated `iterations` times. */
  class BatchItem<V> {
    const id: Uuid
    const targetURL: string
    const headers: map<string, string>
    const data: Dataset<V>
    const verb: Method
    var iterations: int
    const delay: int
    var iterationsDone: int
    var output: Option<ItemOutput>

    /** A composite literal `&BatchItem{...}`: every field as given. */
    constructor Literal(id: Uuid, targetURL: string, headers: map<string, string>, data: Dataset<V>,
                        verb: Method, iterations: int, delay: int, iterationsDone: int,
                        output: Option<ItemOutput>)
      ensures this.id == id && this.targetURL == targetURL && this.headers == headers
      ensures this.data == data && this.verb == verb && this.iterations == iterations
      ensures this.delay == delay && this.iterationsDone == iterationsDone && this.output == output
    {
      this.id, this.targetURL, this.headers, this.data := id, targetURL, headers, data;
      this.verb, this.iterations, this.delay := verb, iterations, delay;
      this.iterationsDone, this.output := iterationsDone, output;
    }

    /**
     * `NewBatchItem`: one iteration, no delay, no data and no dedicated
     * output; `id` is the value `uuid.New()` returned.
     */
    constructor New(id: Uuid, verb: Method, targetURL: string, headers: map<string, string>)
      ensures this.id == id && this.verb == verb && this.targetURL == targetURL && this.headers == headers
      ensures iterations == 1 && output == None
      ensures data == Nil && delay == 0 && iterationsDone == 0
    {
      this.id, this.targetURL, this.verb, this.headers := id, targetURL, verb, headers;
      iterations := 1;
      data, delay, iterationsDone, output := Nil, 0, 0, None;
    }

    method SetIterations(iter: int)
      modifies this`iterations
      ensures iterations == iter
    {
      iterations := iter;
    }

    method SetOutput(it: Option<ItemOutput>)
      modifies this`output
      ensures output == it
    {
      output := it;
    }

    /** `GetOutput` dereferences the pointer: a nil one panics in Go. */
    function GetOutput(): (o: ItemOutput)
      reads this`output
      requires output.Some?
      ensures Some(o) == output
    {
      output.value
    }

    /** The frame of iteration `k`, when the collaborator then is `http(k)`. */
    function Frame(k: nat, marshal: V -> Result<Bytes, Error>, http: nat -> Http): OutputFrame
    {
      var reply := Perform(Requests.New(verb, targetURL, headers), data, marshal, http(k));
      OutputFrame(reply.data, reply.headers, reply.err)
    }

    /** The frames of iterations 0 .. n-1, in that order. */
    function FramesUpTo(n: nat, marshal: V -> Result<Bytes, Error>, http: nat -> Http): (fs: seq<OutputFrame>)
      ensures |fs| == n
    {
      seq(n, k requires 0 <= k < n => Frame(k, marshal, http))
    }

    /**
     * `Exec`: reset the counter, run the request once per iteration and send
     * each frame to the dedicated channel if there is one, else to
     * `globalOutput`; then close the dedicated channel only.
     */
    method Exec(globalOutput: Channel, marshal: V -> Result<Bytes, Error>, http: nat -> Http)
      requires output.Some? ==> !output.value.output.closed
      requires output.None? && iterations > 0 ==> !globalOutput.closed
      modifies this`iterationsDone, if output.Some? then output.value.output else globalOutput
      ensures iterationsDone == Max0(iterations)
      ensures output.Some? ==>
                output.value.output.frames
                == old(output.value.output.frames) + FramesUpTo(Max0(iterations), marshal, http)
                && output.value.output.closed
      ensures output.None? ==>
                globalOutput.frames == old(globalOutput.frames) + FramesUpTo(Max0(iterations), marshal, http)
                && globalOutput.closed == old(globalOutput.closed)
      ensures output.Some? && output.value.output != globalOutput ==>
                globalOutput.frames == old(globalOutput.frames) && globalOutput.closed == old(globalOutput.closed)
    {
      var sink := globalOutput;
      if output.Some? {
        sink := output.value.output;
      }
      iterationsDone := 0;
      while iterationsDone < iterations
        invariant 0 <= iterationsDone <= Max0(iterations)
        invariant sink.frames == old(sink.frames) + FramesUpTo(iterationsDone, marshal, http)
        invariant sink.closed == old(sink.closed)
      {
        var body, hdrs, err := Do(Requests.New(verb, targetURL, headers), data, marshal, http(iterationsDone));
        sink.Send(OutputFrame(body, hdrs, err));
        iterationsDone := iterationsDone + 1;
      }
      if output.Some? {
        output.value.output.Close();
      }
    }
  }

  /** Some item of `items` carries `id`. */
  predicate HasId<V>(items: seq<BatchItem<V>>, id: Uuid) {
    exists j :: 0 <= j < |items| && items[j].id == id
  }

  /** No two items of `items` share an id. */
  predicate UniqueIds<V>(items: seq<BatchItem<V>>) {
    forall i, j :: 0 <= i < j < |items| ==> items[i].id != items[j].id
  }

  /** The sum of `iterations` over `items`. */
  function TotalIterations<V>(items: seq<BatchItem<V>>): int
    reads items`iterations
  {
    if items == [] then 0
    else TotalIterations(items[..|items| - 1]) + items[|items| - 1].iterations
  }

  /** How many frames the items without a dedicated output send. */
  function SharedIterations<V>(items: seq<BatchItem<V>>): nat
    reads items`iterations, items`output
  {
    if items == [] then 0
    else
      var last := items[|items| - 1];
      SharedIterations(items[..|items| - 1]) + (if last.output.None? then Max0(last.iterations) else 0)
  }

  /** How many frames the items with a dedicated output send. */
  function DedicatedIterations<V>(items: seq<BatchItem<V>>): nat
    reads items`iterations, items`output
  {
    if items == [] then 0
    else
      var last := items[|items| - 1];
      DedicatedIterations(items[..|items| - 1]) + (if last.output.Some? then Max0(last.iterations) else 0)
  }

  /**
   * Where one item's run goes: its dedicated channel, if any, and the frames
   * it sends there (or to the shared channel when there is none).
   */
  datatype Route = Route(sink: Option<Channel>, frames: seq<OutputFrame>)

  /** The dedicated channel of an item, if it has one. */
  function SinkOf<V>(item: BatchItem<V>): Option<Channel>
    reads item`output
  {
    if item.output.Some? then Some(item.output.value.output) else None
  }

  /** The route of every item, item i meeting the collaborator `http(i)`. */
  function Routes<V>(items: seq<BatchItem<V>>, marshal: V -> Result<Bytes, Error>,
                     http: nat -> nat -> Http): (rs: seq<Route>)
    reads items`iterations, items`output
    ensures |rs| == |items|
  {
    if items == [] then []
    else
      var n := |items| - 1;
      Routes(items[..n], marshal, http)
        + [Route(SinkOf(items[n]), items[n].FramesUpTo(Max0(items[n].iterations), marshal, http(n)))]
  }

  lemma {:induction false} RouteAt<V>(items: seq<BatchItem<V>>, marshal: V -> Result<Bytes, Error>,
                                      http: nat -> nat -> Http, i: nat)
    requires i < |items|
    ensures Routes(items, marshal, http)[i]
         == Route(SinkOf(items[i]), items[i].FramesUpTo(Max0(items[i].iterations), marshal, http(i)))
  {
    var n := |items| - 1;
    if i < n {
      RouteAt(items[..n], marshal, http, i);
    }
  }

  /** The frames of the routes without a dedicated channel, in route order. */
  function Shared(rs: seq<Route>): seq<OutputFrame> {
    if rs == [] then []
    else Shared(rs[..|rs| - 1]) + (if rs[|rs| - 1].sink.None? then rs[|rs| - 1].frames else [])
  }

  /** The frames the shared channel receives when the items run in list order. */
  function SharedFrames<V>(items: seq<BatchItem<V>>, marshal: V -> Result<Bytes, Error>,
                           http: nat -> nat -> Http): seq<OutputFrame>
    reads items`iterations, items`output
  {
    Shared(Routes(items, marshal, http))
  }

  lemma {:induction false} SharedLength<V>(items: seq<BatchItem<V>>, rs: seq<Route>)
    requires |rs| == |items|
    requires forall i :: 0 <= i < |items| ==>
               |rs[i].frames| == Max0(items[i].iterations) && (rs[i].sink.None? <==> items[i].output.None?)
    ensures |Shared(rs)| == SharedIterations(items)
  {
    if items != [] {
      SharedLength(items[..|items| - 1], rs[..|rs| - 1]);
    }
  }

  /** The shared channel receives exactly the iterations of items without a dedicated output. */
  lemma {:induction false} SharedFramesLength<V>(items: seq<BatchItem<V>>, marshal: V -> Result<Bytes, Error>,
                              http: nat -> nat -> Http)
    ensures |SharedFrames(items, marshal, http)| == SharedIterations(items)
  {
    var rs := Routes(items, marshal, http);
    forall i | 0 <= i < |items|
      ensures |rs[i].frames| == Max0(items[i].iterations) && (rs[i].sink.None? <==> items[i].output.None?)
    {
      RouteAt(items, marshal, http, i);
    }
    SharedLength(items, rs);
  }

  /** How many frames the routes with a dedicated channel carry. */
  function Dedicated(rs: seq<Route>): nat {
    if rs == [] then 0
    else Dedicated(rs[..|rs| - 1]) + (if rs[|rs| - 1].sink.Some? then |rs[|rs| - 1].frames| else 0)
  }

  lemma {:induction false} DedicatedLength<V>(items: seq<BatchItem<V>>, rs: seq<Route>)
    requires |rs| == |items|
    requires forall i :: 0 <= i < |items| ==>
               |rs[i].frames| == Max0(items[i].iterations) && (rs[i].sink.None? <==> items[i].output.None?)
    ensures Dedicated(rs) == DedicatedIterations(items)
  {
    if items != [] {
      DedicatedLength(items[..|items| - 1], rs[..|rs| - 1]);
    }
  }

  /** The dedicated channels together receive the iterations of the items that have one. */
  lemma {:induction false} DedicatedFramesLength<V>(items: seq<BatchItem<V>>, marshal: V -> Result<Bytes, Error>,
                                                    http: nat -> nat -> Http)
    ensures Dedicated(Routes(items, marshal, http)) == DedicatedIterations(items)
  {
    var rs := Routes(items, marshal, http);
    forall i | 0 <= i < |items|
      ensures |rs[i].frames| == Max0(items[i].iterations) && (rs[i].sink.None? <==> items[i].output.None?)
    {
      RouteAt(items, marshal, http, i);
    }
    DedicatedLength(items, rs);
  }

  /**
   * Every frame of a run reaches some channel: the shared frames and the
   * dedicated ones together number `TotalIterations` when no count is negative.
   */
  lemma EveryFrameRouted<V>(items: seq<BatchItem<V>>, marshal: V -> Result<Bytes, Error>, http: nat -> nat -> Http)
    requires forall i :: 0 <= i < |items| ==> items[i].iterations >= 0
    ensures |SharedFrames(items, marshal, http)| + Dedicated(Routes(items, marshal, http)) == TotalIterations(items)
  {
    SharedFramesLength(items, marshal, http);
    DedicatedFramesLength(items, marshal, http);
    AllFramesCounted(items);
  }

  /**
   * Across the shared channel and all dedicated ones, the frame count is the
   * sum of max(0, iterations); it is `TotalIterations` when no count is negative.
   */
  lemma {:induction false} AllFramesCounted<V>(items: seq<BatchItem<V>>)
    requires forall i :: 0 <= i < |items| ==> items[i].iterations >= 0
    ensures SharedIterations(items) + DedicatedIterations(items) == TotalIterations(items)
  {
    if items != [] {
      AllFramesCounted(items[..|items| - 1]);
    }
  }

  /**
   * The shared channel gets no frame exactly when every item either has a
   * dedicated output or runs no iteration.
   */
  lemma {:induction false} NothingShared<V>(items: seq<BatchItem<V>>)
    ensures SharedIterations(items) == 0
        <==> forall i :: 0 <= i < |items| ==> items[i].output.Some? || items[i].iterations <= 0
  {
    if items != [] {
      var n := |items| - 1;
      NothingShared(items[..n]);
      assert forall i :: 0 <= i < n ==> items[..n][i] == items[i];
    }
  }

  /**
   * Struct literals that leave `Id` out all carry `ZeroUuid`: once one of them
   * is in the list, `Add` leaves the list unchanged for every other one.
   */
  lemma ZeroIdsCollide<V>(items: seq<BatchItem<V>>, k: nat, bi: BatchItem<V>)
    requires k < |items| && items[k].id == ZeroUuid && bi.id == ZeroUuid
    ensures HasId(items, bi.id)
    ensures (if HasId(items, bi.id) then items else items + [bi]) == items
  {
    assert items[k].id == bi.id;
  }

  /**
   * `itemInSlice`: the index of the first item with the same id as `bi`,
   * or -1 when there is none.
   */
  method ItemInSlice<V>(bi: BatchItem<V>, haystack: seq<BatchItem<V>>) returns (k: int)
    ensures -1 <= k < |haystack|
    ensures k >= 0 ==> haystack[k].id == bi.id && forall j :: 0 <= j < k ==> haystack[j].id != bi.id
    ensures k == -1 <==> !HasId(haystack, bi.id)
  {
    for i := 0 to |haystack|
      invariant forall j :: 0 <= j < i ==> haystack[j].id != bi.id
    {
      if haystack[i].id == bi.id {
        return i;
      }
    }
    return -1;
  }

  /*
   * The proof of `RunBatch` is done over a ghost plan, the route of every
   * item computed before anything runs, so that each step is reasoned about
   * one item and one channel at a time.
   */

  /** Over one run: a route's dedicated channel got the route's frames and was closed. */
  twostate predicate Delivered(r: Route)
    reads if r.sink.Some? then {r.sink.value} else {}
  {
    r.sink.Some? ==> r.sink.value.closed && r.sink.value.frames == old(r.sink.value.frames) + r.frames
  }

  /** `route` is where `item` sends, and what, when item i meets `http`. */
  ghost predicate Planned<V>(item: BatchItem<V>, route: Route, marshal: V -> Result<Bytes, Error>, http: nat -> Http)
    reads item`iterations, item`output
  {
    route == Route(SinkOf(item), item.FramesUpTo(Max0(item.iterations), marshal, http))
  }

  /** `Exec` stated over a planned route. */
  method Step<V>(item: BatchItem<V>, shared: Channel, marshal: V -> Result<Bytes, Error>, http: nat -> Http,
                 ghost route: Route)
    requires Planned(item, route, marshal, http)
    requires route.sink.Some? ==> route.sink.value != shared && !route.sink.value.closed
    requires !shared.closed
    modifies item`iterationsDone, if route.sink.Some? then route.sink.value else shared
    ensures item.iterationsDone == Max0(item.iterations)
    ensures route.sink.Some? ==>
              route.sink.value.closed && route.sink.value.frames == old(route.sink.value.frames) + route.frames
    ensures route.sink.None? ==> shared.frames == old(shared.frames) + route.frames && !shared.closed
  {
    item.Exec(shared, marshal, http);
  }

  /** The item's counter stopped at its iteration count (0 for a negative count). */
  ghost predicate Finished<V>(item: BatchItem<V>)
    reads item`iterationsDone, item`iterations
  {
    item.iterationsDone == Max0(item.iterations)
  }

  /** The dedicated channels of a plan. */
  ghost function PlanSinks(plan: seq<Route>): set<Channel>
  {
    set i | 0 <= i < |plan| && plan[i].sink.Some? :: plan[i].sink.value
  }

  /**
   * The state after the first j items of the plan ran, against the shared
   * frames `s0` and the dedicated frames `init` from before the first one.
   */
  ghost predicate Progress<V>(its: seq<BatchItem<V>>, shared: Channel, plan: seq<Route>,
                              s0: seq<OutputFrame>, init: seq<seq<OutputFrame>>, j: nat)
    reads its, shared, PlanSinks(plan)
    requires |plan| == |its| == |init| && j <= |its|
  {
    && !shared.closed
    && shared.frames == s0 + Shared(plan[..j])
    && (forall i :: 0 <= i < j && plan[i].sink.Some? ==>
          plan[i].sink.value.closed && plan[i].sink.value.frames == init[i] + plan[i].frames)
    && (forall i :: j <= i < |its| && plan[i].sink.Some? ==>
          !plan[i].sink.value.closed && plan[i].sink.value.frames == init[i])
    && (forall i :: 0 <= i < j ==> Finished(its[i]))
  }

  /** Run item j: the progress after j items becomes the progress after j + 1. */
  method Advance<V>(its: seq<BatchItem<V>>, shared: Channel, marshal: V -> Result<Bytes, Error>,
                    http: nat -> nat -> Http, ghost plan: seq<Route>, ghost owner: map<Channel, nat>,
                    ghost s0: seq<OutputFrame>, ghost init: seq<seq<OutputFrame>>, j: nat)
    requires |plan| == |its| == |init| && j < |its|
    requires forall i :: 0 <= i < |its| ==> Planned(its[i], plan[i], marshal, http(i))
    requires shared !in owner
    requires forall i :: 0 <= i < |plan| && plan[i].sink.Some? ==>
               plan[i].sink.value in owner && owner[plan[i].sink.value] == i
    requires Progress(its, shared, plan, s0, init, j)
    modifies its`iterationsDone, shared, owner.Keys
    ensures Progress(its, shared, plan, s0, init, j + 1)
  {
    assert plan[..j + 1][..j] == plan[..j];
    Step(its[j], shared, marshal, http(j), plan[j]);
  }

  /**
   * The loop of `RunBatch`: run every item in list order. `owner` names the
   * index of each dedicated channel, so no two routes share one.
   */
  method RunRoutes<V>(its: seq<BatchItem<V>>, shared: Channel, marshal: V -> Result<Bytes, Error>,
                      http: nat -> nat -> Http, ghost plan: seq<Route>, ghost owner: map<Channel, nat>)
    requires |plan| == |its|
    requires forall i :: 0 <= i < |its| ==> Planned(its[i], plan[i], marshal, http(i))
    requires !shared.closed && shared !in owner
    requires forall i :: 0 <= i < |plan| && plan[i].sink.Some? ==>
               plan[i].sink.value in owner && owner[plan[i].sink.value] == i && !plan[i].sink.value.closed
    modifies its`iterationsDone, shared, owner.Keys
    ensures !shared.closed && shared.frames == old(shared.frames) + Shared(plan)
    ensures forall i :: 0 <= i < |plan| ==> Delivered(plan[i])
    ensures forall i :: 0 <= i < |its| ==> Finished(its[i])
  {
    ghost var init := seq(|plan|, i requires 0 <= i < |plan| reads PlanSinks(plan) =>
                            if plan[i].sink.Some? then plan[i].sink.value.frames else []);
    ghost var s0 := shared.frames;
    for j := 0 to |its|
      invariant Progress(its, shared, plan, s0, init, j)
    {
      Advance(its, shared, marshal, http, plan, owner, s0, init, j);
    }
    assert plan[..|its|] == plan;
  }

  /** The plan of `its` in the current state, each route planned for its item. */
  lemma PlanFor<V>(its: seq<BatchItem<V>>, marshal: V -> Result<Bytes, Error>, http: nat -> nat -> Http)
    returns (plan: seq<Route>)
    ensures |plan| == |its| && plan == Routes(its, marshal, http)
    ensures forall i :: 0 <= i < |its| ==> Planned(its[i], plan[i], marshal, http(i))
  {
    plan := Routes(its, marshal, http);
    forall i | 0 <= i < |its|
      ensures Planned(its[i], plan[i], marshal, http(i))
    {
      RouteAt(its, marshal, http, i);
    }
  }

  /** `owner` maps exactly the dedicated channels of `items`, each to the index of its item. */
  ghost predicate Owns<V>(owner: map<Channel, nat>, items: seq<BatchItem<V>>)
    reads items`output
  {
    && (forall i :: 0 <= i < |items| && items[i].output.Some? ==>
          items[i].output.value.output in owner && owner[items[i].output.value.output] == i)
    && (forall c :: c in owner ==>
          owner[c] < |items| && items[owner[c]].output.Some? && items[owner[c]].output.value.output == c)
  }

  /** `index` maps every item of `items` to its position, so no item is listed twice. */
  ghost predicate Indexes<V>(index: map<BatchItem<V>, nat>, items: seq<BatchItem<V>>) {
    forall i :: 0 <= i < |items| ==> items[i] in index && index[items[i]] == i
  }

  /** The plan's dedicated channels are those `owner` names, at their routes' indices. */
  lemma PlanOwned<V>(its: seq<BatchItem<V>>, marshal: V -> Result<Bytes, Error>, http: nat -> nat -> Http,
                     plan: seq<Route>, owner: map<Channel, nat>)
    requires |plan| == |its|
    requires forall i :: 0 <= i < |its| ==> Planned(its[i], plan[i], marshal, http(i))
    requires Owns(owner, its)
    ensures forall i :: 0 <= i < |plan| && plan[i].sink.Some? ==>
              plan[i].sink.value in owner && owner[plan[i].sink.value] == i
  {
  }

  /** A list of items and the channel that items without their own output write to. */
  class BatchRequest<V> {
    var items: seq<BatchItem<V>>
    var output: Channel?

    /**
     * `NewBatchRequest`: keep the items as given (no deduplication) and
     * allocate a shared channel sized to the total iteration count, whatever
     * `initOutput` says; `make` panics on a negative size.
     */
    constructor (items: seq<BatchItem<V>>, initOutput: bool)
      requires TotalIterations(items) >= 0
      ensures this.items == items
      ensures output != null && fresh(output)
      ensures output.capacity == TotalIterations(items) && output.frames == [] && !output.closed
    {
      this.items := items;
      output := null;
      new;
      var size := GetTotalIterations();
      output := new Channel(size);
    }

    method SetOutput(c: Channel?)
      modifies this`output
      ensures output == c
    {
      output := c;
    }

    /** `GetTotalIterations`: the sum of `iterations` over the items, 0 for none. */
    method GetTotalIterations() returns (out: int)
      ensures out == TotalIterations(items)
    {
      out := 0;
      for i := 0 to |items|
        invariant out == TotalIterations(items[..i])
      {
        assert items[..i + 1][..i] == items[..i];
        out := out + items[i].iterations;
      }
      assert items[..|items|] == items;
    }

    /** `Add`: append `bi` unless an item with its id is already present. */
    method Add(bi: BatchItem<V>)
      modifies this`items
      ensures items == if HasId(old(items), bi.id) then old(items) else old(items) + [bi]
      ensures UniqueIds(old(items)) ==> UniqueIds(items)
    {
      var i := ItemInSlice(bi, items);
      if i == -1 {
        items := items + [bi];
      }
    }

    /**
     * `RunBatch`, run sequentially: execute each item in list order with the
     * shared channel as default, then close the shared channel once. Go
     * panics on sending to or closing a closed channel, hence the distinct,
     * open channels this needs: `owner` maps each dedicated channel to the
     * index of the one item that has it, and holds no other channel; the
     * shared channel is not one. An item listed twice would run in two
     * goroutines that race on its counter, so `index` maps each item to its
     * one position in the list.
     */
    method RunBatch(marshal: V -> Result<Bytes, Error>, http: nat -> nat -> Http,
                    ghost owner: map<Channel, nat>, ghost index: map<BatchItem<V>, nat>)
      requires output != null && !output.closed && output !in owner
      requires Owns(owner, items) && Indexes(index, items)
      requires forall i :: 0 <= i < |items| && items[i].output.Some? ==> !items[i].output.value.output.closed
      modifies items`iterationsDone, output, owner.Keys
      ensures output.closed
      ensures output.frames == old(output.frames + SharedFrames(items, marshal, http))
      ensures forall i :: 0 <= i < |items| ==>
                items[i].iterations == old(items[i].iterations) && items[i].output == old(items[i].output)
      ensures forall i :: 0 <= i < |items| && items[i].output.Some? ==>
                items[i].output.value.output.closed
                && items[i].output.value.output.frames
                   == old(items[i].output.value.output.frames
                          + items[i].FramesUpTo(Max0(items[i].iterations), marshal, http(i)))
      ensures forall i :: 0 <= i < |items| ==> items[i].iterationsDone == Max0(items[i].iterations)
    {
      var shared, its := output, items;
      ghost var plan := PlanFor(its, marshal, http);
      PlanOwned(its, marshal, http, plan, owner);
      RunRoutes(its, shared, marshal, http, plan, owner);
      shared.Close();
    }
  }
}
