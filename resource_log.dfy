/** The item conversions of the provider's log resource (log/resource_log.go):
    the loops that copy between the provider's item list, whose bodies are
    `types.String` values, and the client's wire item list. The plugin
    framework (plan and state access, diagnostics) and the HTTP client are
    abstracted: the client's answer is a parameter, or a function of the
    request sent, and the wall-clock time is a parameter `now`. */
module ResourceLog {

  import opened Wrappers
  import opened ProviderModel
  import C = ClientModel

  /** An item whose body is neither Null nor Unknown. */
  predicate Present(item: OrderItem)
  {
    !item.log.body.isNull && !item.log.body.isUnknown
  }

  /** The bodies of the present items of a plan, in plan order. */
  function KeptBodies(plan: seq<OrderItem>): (r: seq<string>)
    ensures |r| <= |plan|
  {
    if plan == [] then []
    else
      var last := plan[|plan| - 1];
      KeptBodies(plan[..|plan| - 1]) + (if Present(last) then [last.log.body.value] else [])
  }

  /** What the Create loop leaves in its pre-sized slice: one slot per planned
      item, the kept bodies packed at the front in plan order, the remaining
      slots holding Go's zero item. */
  ghost predicate Compacted(plan: seq<OrderItem>, items: seq<C.OrderItem>)
  {
    var kept := KeptBodies(plan);
    && |items| == |plan|
    && (forall j :: 0 <= j < |kept| ==> items[j] == C.OrderItem(C.Log(kept[j])))
    && (forall j :: |kept| <= j < |items| ==> items[j] == C.ZeroItem)
  }

  /** When no body is Null or Unknown, every planned body is kept. */
  lemma {:induction false} KeptAllPresent(plan: seq<OrderItem>)
    requires forall i :: 0 <= i < |plan| ==> Present(plan[i])
    ensures |KeptBodies(plan)| == |plan|
    ensures forall i :: 0 <= i < |plan| ==> KeptBodies(plan)[i] == plan[i].log.body.value
  {
    if plan != [] {
      KeptAllPresent(plan[..|plan| - 1]);
    }
  }

  /** When every body is Null or Unknown, nothing is kept. */
  lemma {:induction false} KeptNoneAbsent(plan: seq<OrderItem>)
    requires forall i :: 0 <= i < |plan| ==> !Present(plan[i])
    ensures KeptBodies(plan) == []
  {
    if plan != [] {
      KeptNoneAbsent(plan[..|plan| - 1]);
    }
  }

  /** The number of planned items whose body is present. */
  function CountPresent(plan: seq<OrderItem>): nat
  {
    if plan == [] then 0
    else CountPresent(plan[..|plan| - 1]) + (if Present(plan[|plan| - 1]) then 1 else 0)
  }

  /** The write index reached by the Create loop, the number of kept bodies,
      is exactly the number of present planned items. */
  lemma {:induction false} KeptCountsPresent(plan: seq<OrderItem>)
    ensures |KeptBodies(plan)| == CountPresent(plan)
  {
    if plan != [] {
      KeptCountsPresent(plan[..|plan| - 1]);
    }
  }

  /** Every kept body is the body of some present planned item. */
  lemma {:induction false} KeptFromPlan(plan: seq<OrderItem>, j: nat)
    requires j < |KeptBodies(plan)|
    ensures exists i :: 0 <= i < |plan| && Present(plan[i]) && plan[i].log.body.value == KeptBodies(plan)[j]
  {
    var init := plan[..|plan| - 1];
    if j < |KeptBodies(init)| {
      KeptFromPlan(init, j);
      var i :| 0 <= i < |init| && Present(init[i]) && init[i].log.body.value == KeptBodies(init)[j];
      assert plan[i] == init[i];
    } else {
      assert Present(plan[|plan| - 1]);
    }
  }

  /** The Create loop: a slice of the plan's length, filled through a separate
      write index that advances only on items whose body is present. */
  method CreateRequestItems(plan: seq<OrderItem>) returns (items: seq<C.OrderItem>)
    ensures Compacted(plan, items)
  {
    var out := new C.OrderItem[|plan|](_ => C.ZeroItem);
    var idx := 0;
    for i := 0 to |plan|
      invariant idx == |KeptBodies(plan[..i])|
      invariant forall j :: 0 <= j < idx ==> out[j] == C.OrderItem(C.Log(KeptBodies(plan[..i])[j]))
      invariant forall j :: idx <= j < out.Length ==> out[j] == C.ZeroItem
    {
      assert plan[..i + 1][..i] == plan[..i];
      var item := plan[i];
      if item.log.body.isNull || item.log.body.isUnknown {
        continue;
      }
      out[idx] := C.OrderItem(C.Log(item.log.body.value));
      idx := idx + 1;
    }
    assert plan[..|plan|] == plan;
    items := out[..];
  }

  /** The state items for the items a server returned: each body becomes a
      known string, in order. */
  function StateItems(got: seq<C.OrderItem>): (r: seq<OrderItem>)
    ensures |r| == |got|
    ensures forall i :: 0 <= i < |got| ==> r[i] == OrderItem(Log(Known(got[i].log.body)))
  {
    if got == [] then [] else [OrderItem(Log(Known(got[0].log.body)))] + StateItems(got[1..])
  }

  /** The request items for a plan as Update builds them: each body's value is
      copied, whatever its flags. */
  function RequestItems(plan: seq<OrderItem>): (r: seq<C.OrderItem>)
    ensures |r| == |plan|
    ensures forall i :: 0 <= i < |plan| ==> r[i] == C.OrderItem(C.Log(plan[i].log.body.value))
  {
    if plan == [] then [] else [C.OrderItem(C.Log(plan[0].log.body.value))] + RequestItems(plan[1..])
  }

  /** Copying returned items into state and back to a request loses nothing. */
  lemma RequestOfState(got: seq<C.OrderItem>)
    ensures RequestItems(StateItems(got)) == got
  {
  }

  /** A plan whose bodies are all known strings survives the trip to a request
      and back into state unchanged. */
  lemma StateOfRequest(plan: seq<OrderItem>)
    requires forall i :: 0 <= i < |plan| ==> plan[i].log.body == Known(plan[i].log.body.value)
    ensures StateItems(RequestItems(plan)) == plan
  {
  }

  /** When every planned body is present, Create's compacted request is the
      element-for-element copy that Update sends. */
  lemma {:induction false} CompactedAllPresent(plan: seq<OrderItem>, items: seq<C.OrderItem>)
    requires forall i :: 0 <= i < |plan| ==> Present(plan[i])
    requires Compacted(plan, items)
    ensures items == RequestItems(plan)
  {
    KeptAllPresent(plan);
  }

  /** The index loop that turns returned items into state items (Create and
      Update responses). */
  method CopyToState(got: seq<C.OrderItem>) returns (items: seq<OrderItem>)
    ensures items == StateItems(got)
  {
    var out := new OrderItem[|got|](_ => OrderItem(Log(Known(""))));
    for idx := 0 to |got|
      invariant forall j :: 0 <= j < idx ==> out[j] == OrderItem(Log(Known(got[j].log.body)))
    {
      out[idx] := OrderItem(Log(Known(got[idx].log.body)));
    }
    items := out[..];
  }

  /** The index loop that turns plan items into request items (Update). */
  method CopyToRequest(plan: seq<OrderItem>) returns (items: seq<C.OrderItem>)
    ensures items == RequestItems(plan)
  {
    var out := new C.OrderItem[|plan|](_ => C.ZeroItem);
    for idx := 0 to |plan|
      invariant forall j :: 0 <= j < idx ==> out[j] == C.OrderItem(C.Log(plan[j].log.body.value))
    {
      out[idx] := C.OrderItem(C.Log(plan[idx].log.body.value));
    }
    items := out[..];
  }

  /** Create: sends the compacted plan with an empty id, and sets the state to
      id "0", the returned items and the time `now`. */
  method Create(plan: Order, createLog: C.Order -> C.Order, now: string)
    returns (sent: C.Order, state: Order)
    ensures sent.id == "" && Compacted(plan.items, sent.items)
    ensures state.id == Known("0") && state.lastUpdated == Known(now)
    ensures state.items == StateItems(createLog(sent).items)
  {
    var items := CreateRequestItems(plan.items);
    sent := C.Order("", items);
    var gotLogs := createLog(sent);
    var gotItems := CopyToState(gotLogs.items);
    state := Order(Known("0"), gotItems, Known(now));
  }

  /** Read: the prior state's items are discarded and rebuilt, by appending,
      from the fetched items; the id and the time stamp are kept. */
  method Read(state: Order, fetched: C.Order) returns (newState: Order)
    ensures newState.id == state.id && newState.lastUpdated == state.lastUpdated
    ensures newState.items == StateItems(fetched.items)
  {
    var items: seq<OrderItem> := [];
    for idx := 0 to |fetched.items|
      invariant |items| == idx
      invariant forall j :: 0 <= j < idx ==> items[j] == OrderItem(Log(Known(fetched.items[j].log.body)))
    {
      items := items + [OrderItem(Log(Known(fetched.items[idx].log.body)))];
    }
    newState := state.(items := items);
  }

  /** Update: sends the plan's bodies under the prior state's id; when the
      client call fails no new state is set, otherwise the new state keeps
      that id and holds the returned items and the time `now`. */
  method Update(plan: Order, state: Order, updateLog: (string, C.Order) -> Option<C.Order>, now: string)
    returns (sent: C.Order, result: Option<Order>)
    ensures sent == C.Order("", RequestItems(plan.items))
    ensures updateLog(state.id.value, sent).None? ==> result.None?
    ensures updateLog(state.id.value, sent).Some? ==>
              result == Some(Order(Known(state.id.value), StateItems(updateLog(state.id.value, sent).value.items), Known(now)))
  {
    var items := CopyToRequest(plan.items);
    var orderID := state.id.value;
    sent := C.Order("", items);
    var order := updateLog(orderID, sent);
    if order.None? {
      result := None;
      return;
    }
    var lis := CopyToState(order.value.items);
    result := Some(Order(Known(orderID), lis, Known(now)));
  }
}
