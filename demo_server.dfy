/** The in-memory log store of the demo server (demo-server/main.go): one
    ordered list of logs and the four handlers GET, POST, PUT and DELETE on
    the route "/". Each handler runs as one sequential step (the mutex is not
    modelled), and its HTTP reply is reduced to a status code and, when the
    handler writes one, the JSON envelope before encoding. */
module DemoServer {

  import opened Wrappers
  import opened ClientModel

  const StatusOK := 200
  const StatusBadRequest := 400
  const StatusNotFound := 404

  /** What a handler writes back: a status and possibly an envelope. */
  datatype Reply = Reply(status: int, body: Option<Order>)

  /** The envelope items for a list of logs: one item per log, in order. */
  function Items(logs: seq<Log>): (r: seq<OrderItem>)
    ensures |r| == |logs|
    ensures forall i :: 0 <= i < |logs| ==> r[i].log == logs[i]
  {
    if logs == [] then [] else [OrderItem(logs[0])] + Items(logs[1..])
  }

  /** The logs carried by a list of envelope items, in order. */
  function Logs(items: seq<OrderItem>): (r: seq<Log>)
    ensures |r| == |items|
    ensures forall i :: 0 <= i < |items| ==> r[i] == items[i].log
  {
    if items == [] then [] else [items[0].log] + Logs(items[1..])
  }

  /** The envelope every successful handler writes: no id, the items of `logs`. */
  function Envelope(logs: seq<Log>): Order
  {
    Order("", Items(logs))
  }

  /** Decoding the items of an envelope recovers exactly the logs it was built from. */
  lemma LogsOfItems(logs: seq<Log>)
    ensures Logs(Items(logs)) == logs
  {
  }

  /** Storing a request's items and writing them back yields the same items. */
  lemma ItemsOfLogs(items: seq<OrderItem>)
    ensures Items(Logs(items)) == items
  {
  }

  /** The copy loop every handler runs before encoding its reply: a slice of
      the same length as the stored list, filled by index. */
  method CopyOut(logs: seq<Log>) returns (items: seq<OrderItem>)
    ensures items == Items(logs)
  {
    var out := new OrderItem[|logs|](_ => ZeroItem);
    for idx := 0 to |logs|
      invariant forall j :: 0 <= j < idx ==> out[j] == OrderItem(Log(logs[j].body))
    {
      out[idx] := OrderItem(Log(logs[idx].body));
    }
    items := out[..];
  }

  class Server {
    /** The stored logs, oldest first. */
    var logs: seq<Log>

    /** A server starts with no logs. */
    constructor ()
      ensures logs == []
    {
      logs := [];
    }

    /** The loop shared by POST and PUT: the list is reset and rebuilt by
        appending one fresh log per request item. */
    method Install(items: seq<OrderItem>)
      modifies this
      ensures logs == Logs(items)
    {
      logs := [];
      for idx := 0 to |items|
        invariant |logs| == idx
        invariant forall j :: 0 <= j < idx ==> logs[j] == items[j].log
      {
        logs := logs + [Log(items[idx].log.body)];
      }
    }

    /** GET: always 200 with every stored log, in order; nothing changes. */
    method Get() returns (reply: Reply)
      ensures reply.status == StatusOK
      ensures reply.body.Some? && reply.body.value.id == ""
      ensures Logs(reply.body.value.items) == logs
    {
      var items := CopyOut(logs);
      reply := Reply(StatusOK, Some(Order("", items)));
      LogsOfItems(logs);
    }

    /** POST: a body that does not decode is rejected with 400 and nothing
        changes; otherwise the whole list is replaced by the request's logs
        and the new list is written back. */
    method Post(body: Option<Order>) returns (reply: Reply)
      modifies this
      ensures body.None? ==> reply == Reply(StatusBadRequest, None) && logs == old(logs)
      ensures body.Some? ==> logs == Logs(body.value.items)
      ensures body.Some? ==> reply == Reply(StatusOK, Some(Envelope(logs)))
    {
      if body.None? {
        reply := Reply(StatusBadRequest, None);
        return;
      }
      Install(body.value.items);
      var items := CopyOut(logs);
      reply := Reply(StatusOK, Some(Order("", items)));
    }

    /** PUT: `orderID` is the result of parsing the path parameter (None when
        it is not an integer) and `body` that of decoding the request.
        The index is only compared with the current length, never used:
        on a non-empty list any index up to the last position (negative ones
        included) lets the whole list be replaced by the request's logs. On
        an empty list PUT answers 200 without a body and changes nothing. */
    method Put(orderID: Option<int>, body: Option<Order>) returns (reply: Reply)
      modifies this
      ensures orderID.None? ==> reply == Reply(StatusBadRequest, None) && logs == old(logs)
      ensures orderID.Some? && old(logs) == [] ==> reply == Reply(StatusOK, None) && logs == []
      ensures orderID.Some? && old(logs) != [] && orderID.value > |old(logs)| - 1 ==>
                reply == Reply(StatusBadRequest, None) && logs == old(logs)
      ensures orderID.Some? && old(logs) != [] && orderID.value <= |old(logs)| - 1 && body.None? ==>
                reply == Reply(StatusBadRequest, None) && logs == old(logs)
      ensures orderID.Some? && old(logs) != [] && orderID.value <= |old(logs)| - 1 && body.Some? ==>
                logs == Logs(body.value.items) && reply == Reply(StatusOK, Some(Envelope(logs)))
    {
      if orderID.None? {
        reply := Reply(StatusBadRequest, None);
        return;
      }
      if |logs| == 0 {
        reply := Reply(StatusOK, None);
        return;
      }
      if orderID.value > |logs| - 1 {
        reply := Reply(StatusBadRequest, None);
        return;
      }
      if body.None? {
        reply := Reply(StatusBadRequest, None);
        return;
      }
      Install(body.value.items);
      var items := CopyOut(logs);
      reply := Reply(StatusOK, Some(Order("", items)));
    }

    /** DELETE: 404 on an empty list; otherwise the last log is dropped and
        the remaining ones are written back. */
    method Delete() returns (reply: Reply)
      modifies this
      ensures old(logs) == [] ==> reply == Reply(StatusNotFound, None) && logs == []
      ensures old(logs) != [] ==> |logs| == |old(logs)| - 1 && logs == old(logs)[..|old(logs)| - 1]
      ensures old(logs) != [] ==> reply == Reply(StatusOK, Some(Envelope(logs)))
    {
      if |logs| == 0 {
        reply := Reply(StatusNotFound, None);
        return;
      }
      logs := logs[..|logs| - 1];
      var items := CopyOut(logs);
      reply := Reply(StatusOK, Some(Order("", items)));
    }
  }

  /** Two reads with no write in between return the same envelope. */
  method ReadTwice(s: Server) returns (first: Reply, second: Reply)
    ensures first == second
    ensures first.body.Some? && Logs(first.body.value.items) == s.logs
  {
    first := s.Get();
    second := s.Get();
    ItemsOfLogs(first.body.value.items);
    ItemsOfLogs(second.body.value.items);
  }

  /** A list created by POST and then replaced by PUT reads back as exactly
      the second list, with nothing of the first one merged in. */
  method ReplaceThenRead(first: seq<OrderItem>, second: seq<OrderItem>, index: int)
    returns (update: Reply, read: Reply)
    requires first != [] && index <= |first| - 1
    ensures update == Reply(StatusOK, Some(Order("", second)))
    ensures read == Reply(StatusOK, Some(Order("", second)))
  {
    var s := new Server();
    var created := s.Post(Some(Order("", first)));
    update := s.Put(Some(index), Some(Order("", second)));
    read := s.Get();
    ItemsOfLogs(second);
    ItemsOfLogs(read.body.value.items);
  }

  /** Deleting from [a, b, c] leaves [a, b], and a read confirms it. */
  method DeleteThenRead(a: string, b: string, c: string) returns (deleted: Reply, read: Reply)
    ensures deleted.status == StatusOK && read.status == StatusOK
    ensures read.body.Some? && Logs(read.body.value.items) == [Log(a), Log(b)]
    ensures deleted == read
  {
    var s := new Server();
    var items := [OrderItem(Log(a)), OrderItem(Log(b)), OrderItem(Log(c))];
    var created := s.Post(Some(Order("", items)));
    assert s.logs == [Log(a), Log(b), Log(c)];
    deleted := s.Delete();
    assert s.logs == [Log(a), Log(b)];
    read := s.Get();
    ItemsOfLogs(read.body.value.items);
  }

  /** On an empty store, PUT succeeds without a body whatever it is given,
      and the store stays empty; DELETE then answers 404. */
  method EmptyStore(orderID: Option<int>, body: Option<Order>) returns (update: Reply, read: Reply, deleted: Reply)
    ensures orderID.Some? ==> update == Reply(StatusOK, None)
    ensures orderID.None? ==> update == Reply(StatusBadRequest, None)
    ensures read.body.Some? && read.body.value.items == []
    ensures deleted == Reply(StatusNotFound, None)
  {
    var s := new Server();
    update := s.Put(orderID, body);
    read := s.Get();
    deleted := s.Delete();
  }

  /** On a store of two logs, PUT with index 2 or more is rejected and a
      read shows the two logs unchanged. */
  method OutOfRangeUpdate(x: string, y: string, index: int, body: Option<Order>)
    returns (update: Reply, read: Reply)
    requires index >= 2
    ensures update == Reply(StatusBadRequest, None)
    ensures read.body.Some? && Logs(read.body.value.items) == [Log(x), Log(y)]
  {
    var s := new Server();
    var created := s.Post(Some(Order("", [OrderItem(Log(x)), OrderItem(Log(y))])));
    assert s.logs == [Log(x), Log(y)];
    update := s.Put(Some(index), body);
    read := s.Get();
  }

  /** Any index at most the last position is accepted, negative ones
      included: the list becomes the request's logs. */
  method NegativeIndexAccepted(first: seq<OrderItem>, second: seq<OrderItem>, index: int)
    returns (update: Reply)
    requires first != [] && index < 0
    ensures update == Reply(StatusOK, Some(Order("", second)))
  {
    var s := new Server();
    var created := s.Post(Some(Order("", first)));
    update := s.Put(Some(index), Some(Order("", second)));
    ItemsOfLogs(second);
  }
}
