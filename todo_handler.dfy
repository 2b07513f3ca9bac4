/** The handler as the program runs it: a table object whose items the store
    operations change in place, and `LambdaHandler`, which computes the route key
    and the next id, resolves the path id, then walks the chain of route tests
    inside a catch-all. */
module TodoHandler {
  import opened Wrappers
  import opened PyInt
  import opened IdAllocation
  import opened TodoModel

  /** `r` is what a full scan of `s` returns: every stored item once, each
      under its own key, in an order the store chooses. */
  ghost predicate FullScan(r: seq<Task>, s: Store) {
    && |r| == |s|
    && (forall i | 0 <= i < |r| :: r[i].taskId in s && s[r[i].taskId] == r[i])
    && (forall i, j | 0 <= i < j < |r| :: r[i].taskId != r[j].taskId)
    && (forall k | k in s :: s[k] in r)
  }

  /** The key-value store the handler reads and writes. */
  class Table {
    var items: Store

    ghost predicate Valid()
      reads this
    {
      KeysMatch(items)
    }

    /** A full scan: every stored item once, in an order the store chooses. */
    method Scan() returns (r: seq<Task>)
      requires Valid()
      ensures FullScan(r, items)
    {
      r := [];
      var rest := items.Keys;
      while rest != {}
        invariant rest <= items.Keys
        invariant |r| + |rest| == |items.Keys|
        invariant forall i | 0 <= i < |r| :: r[i].taskId in items.Keys - rest && items[r[i].taskId] == r[i]
        invariant forall i, j | 0 <= i < j < |r| :: r[i].taskId != r[j].taskId
        invariant forall k | k in items.Keys - rest :: items[k] in r
        decreases rest
      {
        var k :| k in rest;
        r := r + [items[k]];
        rest := rest - {k};
      }
    }

    /** An unconditional put: the item replaces whatever is stored under its key. */
    method PutItem(t: Task)
      requires Valid()
      modifies this
      ensures Valid()
      ensures items == old(items)[t.taskId := t]
    {
      items := items[t.taskId := t];
    }

    /** A put conditional on the item's attributes `title` and `task_id` being
        absent; every stored item has both, so it writes exactly when the key is
        free, and `written` is false where the store reports that the condition
        failed. */
    method PutItemIfAbsent(t: Task) returns (written: bool)
      requires Valid()
      modifies this
      ensures Valid()
      ensures written <==> t.taskId !in old(items)
      ensures items == if written then old(items)[t.taskId := t] else old(items)
    {
      written := t.taskId !in items;
      if written {
        items := items[t.taskId := t];
      }
    }

    /** Deletes the item under `key`, if there is one. */
    method DeleteItem(key: string)
      requires Valid()
      modifies this
      ensures Valid()
      ensures items == old(items) - {key}
    {
      items := items - {key};
    }
  }

  /** The `task_id` of every scanned item: the scan projected on the key. */
  function TaskIds(r: seq<Task>): (ids: seq<string>)
    ensures |ids| == |r| && forall i | 0 <= i < |r| :: ids[i] == r[i].taskId
  {
    seq(|r|, i requires 0 <= i < |r| => r[i].taskId)
  }

  /** The scanned items as the attribute maps the store returns. */
  function AttributeList(r: seq<Task>): (items: seq<map<string, string>>)
    ensures |items| == |r| && forall i | 0 <= i < |r| :: items[i] == Attributes(r[i])
  {
    seq(|r|, i requires 0 <= i < |r| => Attributes(r[i]))
  }

  /** The ids of a full scan list exactly the stored keys, whatever its order. */
  lemma FullScanListsKeys(r: seq<Task>, s: Store)
    requires KeysMatch(s) && FullScan(r, s)
    ensures ListsKeys(TaskIds(r), s.Keys)
  {
    var ids := TaskIds(r);
    forall k | k in s.Keys ensures k in ids {
      var i :| 0 <= i < |r| && r[i] == s[k];
      assert ids[i] == k;
    }
  }

  /** The attribute maps of a full scan list every stored record once. */
  lemma FullScanListsTasks(r: seq<Task>, s: Store)
    requires FullScan(r, s)
    ensures ListsTasks(AttributeList(r), s)
  {
    var items := AttributeList(r);
    forall i | 0 <= i < |items| ensures exists k | k in s :: items[i] == Attributes(s[k]) {
      assert items[i] == Attributes(s[r[i].taskId]);
    }
    forall k | k in s ensures Attributes(s[k]) in items {
      var i :| 0 <= i < |r| && r[i] == s[k];
      assert items[i] == Attributes(s[k]);
    }
    forall i, j | 0 <= i < j < |items| ensures items[i] != items[j] {
      AttributesKeepTaskId(r[i]);
      AttributesKeepTaskId(r[j]);
    }
  }

  lemma AttributesKeepTaskId(t: Task)
    ensures "task_id" in Attributes(t) && Attributes(t)["task_id"] == t.taskId
  {
  }

  /** The id allocation: a scan projected on `task_id`, and one more than the
      largest id read as an integer; `None` where `max` or `int` raises. */
  method NewTaskId(table: Table) returns (newTaskId: Option<int>)
    requires table.Valid()
    ensures newTaskId.Some? <==> Allocatable(table.items.Keys)
    ensures newTaskId.Some? ==> newTaskId.value == NextId(table.items.Keys)
  {
    var scanned := table.Scan();
    var retTaskId := TaskIds(scanned);
    FullScanListsKeys(scanned, table.items);
    MaxOfScan(retTaskId, table.items.Keys);
    var maxId := MaxOf(ParseAll(retTaskId));
    if maxId.None? {
      return None;
    }
    return Some(maxId.value + 1);
  }

  /** The body of the `try`: the five route tests in turn, starting from the
      default reply. `raised` is the message of an exception that left the block
      (the rest of the block is then skipped, and the store keeps the writes made
      before it). */
  method TryRoutes(table: Table, routeKey: string, event: Event, resolvedId: string, newTaskId: int)
    returns (responseBody: JsonBody, statusCode: int, raised: Option<string>)
    requires table.Valid()
    modifies table
    ensures table.Valid()
    ensures RouteOf(routeKey) == ListAll ==>
      && table.items == old(table.items)
      && raised.None? && statusCode == 200
      && responseBody.Array? && ListsTasks(responseBody.items, old(table.items))
    ensures RouteOf(routeKey) != ListAll ==>
      var eff := RouteEffect(RouteOf(routeKey), old(table.items), event, resolvedId, newTaskId);
      && table.items == eff.store
      && (if eff.reply.Ok? then raised.None? && Reply(statusCode, responseBody) == eff.reply.value
          else raised == Some(eff.reply.message))
  {
    responseBody, statusCode, raised := UnsupportedRoute, 400, None;
    var taskId := resolvedId;

    if routeKey == "GET /todos" {
      var scanned := table.Scan();
      responseBody := Array(AttributeList(scanned));
      statusCode := 200;
      FullScanListsTasks(scanned, table.items);
    }

    if routeKey == "GET /todos/{task_id}" {
      var reply := GetItemFromDB(table.items, taskId);
      responseBody, statusCode := reply.body, reply.statusCode;
    }

    if routeKey == "DELETE /todos/{task_id}" {
      if event.pathParameters.None? {
        raised := Some(NoneNotSubscriptable);
        return;
      }
      var params := event.pathParameters.value;
      if "task_id" !in params {
        raised := Some(KeyErrorText("task_id"));
        return;
      }
      if params["task_id"].None? {
        raised := Some(KeyRejected);
        return;
      }
      table.DeleteItem(params["task_id"].value);
      responseBody, statusCode := TaskDeleted, 200;
    }

    if routeKey == "POST /todos" {
      taskId := IntToString(newTaskId);
      var requestJson := RequestJson(event.body);
      if requestJson.Err? {
        raised := Some(requestJson.message);
        return;
      }
      var title := Field(requestJson.value, "title");
      if title.Err? {
        raised := Some(title.message);
        return;
      }
      var description := Field(requestJson.value, "description");
      if description.Err? {
        raised := Some(description.message);
        return;
      }
      var status := "Pending";
      table.PutItem(Task(taskId, title.value, description.value, status));
      var reply := GetItemFromDB(table.items, taskId);
      responseBody, statusCode := reply.body, reply.statusCode;
    }

    if routeKey == "PUT /todos/{task_id}" {
      var requestJson := RequestJson(event.body);
      if requestJson.Err? {
        raised := Some(requestJson.message);
        return;
      }
      var title := Field(requestJson.value, "title");
      if title.Err? {
        raised := Some(title.message);
        return;
      }
      var description := Field(requestJson.value, "description");
      if description.Err? {
        raised := Some(description.message);
        return;
      }
      var status := Field(requestJson.value, "status");
      if status.Err? {
        raised := Some(status.message);
        return;
      }
      // Whether the conditional put wrote or the store reported that its
      // condition failed, the handler answers with what is stored now.
      var written := table.PutItemIfAbsent(Task(taskId, title.value, description.value, status.value));
      var reply := GetItemFromDB(table.items, taskId);
      responseBody, statusCode := reply.body, reply.statusCode;
    }
  }

  /** `lambda_handler`: the route key, the id allocation and the path id outside the
      `try` (an exception there leaves the handler), then the routes inside it, an
      exception from which becomes a 400 `{"Error:": message}`. */
  method LambdaHandler(table: Table, event: Event) returns (out: Outcome)
    requires table.Valid()
    modifies table
    ensures table.Valid()
    ensures Handled(old(table.items), event, table.items, out)
  {
    var routeKey := event.httpMethod + " " + event.resource;

    var nextId := NewTaskId(table);
    if nextId.None? {
      return Raised;
    }
    var newTaskId := nextId.value;

    var taskId: string;
    if event.pathParameters.None? {
      taskId := IntToString(newTaskId);
    } else if "task_id" !in event.pathParameters.value {
      return Raised;
    } else if event.pathParameters.value["task_id"].None? {
      taskId := IntToString(newTaskId);
    } else {
      taskId := event.pathParameters.value["task_id"].value;
    }

    assert ResolveTaskId(event.pathParameters, NextId(old(table.items).Keys)) == Some(taskId);

    var headers := JsonHeaders;
    var responseBody, statusCode, raised := TryRoutes(table, routeKey, event, taskId, newTaskId);
    if raised.Some? {
      statusCode := 400;
      responseBody := ErrorBody(raised.value);
    }
    out := Response(statusCode, responseBody, headers);
    assert Routed(old(table.items), event, taskId, newTaskId, table.items, out);
  }
}
