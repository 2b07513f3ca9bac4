/** What one invocation of the handler guarantees, route by route, stated over the
    reference definition `Handled` that `LambdaHandler` is proved to meet. */
module TodoProperties {
  import opened Wrappers
  import opened PyInt
  import opened IdAllocation
  import opened TodoModel

  /** The event names task `id` in its path. */
  ghost predicate HasPathId(e: Event, id: string) {
    e.pathParameters.Some? && "task_id" in e.pathParameters.value && e.pathParameters.value["task_id"] == Some(id)
  }

  /** The event has no path parameters, or its `task_id` is `None`. */
  ghost predicate LacksPathId(e: Event) {
    e.pathParameters.None? || ("task_id" in e.pathParameters.value && e.pathParameters.value["task_id"].None?)
  }

  /** Past the prologue, a route other than the listing leaves the store its
      effect leaves and answers its reply (or the catch-all's). */
  lemma HandledRoute(s: Store, e: Event, s': Store, out: Outcome)
    requires Handled(s, e, s', out) && out.Response?
    requires RouteOf(RouteKey(e)) != ListAll
    ensures Allocatable(s.Keys) && ResolveTaskId(e.pathParameters, NextId(s.Keys)).Some?
    ensures var eff := RouteEffect(RouteOf(RouteKey(e)), s, e, ResolveTaskId(e.pathParameters, NextId(s.Keys)).value, NextId(s.Keys));
      s' == eff.store && Reply(out.statusCode, out.body) == Respond(eff.reply)
  {
  }

  /** A create with both fields stores the `"Pending"` task and answers with it. */
  lemma CreateEffectStores(s: Store, id: string, f: map<string, string>)
    requires "title" in f && "description" in f
    ensures var t := Task(id, f["title"], f["description"], "Pending");
      CreateEffect(s, id, Fields(f)) == Effect(s[id := t], Ok(Reply(200, Object(Attributes(t)))))
  {
    var v := Lookup(f, ["title", "description"]).value;
    assert v == [f["title"], f["description"]];
  }

  /** An update with all three fields stores them only under an absent key, and
      answers with what is stored under the key afterwards. */
  lemma UpdateEffectStores(s: Store, id: string, f: map<string, string>)
    requires "title" in f && "description" in f && "status" in f
    ensures var t := Task(id, f["title"], f["description"], f["status"]);
      var s' := if id in s then s else s[id := t];
      UpdateEffect(s, id, Fields(f)) == Effect(s', Ok(Reply(200, Object(Attributes(s'[id])))))
  {
    var v := Lookup(f, ["title", "description", "status"]).value;
    assert v == [f["title"], f["description"], f["status"]];
  }

  /** A create or update whose required fields are not all in the body raises
      before any put: the store is unchanged and the message is a `KeyError`'s,
      or the parser's. */
  lemma MissingFieldEffect(s: Store, id: string, body: RequestBody, update: bool)
    requires !(body.Fields? && "title" in body.fields && "description" in body.fields
               && (update ==> "status" in body.fields))
    ensures var eff := if update then UpdateEffect(s, id, body) else CreateEffect(s, id, body);
      && eff.store == s && eff.reply.Err?
      && (body.NoBody? ==> eff.reply.message == "'title'")
  {
    var names := if update then ["title", "description", "status"] else ["title", "description"];
    if body.Fields? {
      var f := body.fields;
      if "title" !in f {
        assert names[0] !in f;
      } else if "description" !in f {
        assert names[1] !in f;
      } else {
        assert names[2] !in f;
      }
    } else if body.NoBody? {
      assert RequestJson(body) == Ok(map[]);
    }
  }

  /** The handler raises instead of answering exactly when the id allocation
      fails (an empty table, or a stored id `int()` rejects) or the path
      parameters lack `task_id`; whatever the route, and without touching the store. */
  lemma RaisesExactlyWhenPrologueFails(s: Store, e: Event, s': Store, out: Outcome)
    requires Handled(s, e, s', out)
    ensures out.Raised? <==> !Allocatable(s.Keys) || (e.pathParameters.Some? && "task_id" !in e.pathParameters.value)
    ensures out.Raised? ==> s' == s
  {
  }

  /** On an empty table `max` has nothing to take, so every request raises, a
      create included. */
  lemma EmptyTableRaises(e: Event, s': Store, out: Outcome)
    requires Handled(map[], e, s', out)
    ensures out == Raised && s' == map[]
  {
  }

  /** One stored id that is not an integer makes every request raise. */
  lemma NonNumericIdRaises(s: Store, e: Event, s': Store, out: Outcome, k: string)
    requires Handled(s, e, s', out)
    requires k in s && ParseInt(k).None?
    ensures out == Raised && s' == s
  {
  }

  /** Every response carries exactly the JSON content type and the open CORS header. */
  lemma ResponseHeaders(s: Store, e: Event, s': Store, out: Outcome)
    requires Handled(s, e, s', out) && out.Response?
    ensures out.headers == map["Content-Type" := "application/json", "Access-Control-Allow-Origin" := "*"]
  {
  }

  /** A route key other than the five answers 400 `{"Message": "Unsupported route"}`
      and changes nothing. */
  lemma UnsupportedRouteReply(s: Store, e: Event, s': Store, out: Outcome)
    requires Handled(s, e, s', out) && out.Response?
    requires RouteOf(RouteKey(e)) == Unsupported
    ensures s' == s
    ensures out.statusCode == 400 && out.body == Object(map["Message" := "Unsupported route"])
  {
  }

  /** `GET /todos` answers 200 with every stored record once and changes nothing. */
  lemma ListReply(s: Store, e: Event, s': Store, out: Outcome)
    requires Handled(s, e, s', out) && out.Response?
    requires RouteOf(RouteKey(e)) == ListAll
    ensures s' == s && out.statusCode == 200 && out.body.Array?
    ensures |out.body.items| == |s|
    ensures forall k | k in s :: Attributes(s[k]) in out.body.items
    ensures forall i | 0 <= i < |out.body.items| :: exists k | k in s :: out.body.items[i] == Attributes(s[k])
    ensures forall i, j | 0 <= i < j < |out.body.items| :: out.body.items[i] != out.body.items[j]
  {
  }

  /** `GET /todos/{task_id}` answers 200 with the stored record, or `{}` when
      there is none; absence is not an error, and nothing changes. */
  lemma GetReply(s: Store, e: Event, s': Store, out: Outcome, id: string)
    requires Handled(s, e, s', out) && out.Response?
    requires RouteOf(RouteKey(e)) == GetOne && HasPathId(e, id)
    ensures s' == s && out.statusCode == 200
    ensures out.body == Object(if id in s then Attributes(s[id]) else map[])
  {
  }

  /** Without a path id the read uses the freshly allocated id, which no item has,
      so it answers `{}`. */
  lemma GetWithoutPathIdFindsNothing(s: Store, e: Event, s': Store, out: Outcome)
    requires Handled(s, e, s', out) && out.Response?
    requires RouteOf(RouteKey(e)) == GetOne && LacksPathId(e)
    ensures s' == s && out.statusCode == 200 && out.body == Object(map[])
  {
    NextIdIsFresh(s.Keys);
  }

  /** `DELETE /todos/{task_id}` removes exactly that key, keeps every other item,
      and answers 200 with the success message whether or not the key was there. */
  lemma DeleteReply(s: Store, e: Event, s': Store, out: Outcome, id: string)
    requires Handled(s, e, s', out) && out.Response?
    requires RouteOf(RouteKey(e)) == DeleteOne && HasPathId(e, id)
    ensures s'.Keys == s.Keys - {id}
    ensures forall k | k in s' :: s'[k] == s[k]
    ensures out.statusCode == 200 && out.body == Object(map["message" := "Task deleted successfully"])
  {
  }

  /** A delete without path parameters fails inside the `try` (subscripting
      `None`) and answers 400 without touching the store. */
  lemma DeleteWithoutPathParameters(s: Store, e: Event, s': Store, out: Outcome)
    requires Handled(s, e, s', out) && out.Response?
    requires RouteOf(RouteKey(e)) == DeleteOne && e.pathParameters.None?
    ensures s' == s
    ensures out.statusCode == 400 && out.body == Object(map["Error:" := "'NoneType' object is not subscriptable"])
  {
  }

  /** The delete branch applied twice leaves what it leaves applied once, with
      the same reply. */
  lemma DeleteIdempotent(s: Store, p: PathParameters)
    ensures DeleteEffect(DeleteEffect(s, p).store, p) == DeleteEffect(s, p)
  {
  }

  /** Deleting the only stored task empties the table, and from then on every
      request raises, a create included, because `max` has no id to take. */
  lemma DeleteOfLastTaskBlocksTable(t: Task, e: Event, s': Store, out: Outcome, e2: Event, s'': Store, out2: Outcome)
    requires Handled(map[t.taskId := t], e, s', out) && out.Response?
    requires RouteOf(RouteKey(e)) == DeleteOne && HasPathId(e, t.taskId)
    requires Handled(s', e2, s'', out2)
    ensures s' == map[] && out.statusCode == 200
    ensures out2 == Raised && s'' == map[]
  {
    DeleteReply(map[t.taskId := t], e, s', out, t.taskId);
    assert s'.Keys == {};
    EmptyTableRaises(e2, s'', out2);
  }

  /** `POST /todos` with a title and a description stores a new `"Pending"` task
      under `str(max + 1)`, which was not a key before, keeps every other item,
      and answers 200 with the stored record; the path id plays no part. */
  lemma CreateReply(s: Store, e: Event, s': Store, out: Outcome)
    requires Handled(s, e, s', out) && out.Response?
    requires RouteOf(RouteKey(e)) == CreateOne
    requires e.body.Fields? && "title" in e.body.fields && "description" in e.body.fields
    ensures var id := IntToString(NextId(s.Keys));
      && id !in s
      && s'.Keys == s.Keys + {id}
      && s'[id] == Task(id, e.body.fields["title"], e.body.fields["description"], "Pending")
      && (forall k | k in s :: s'[k] == s[k])
      && out.statusCode == 200 && out.body == Object(Attributes(s'[id]))
  {
    HandledRoute(s, e, s', out);
    var n := NextId(s.Keys);
    var id := IntToString(n);
    CreateEffectStores(s, id, e.body.fields);
    var t := Task(id, e.body.fields["title"], e.body.fields["description"], "Pending");
    assert s' == s[id := t];
    assert out.statusCode == 200 && out.body == Object(Attributes(t));
    NextIdIsFresh(s.Keys);
  }

  /** After a create the table still allocates, and the next id is one more: two
      creates in a row store consecutive ids. */
  lemma CreateAdvancesNextId(s: Store, e: Event, s': Store, out: Outcome)
    requires Handled(s, e, s', out) && out.Response?
    requires RouteOf(RouteKey(e)) == CreateOne
    requires e.body.Fields? && "title" in e.body.fields && "description" in e.body.fields
    ensures Allocatable(s'.Keys) && NextId(s'.Keys) == NextId(s.Keys) + 1
  {
    CreateReply(s, e, s', out);
    NextIdAfterInsert(s.Keys);
  }

  /** A `PUT` never changes a stored item: whatever the body and the id, every
      item stored before is stored unchanged after, and at most the resolved id
      is added. */
  lemma UpdateKeepsStoredTasks(s: Store, e: Event, s': Store, out: Outcome)
    requires Handled(s, e, s', out) && out.Response?
    requires RouteOf(RouteKey(e)) == UpdateOne
    ensures forall k | k in s :: k in s' && s'[k] == s[k]
    ensures |s'.Keys - s.Keys| <= 1
  {
    HandledRoute(s, e, s', out);
    var taskId := ResolveTaskId(e.pathParameters, NextId(s.Keys)).value;
    assert s'.Keys - s.Keys <= {taskId};
    SubsetCardinality(s'.Keys - s.Keys, {taskId});
  }

  lemma SubsetCardinality(a: set<string>, b: set<string>)
    requires a <= b
    ensures |a| <= |b|
  {
    assert b == a + (b - a);
  }

  /** `PUT` on an existing task: nothing changes, and the reply is 200 with the
      record as it was; the requested update is dropped. */
  lemma UpdateExistingIsDropped(s: Store, e: Event, s': Store, out: Outcome, id: string)
    requires Handled(s, e, s', out) && out.Response?
    requires RouteOf(RouteKey(e)) == UpdateOne && HasPathId(e, id) && id in s
    requires e.body.Fields? && "title" in e.body.fields && "description" in e.body.fields && "status" in e.body.fields
    ensures s' == s
    ensures out.statusCode == 200 && out.body == Object(Attributes(s[id]))
  {
    HandledRoute(s, e, s', out);
    UpdateEffectStores(s, id, e.body.fields);
  }

  /** `PUT` on an absent key stores the task from the body under that key and
      answers 200 with it. */
  lemma UpdateAbsentInserts(s: Store, e: Event, s': Store, out: Outcome, id: string)
    requires Handled(s, e, s', out) && out.Response?
    requires RouteOf(RouteKey(e)) == UpdateOne && HasPathId(e, id) && id !in s
    requires e.body.Fields? && "title" in e.body.fields && "description" in e.body.fields && "status" in e.body.fields
    ensures var t := Task(id, e.body.fields["title"], e.body.fields["description"], e.body.fields["status"]);
      s' == s[id := t] && out.statusCode == 200 && out.body == Object(Attributes(t))
  {
    HandledRoute(s, e, s', out);
    UpdateEffectStores(s, id, e.body.fields);
  }

  /** A create or update whose body lacks a required field (or is missing or
      unreadable) answers 400 with an `"Error:"` message and changes nothing: the
      lookup fails before any put. */
  lemma MissingFieldRejected(s: Store, e: Event, s': Store, out: Outcome)
    requires Handled(s, e, s', out) && out.Response?
    requires RouteOf(RouteKey(e)) == CreateOne || RouteOf(RouteKey(e)) == UpdateOne
    requires !(e.body.Fields? && "title" in e.body.fields && "description" in e.body.fields
               && (RouteOf(RouteKey(e)) == UpdateOne ==> "status" in e.body.fields))
    ensures s' == s
    ensures out.statusCode == 400 && out.body.Object? && out.body.fields.Keys == {"Error:"}
    ensures e.body.NoBody? ==> out.body == Object(map["Error:" := "'title'"])
  {
    HandledRoute(s, e, s', out);
    var newId := NextId(s.Keys);
    var taskId := ResolveTaskId(e.pathParameters, newId).value;
    var eff := RouteEffect(RouteOf(RouteKey(e)), s, e, taskId, newId);
    if RouteOf(RouteKey(e)) == CreateOne {
      MissingFieldEffect(s, IntToString(newId), e.body, false);
    } else {
      MissingFieldEffect(s, taskId, e.body, true);
    }
    assert eff.reply.Err?;
    assert out.body == ErrorBody(eff.reply.message);
  }

  /** Every invocation keeps each stored item's `task_id` equal to its key. */
  lemma HandledKeepsKeysMatch(s: Store, e: Event, s': Store, out: Outcome)
    requires Handled(s, e, s', out) && KeysMatch(s)
    ensures KeysMatch(s')
  {
    if out.Response? && RouteOf(RouteKey(e)) != ListAll {
      HandledRoute(s, e, s', out);
    }
  }

  lemma AbcIsNotAnInteger()
    ensures ParseInt("abc") == None
  {
    assert Strip("abc") == "abc";
    assert !IsDigitGroup("abc");
  }

  /** A `PUT` to a new id that is not an integer (here `abc`) succeeds, and from
      then on every request raises, because the id allocation reads every
      stored id with `int()`. */
  lemma NonNumericPutBlocksTable(s: Store, e: Event, s': Store, out: Outcome, e2: Event, s'': Store, out2: Outcome)
    requires Handled(s, e, s', out) && out.Response?
    requires RouteOf(RouteKey(e)) == UpdateOne && HasPathId(e, "abc") && "abc" !in s
    requires e.body.Fields? && "title" in e.body.fields && "description" in e.body.fields && "status" in e.body.fields
    requires Handled(s', e2, s'', out2)
    ensures out.statusCode == 200 && "abc" in s'
    ensures out2 == Raised && s'' == s'
  {
    UpdateAbsentInserts(s, e, s', out, "abc");
    AbcIsNotAnInteger();
    NonNumericIdRaises(s', e2, s'', out2, "abc");
  }

  lemma OneIsAnInteger()
    ensures ParseInt("1") == Some(1)
  {
    assert Strip("1") == "1";
    assert IsDigitGroup("1");
    assert DigitsValue("1") == DigitsValue("") * 10 + 1;
  }

  lemma NextIdAfterOne()
    ensures Allocatable({"1"}) && NextId({"1"}) == 2
  {
    OneIsAnInteger();
    assert IsMaxId({"1"}, 1);
    MaxIdUnique({"1"}, 1, NextId({"1"}) - 1);
  }

  /** A worked case: with task `1` stored, a create of title `B` and description
      `e` stores task `2` as `"Pending"` and answers with it. */
  lemma CreateExample(e: Event, s': Store, out: Outcome)
    requires Handled(map["1" := Task("1", "A", "d", "Pending")], e, s', out)
    requires RouteOf(RouteKey(e)) == CreateOne && e.pathParameters.None?
    requires e.body == Fields(map["title" := "B", "description" := "e"])
    ensures s' == map["1" := Task("1", "A", "d", "Pending"), "2" := Task("2", "B", "e", "Pending")]
    ensures out == Response(200, Object(map["task_id" := "2", "title" := "B", "description" := "e", "status" := "Pending"]), JsonHeaders)
  {
    var s := map["1" := Task("1", "A", "d", "Pending")];
    assert s.Keys == {"1"};
    NextIdAfterOne();
    assert IntToString(2) == "2";
    HandledRoute(s, e, s', out);
    CreateEffectStores(s, "2", e.body.fields);
  }
}
