/** The task records, the request and response shapes of the todo handler, and a
    reference definition of what one invocation does: a closed match over the six
    routes, over a store modelled as a map from `task_id` to the stored record. */
module TodoModel {
  import opened Wrappers
  import opened PyInt
  import opened IdAllocation

  /** A stored item: the key attribute `task_id` and three string attributes. */
  datatype Task = Task(taskId: string, title: string, description: string, status: string)

  /** The table: each key maps to the item stored under it. */
  type Store = map<string, Task>

  /** Every stored item carries its own key as its `task_id` attribute. */
  ghost predicate KeysMatch(s: Store) {
    forall k | k in s :: s[k].taskId == k
  }

  /** The item as the attribute map the store returns for it. */
  function Attributes(t: Task): map<string, string> {
    map["task_id" := t.taskId, "title" := t.title, "description" := t.description, "status" := t.status]
  }

  /** The request body: absent or empty (`{}` is used), text `json.loads` rejects or
      that is not a JSON object (`message` is the text of the exception that
      follows), or an object whose fields are strings. */
  datatype RequestBody = NoBody | Malformed(message: string) | Fields(fields: map<string, string>)

  /** `event['pathParameters']`: `None`, or a map whose values may be `None`. */
  type PathParameters = Option<map<string, Option<string>>>

  datatype Event = Event(httpMethod: string, resource: string, pathParameters: PathParameters, body: RequestBody)

  /** A response body before `json.dumps`: an object of string fields, or a list of them. */
  datatype JsonBody = Object(fields: map<string, string>) | Array(items: seq<map<string, string>>)

  datatype Reply = Reply(statusCode: int, body: JsonBody)

  /** What the invocation produces: an exception out of the handler (it was raised
      before the `try`), or the response dictionary. */
  datatype Outcome = Raised | Response(statusCode: int, body: JsonBody, headers: map<string, string>)

  const JsonHeaders: map<string, string> :=
    map["Content-Type" := "application/json", "Access-Control-Allow-Origin" := "*"]
  const UnsupportedRoute: JsonBody := Object(map["Message" := "Unsupported route"])
  const TaskDeleted: JsonBody := Object(map["message" := "Task deleted successfully"])
  /** `str()` of the `TypeError` from subscripting `None`. */
  const NoneNotSubscriptable := "'NoneType' object is not subscriptable"
  /** The store's rejection of a `None` key. */
  const KeyRejected := "The provided key element does not match the schema"

  /** `{"Error:": message}`, the body the catch-all writes. */
  function ErrorBody(message: string): JsonBody {
    Object(map["Error:" := message])
  }

  /** `str()` of the `KeyError` raised by a missing dictionary key. */
  function KeyErrorText(key: string): string {
    "'" + key + "'"
  }

  function RouteKey(e: Event): string {
    e.httpMethod + " " + e.resource
  }

  datatype Route = ListAll | GetOne | DeleteOne | CreateOne | UpdateOne | Unsupported

  /** The route a route key selects: each of the five routes by exactly one key. */
  function RouteOf(routeKey: string): (r: Route)
    ensures r == ListAll <==> routeKey == "GET /todos"
    ensures r == GetOne <==> routeKey == "GET /todos/{task_id}"
    ensures r == DeleteOne <==> routeKey == "DELETE /todos/{task_id}"
    ensures r == CreateOne <==> routeKey == "POST /todos"
    ensures r == UpdateOne <==> routeKey == "PUT /todos/{task_id}"
  {
    if routeKey == "GET /todos" then ListAll
    else if routeKey == "GET /todos/{task_id}" then GetOne
    else if routeKey == "DELETE /todos/{task_id}" then DeleteOne
    else if routeKey == "POST /todos" then CreateOne
    else if routeKey == "PUT /todos/{task_id}" then UpdateOne
    else Unsupported
  }

  /** The id the handler works on: the `task_id` path parameter, or the allocated
      id when there are no path parameters or the parameter is `None`; `None` when
      the path parameters lack the key and the lookup raises `KeyError`. */
  function ResolveTaskId(p: PathParameters, newId: int): (r: Option<string>)
    ensures r.None? <==> p.Some? && "task_id" !in p.value
    ensures r.Some? && p.Some? && p.value["task_id"].Some? ==> r.value == p.value["task_id"].value
    ensures r.Some? && (p.None? || p.value["task_id"].None?) ==> r.value == IntToString(newId)
  {
    match p
    case None => Some(IntToString(newId))
    case Some(params) =>
      if "task_id" !in params then None
      else
        match params["task_id"]
        case None => Some(IntToString(newId))
        case Some(id) => Some(id)
  }

  /** `getItemFromDB`: the stored record, or `{}` when there is none; always 200. */
  function GetItemFromDB(s: Store, taskId: string): (r: Reply)
    ensures r.statusCode == 200 && r.body.Object?
    ensures taskId in s <==> r.body.fields != map[]
    ensures taskId in s ==> r.body.fields == Attributes(s[taskId])
    ensures KeysMatch(s) && taskId in s ==> r.body.fields["task_id"] == taskId
  {
    if taskId in s then
      assert "task_id" in Attributes(s[taskId]);
      Reply(200, Object(Attributes(s[taskId])))
    else
      Reply(200, Object(map[]))
  }

  /** The decoded request body: an absent or empty body reads as the empty
      object, an unreadable one raises with its parser's message. */
  function RequestJson(b: RequestBody): (r: Result<map<string, string>>)
    ensures r.Err? <==> b.Malformed?
    ensures r.Err? ==> r.message == b.message
    ensures r.Ok? ==> r.value == if b.Fields? then b.fields else map[]
  {
    match b
    case NoBody => Ok(map[])
    case Malformed(message) => Err(message)
    case Fields(fields) => Ok(fields)
  }

  /** `fields[name]`. */
  function Field(fields: map<string, string>, name: string): Result<string> {
    if name in fields then Ok(fields[name]) else Err(KeyErrorText(name))
  }

  /** The named fields read one after another, as the handler does; the first
      missing one raises `KeyError`. */
  function Lookup(fields: map<string, string>, names: seq<string>): (r: Result<seq<string>>)
    ensures r.Ok? <==> forall i | 0 <= i < |names| :: names[i] in fields
    ensures r.Ok? ==> |r.value| == |names| && forall i | 0 <= i < |names| :: r.value[i] == fields[names[i]]
    ensures r.Err? ==> exists i | 0 <= i < |names| ::
      names[i] !in fields && r.message == KeyErrorText(names[i]) && forall j | 0 <= j < i :: names[j] in fields
    decreases |names|
  {
    if names == [] then Ok([])
    else
      var v :- Field(fields, names[0]);
      var rest :- Lookup(fields, names[1..]);
      Ok([v] + rest)
  }

  /** The store after a route ran, and its reply or the message of the exception
      it raised (which the catch-all turns into a 400). */
  datatype Effect = Effect(store: Store, reply: Result<Reply>)

  /** `GET /todos/{task_id}`: a read, which never raises and changes nothing. */
  function GetEffect(s: Store, taskId: string): (r: Effect)
    ensures r.store == s && r.reply.Ok? && r.reply.value.statusCode == 200
  {
    Effect(s, Ok(GetItemFromDB(s, taskId)))
  }

  /** `DELETE /todos/{task_id}`: deletes the key named by the raw path parameter. */
  function DeleteEffect(s: Store, p: PathParameters): (r: Effect)
    ensures r.reply.Ok? <==> p.Some? && "task_id" in p.value && p.value["task_id"].Some?
    ensures r.reply.Ok? ==> r.store == s - {p.value["task_id"].value} && r.reply.value == Reply(200, TaskDeleted)
    ensures r.reply.Err? ==> r.store == s
  {
    match p
    case None => Effect(s, Err(NoneNotSubscriptable))
    case Some(params) =>
      if "task_id" !in params then Effect(s, Err(KeyErrorText("task_id")))
      else
        match params["task_id"]
        case None => Effect(s, Err(KeyRejected))
        case Some(key) => Effect(s - {key}, Ok(Reply(200, TaskDeleted)))
  }

  /** `POST /todos`: an unconditional put of a `"Pending"` task at `taskId`, then a read. */
  function CreateEffect(s: Store, taskId: string, body: RequestBody): (r: Effect)
    ensures r.reply.Err? ==> r.store == s
    ensures r.reply.Ok? ==>
      && r.store.Keys == s.Keys + {taskId}
      && r.store[taskId].taskId == taskId && r.store[taskId].status == "Pending"
      && (forall k | k in s && k != taskId :: r.store[k] == s[k])
  {
    match RequestJson(body)
    case Err(m) => Effect(s, Err(m))
    case Ok(fields) =>
      match Lookup(fields, ["title", "description"])
      case Err(m) => Effect(s, Err(m))
      case Ok(v) =>
        var s' := s[taskId := Task(taskId, v[0], v[1], "Pending")];
        Effect(s', Ok(GetItemFromDB(s', taskId)))
  }

  /** `PUT /todos/{task_id}`: a put that the store performs only when no item has
      this key, then a read of whatever is stored there. */
  function UpdateEffect(s: Store, taskId: string, body: RequestBody): (r: Effect)
    ensures forall k | k in s :: k in r.store && r.store[k] == s[k]
    ensures r.store.Keys <= s.Keys + {taskId}
    ensures r.reply.Err? ==> r.store == s
  {
    match RequestJson(body)
    case Err(m) => Effect(s, Err(m))
    case Ok(fields) =>
      match Lookup(fields, ["title", "description", "status"])
      case Err(m) => Effect(s, Err(m))
      case Ok(v) =>
        var s' := if taskId !in s then s[taskId := Task(taskId, v[0], v[1], v[2])] else s;
        Effect(s', Ok(GetItemFromDB(s', taskId)))
  }

  /** The route other than the listing, run with the resolved id `taskId` and the
      allocated id `newId`; the unsupported route keeps the default reply. */
  function RouteEffect(route: Route, s: Store, e: Event, taskId: string, newId: int): (r: Effect)
    requires route != ListAll
    ensures r.reply.Err? ==> r.store == s
    ensures KeysMatch(s) ==> KeysMatch(r.store)
  {
    match route
    case GetOne => GetEffect(s, taskId)
    case DeleteOne => DeleteEffect(s, e.pathParameters)
    case CreateOne => CreateEffect(s, IntToString(newId), e.body)
    case UpdateOne => UpdateEffect(s, taskId, e.body)
    case Unsupported => Effect(s, Ok(Reply(400, UnsupportedRoute)))
  }

  /** The reply written into the response: the route's, or the catch-all's. */
  function Respond(r: Result<Reply>): Reply {
    match r
    case Ok(reply) => reply
    case Err(message) => Reply(400, ErrorBody(message))
  }

  /** `items` lists the attribute maps of all stored items, each once, in some order. */
  ghost predicate ListsTasks(items: seq<map<string, string>>, s: Store) {
    && |items| == |s|
    && (forall i | 0 <= i < |items| :: exists k | k in s :: items[i] == Attributes(s[k]))
    && (forall k | k in s :: Attributes(s[k]) in items)
    && (forall i, j | 0 <= i < j < |items| :: items[i] != items[j])
  }

  /** Past the prologue, with resolved id `taskId` and allocated id `newId`: the
      response the routes give, with the fixed headers, and the store they leave. */
  ghost predicate Routed(s: Store, e: Event, taskId: string, newId: int, s': Store, out: Outcome) {
    var route := RouteOf(RouteKey(e));
    && out.Response?
    && out.headers == JsonHeaders
    && if route == ListAll then
         s' == s && out.statusCode == 200 && out.body.Array? && ListsTasks(out.body.items, s)
       else
         var eff := RouteEffect(route, s, e, taskId, newId);
         s' == eff.store && Reply(out.statusCode, out.body) == Respond(eff.reply)
  }

  /** One invocation of the handler on store `s` and event `e` may leave store `s'`
      and produce `out`. An exception out of the handler comes before any write,
      and every response carries the fixed headers. */
  ghost predicate Handled(s: Store, e: Event, s': Store, out: Outcome)
    ensures Handled(s, e, s', out) && out.Raised? ==> s' == s
    ensures Handled(s, e, s', out) && out.Response? ==> out.headers == JsonHeaders
  {
    if !Allocatable(s.Keys) then s' == s && out == Raised
    else
      match ResolveTaskId(e.pathParameters, NextId(s.Keys))
      case None => s' == s && out == Raised
      case Some(taskId) => Routed(s, e, taskId, NextId(s.Keys), s', out)
  }
}
