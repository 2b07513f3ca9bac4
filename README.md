# Todo handler: a verified model

This project models the request handler of a small serverless task list
(`todo.py`). An HTTP event names a method, a resource template, optional path
parameters and an optional JSON body. The handler answers with a status code, a
body and fixed headers. Along the way it reads and writes a key-value table of
tasks keyed by `task_id`.

The table is a `map<string, Task>`. Each `Task` holds the key attribute
`task_id` and the string attributes `title`, `description` and `status`.

The modules follow the program's structure:

- `Wrappers`: `Option`, and `Result`, whose `Err(message)` stands for a raised
  Python exception whose `str()` is `message`.
- `PyInt`: Python's `int(s)` on strings and `str(n)`. `int(s)` accepts
  surrounding whitespace (tab, line feed, vertical tab, form feed, carriage
  return, space), an optional sign, and decimal digits with single underscores
  between them. The module proves `int(str(n)) == n`.
- `IdAllocation`: the id allocator. It takes `max(int(id)) + 1` over a scan of
  the stored ids, in scan order. `MaxOf` raises on an empty table or on a
  non-integer id. `NextId` is the set-level specification. `MaxOfScan` proves
  that every scan order allocates `NextId`. Further lemmas show the allocated id
  is fresh and that successive creates count up.
- `TodoModel`: the event, body and response shapes and the route key. It gives
  `getItemFromDB` and one pure effect function per route. Each returns the
  store afterwards and either the reply or the exception text. The ghost
  predicate `Handled(s, e, s', out)` is the reference definition of one
  invocation: a closed match over the six routes. The listing is relational,
  because the scan order is the store's choice.
- `TodoHandler`: class `Table`, whose methods scan, put, conditionally put and
  delete in place. It also holds the imperative `LambdaHandler`, which does what
  the source does in the same order:
  1. compute the route key;
  2. allocate the id, outside the `try` (an exception there leaves the handler,
     shown as `Raised`);
  3. resolve the path id;
  4. set the default reply and headers;
  5. run the non-exclusive `if`-chain of route tests inside a catch-all, which
     turns an exception into `400 {"Error:": message}`.

  `LambdaHandler` is proved to meet `Handled`.
- `TodoProperties`: the behaviour promised for each route, as lemmas over
  `Handled`.

Two behaviours of the code are easy to miss. The model follows the code in
both:

- A create on an empty table does not allocate id `"1"`. The id allocation runs
  `max` over the scanned ids before any route is tested, and `max` of nothing
  raises. So every request on an empty table raises, a create included
  (`EmptyTableRaises`). Deleting the last task therefore blocks the table
  (`DeleteOfLastTaskBlocksTable`).
- The comment at todo.py:90 calls the `PUT` route an update. Its conditional
  put writes only when the key is absent, so an existing task is never changed
  (`UpdateExistingIsDropped`, `UpdateKeepsStoredTasks`).

## Model

| member | source | states |
|---|---|---|
| `PyInt.ParseInt` | todo.py:32 | whatever `int()` reads ends in a digit once the whitespace is stripped, and reads as negative only after a leading `-` |
| `PyInt.ParseIntExamples` | todo.py:32 | `int()` accepts whitespace padding and single underscores, and rejects a doubled or leading underscore, a doubled sign and the separator character 28 |
| `PyInt.ParseIntOfIntToString` | todo.py:32-37 | `int(str(n)) == n` for every integer, negative ones included |
| `PyInt.IntToStringInjective` | todo.py:37 | `str` gives distinct integers distinct texts |
| `PyInt.IntToString` | todo.py:37 | `str(n)` is never the empty string |
| `IdAllocation.MaxOf` | todo.py:32 | `max` succeeds iff the sequence is non-empty and every id parses; the result bounds every parsed id and is one of them |
| `IdAllocation.MaxIdExists` | todo.py:32 | a non-empty table of integer ids has a largest id |
| `IdAllocation.NextId` | todo.py:32 | the allocated id is one more than the largest stored id |
| `IdAllocation.MaxOfScan` | todo.py:30-32 | whatever order the scan lists the keys in, the allocation raises exactly when the table is empty or holds a non-integer id, and otherwise yields `NextId` |
| `IdAllocation.NextIdIsFresh` | todo.py:32-37 | `str` of the allocated id is not a stored key |
| `IdAllocation.NextIdAfterInsert` | todo.py:32 | once the allocated id is stored, the table still allocates, and the next id is one more |
| `TodoModel.RouteOf` | todo.py:52-91 | each of the five routes is selected by exactly one route key; every other key is unsupported |
| `TodoModel.ResolveTaskId` | todo.py:35-40 | the path id when given; the allocated id when there are no path parameters or `task_id` is `None`; a raise when the parameters lack `task_id` |
| `TodoModel.GetItemFromDB` | todo.py:16-25 | status 200; the stored record when the key is present, otherwise `{}`; the record's `task_id` is the requested key |
| `TodoModel.RequestJson` | todo.py:74 | the body raises exactly when it is unreadable, with the parser's message; an absent or empty body reads as `{}` |
| `TodoModel.Lookup` | todo.py:94-96 | the fields are all read iff all are present, each with its body value; otherwise the first missing field raises `KeyError` with its quoted name |
| `TodoModel.GetEffect` | todo.py:59-60 | a read never raises, answers 200 and changes nothing |
| `TodoModel.DeleteEffect` | todo.py:63-69 | the delete succeeds exactly when the path parameters hold a non-`None` `task_id`; it then removes that key and answers the success message; a raise leaves the store unchanged |
| `TodoModel.CreateEffect` | todo.py:72-87 | a raise leaves the store unchanged; a success adds exactly the given key, as a `"Pending"` task carrying that key, and keeps every other item |
| `TodoModel.UpdateEffect` | todo.py:91-114 | the update keeps every stored item and adds at most its own key; a raise leaves the store unchanged |
| `TodoModel.RouteEffect` | todo.py:50-114 | in every route an exception comes before any write, so it leaves the store unchanged; no route stores an item under a key other than its own `task_id` |
| `TodoModel.Handled` | todo.py:27-124 | an exception out of the handler leaves the store unchanged, and every response carries the fixed headers |
| `TodoHandler.Table.Scan` | todo.py:53 | the scan lists every stored item exactly once, each under its own key |
| `TodoHandler.Table.PutItem` | todo.py:86 | the item replaces whatever is stored under its key |
| `TodoHandler.Table.PutItemIfAbsent` | todo.py:107-113 | writes exactly when the key is absent, and reports whether it wrote |
| `TodoHandler.Table.DeleteItem` | todo.py:65-67 | removes the key, whether or not it was there |
| `TodoHandler.FullScanListsKeys` | todo.py:30-31 | the ids of a full scan are exactly the stored keys, whatever the scan order |
| `TodoHandler.FullScanListsTasks` | todo.py:53-55 | the attribute maps of a full scan are every stored record, each once |
| `TodoHandler.NewTaskId` | todo.py:30-32 | computes `NextId` of the stored keys, or reports the raise exactly when the table is not allocatable |
| `TodoHandler.TryRoutes` | todo.py:50-114 | the `if`-chain leaves the store and gives the reply (or the exception text) that the reference route effect gives; the listing returns every stored record |
| `TodoHandler.LambdaHandler` | todo.py:27-124 | one invocation satisfies `Handled`: the store it leaves and the outcome it returns are those of the reference definition |
| `TodoProperties.HandledRoute` | todo.py:50-118 | past the id allocation and path-id lookup, a route other than the listing ends in that route's effect and its reply or the catch-all's |
| `TodoProperties.CreateEffectStores` | todo.py:72-87 | a create with both fields stores a `"Pending"` task under the given id and answers 200 with it |
| `TodoProperties.UpdateEffectStores` | todo.py:91-114 | an update with all three fields stores the task only under an absent key, then answers 200 with what is stored there |
| `TodoProperties.MissingFieldEffect` | todo.py:74-76 | a create or update lacking a required field raises before any put; with no body the message is `'title'` |
| `TodoProperties.RaisesExactlyWhenPrologueFails` | todo.py:30-40 | the handler raises instead of answering iff allocation fails or the path parameters lack `task_id`, for every route; the store is then unchanged |
| `TodoProperties.EmptyTableRaises` | todo.py:30-32 | on an empty table every request raises, a create included |
| `TodoProperties.NonNumericIdRaises` | todo.py:30-32 | one stored id that `int()` rejects makes every request raise |
| `TodoProperties.ResponseHeaders` | todo.py:45-48 | every response has exactly the JSON content type and the `*` CORS header |
| `TodoProperties.UnsupportedRouteReply` | todo.py:43-44 | an unsupported route answers 400 `{"Message": "Unsupported route"}` and leaves the store unchanged |
| `TodoProperties.ListReply` | todo.py:52-56 | `GET /todos` answers 200 with as many records as are stored, every stored record among them, no record twice, and changes nothing |
| `TodoProperties.GetReply` | todo.py:59-60 | `GET /todos/{task_id}` answers 200 with the stored record, or `{}` when absent, and changes nothing |
| `TodoProperties.GetWithoutPathIdFindsNothing` | todo.py:35-37 | a read without a path id looks up the freshly allocated id and answers `{}` |
| `TodoProperties.DeleteReply` | todo.py:63-69 | a delete removes exactly the path key, keeps every other item, and answers 200 with the success message whether or not the key existed |
| `TodoProperties.DeleteWithoutPathParameters` | todo.py:66 | a delete without path parameters answers 400 with the `TypeError` text and changes nothing |
| `TodoProperties.DeleteIdempotent` | todo.py:63-69 | the delete branch applied twice leaves the same store and reply as applied once |
| `TodoProperties.DeleteOfLastTaskBlocksTable` | todo.py:30-32 | deleting the only stored task empties the table, after which every request raises |
| `TodoProperties.CreateReply` | todo.py:72-87 | a create with both fields stores a new `"Pending"` task under `str(max + 1)`, a key not stored before, keeps every other item, and answers 200 with the stored record |
| `TodoProperties.CreateAdvancesNextId` | todo.py:30-32 | after a create the table still allocates, and the next id is one more |
| `TodoProperties.UpdateKeepsStoredTasks` | todo.py:106-114 | a `PUT` never changes a stored item and adds at most one key |
| `TodoProperties.UpdateExistingIsDropped` | todo.py:111-114 | a `PUT` on an existing key leaves the store unchanged and answers 200 with the record as it was |
| `TodoProperties.UpdateAbsentInserts` | todo.py:98-109 | a `PUT` on an absent key stores the task from the body under that key and answers 200 with it |
| `TodoProperties.MissingFieldRejected` | todo.py:116-118 | a create or update with a missing body or field answers 400 with an `"Error:"` body and changes nothing; with no body the message is `'title'` |
| `TodoProperties.HandledKeepsKeysMatch` | todo.py:79-107 | every invocation keeps each stored item's `task_id` equal to its key |
| `TodoProperties.AbcIsNotAnInteger` | todo.py:32 | `int("abc")` raises |
| `TodoProperties.NonNumericPutBlocksTable` | todo.py:30-32 | a `PUT` to a new non-integer id succeeds, and from then on every request raises |
| `TodoProperties.OneIsAnInteger` | todo.py:32 | `int("1") == 1` |
| `TodoProperties.NextIdAfterOne` | todo.py:32 | with only id `1` stored, the allocated id is 2 |
| `TodoProperties.CreateExample` | todo.py:72-87 | with task `1` stored, a create stores task `2` as `"Pending"` and answers with exactly that record |

## Left out

- The store client's construction and the table-name lookup in the environment (todo.py:11-14). They are foreign calls; the table is a `Table` object passed to `LambdaHandler`.
- Scan pagination: the code reads one scan page and ignores `LastEvaluatedKey`. The model's scan is the full table.
- JSON decoding and encoding. The request body is already parsed. A body that `json.loads` rejects, or that is not an object, is `Malformed(message)`, where `message` is the text of the resulting exception. The response body is kept unencoded.
- Body field values: the model treats them as strings. JSON numbers, lists or `null` in a body field are not modelled.
- Stored records are exactly `Task`s. An item written by another client, with other attributes or without `title`, is not modelled. Because every stored item has `title` and `task_id`, the conditional put's condition is modelled as "the key is absent".
- Store failures other than the failed put condition. The real store rejects some requests, for example an empty-string key. The code swallows such a failure on `PUT` and leaves the default 400 body; on the other routes the catch-all turns it into 400. The model does not reject any key.
- TodoModel.DeleteEffect: a `DELETE` whose `task_id` parameter is `None` answers 400 with a fixed message that stands in for the store's rejection of such a key. The real message comes from the service.
- PyInt.ParseInt: non-ASCII digits and non-ASCII whitespace, which Python's `int()` also accepts, are treated as making the id non-integer.
- PyInt.ParseInt: the limit that recent CPython versions put on the number of digits `int()` reads and `str()` writes (4300 by default) is not modelled. An id over the limit makes the real allocation raise.
- `Raised` does not say which exception left the handler (`ValueError` from `max` or `int`, `KeyError` from the path parameters).
- Events lacking `httpMethod` or `resource`, which raise `KeyError` at todo.py:28, before the id scan. Both fields are strings in the model.
- Events lacking the `pathParameters` key. Reading it raises `KeyError` at todo.py:35, after the id scan. The model always has the key, possibly `None`. A `pathParameters` map without `task_id` is modelled: it raises at the same line.
- `print` logging.
- The race between two invocations that allocate the same id by scanning and then incrementing. The model is sequential.
