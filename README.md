# todo-api in Dafny

A model of the core of todo-api, a single-table CRUD service for todo items written in Python
with Flask and psycopg2. It has three layers, one Dafny module each, over two small shared
modules.

- `TodoPayload` (`payload.dfy`) models the payload class `Todo`. It is a class with three
  nullable fields: id, text and status. `AssignDefaultValues` fills a missing id with a supplied
  fresh id, standing in for `uuid4()`, and a missing status with `N`, updating the object in
  place. It is specified by the function `WithDefaults` on the field values. `ToDict` and
  `FromDict` are the conversions to and from a key/value map, and they are proved to round-trip.
- `TodoDb` (`db.dfy`) models the data-access class `TodoDB`. Each operation returns the
  `cur.execute` calls it makes, as `Execution` values. The cursor's answers are parameters: an
  optional row, the rows, or a row count. `ListStatement` is the step-by-step builder of the
  listing query, with its `first_where_criteria` flag. It is proved equal to `ListQuery`, a
  definition by clauses joined with `AND`. Lemmas then give the exact SQL text and parameters
  for each combination of filters. They also prove that every statement has one `%s`
  placeholder per parameter, and how many times ` WHERE ` and ` AND ` occur. `SqlText`
  (`sql.dfy`) holds the counting functions and lemmas these proofs use.
- `TodoApi` (`api.dfy`) models the five request handlers as pure functions. Each takes the path
  id or query arguments, the parsed body, the fresh id, an abstract `isValidUuid` test and the
  outcome of each data-access call. Each returns the calls made, in order, and how the handler
  ended. The Python `try`/`except`/`finally` rule is modelled by `WithFinally`: a `return` or
  `raise` in `finally` replaces the outcome of `try` or `except`, so the 500 the `except` clauses
  return is never sent. A DatabaseError on the insert in `create_todo` ends in 201, one on the
  lookup in `get_todo` in the empty 404, and one on the write in `update_todo` in 200. A
  DatabaseError on the existence lookup of `update_todo` or `delete_todo` ends in the empty 404.
  Only two paths reach a `finally` clause that reads a local the DatabaseError left unbound: the
  listing in `get_todos` and the delete call in `delete_todo`. The model gives those two as a
  raised `UnboundLocalError`.
- `Values` (`values.dfy`) holds `Option`, Python truthiness of an optional string (`None` and
  `""` are false) and `str` of an optional id (`str(None)` is `"None"`).

## Model

| member | source | states |
|---|---|---|
| TodoPayload.Todo.constructor | src/todo/payload/todo.py:7-10 | The new object holds the given id, text and status; the text argument comes first. |
| TodoPayload.WithDefaults | src/todo/payload/todo.py:12-17 | Afterwards id and status are non-null. A set id or status is unchanged; a null id becomes the fresh id and a null status becomes N. The text is never changed. |
| TodoPayload.Todo.AssignDefaultValues | src/todo/payload/todo.py:12-17 | The object's new fields are the defaults of its old fields: id and status are non-null, and the text is unchanged. |
| TodoPayload.DefaultsIdempotent | src/todo/payload/todo.py:14-17 | Applying the defaults again, with any other fresh id, changes nothing. |
| TodoPayload.ToDict | src/todo/payload/todo.py:28-33 | The map has exactly the keys id, text and status, bound to the three fields. |
| TodoPayload.FromDict | src/todo/payload/todo.py:35-37 | Each field is the map's value for its key; a missing key gives a null field. |
| TodoPayload.FromDictToDict | src/todo/payload/todo.py:28-37 | `from_dict(to_dict(t))` has the same id, text and status as `t`. |
| TodoPayload.ToDictFromDict | src/todo/payload/todo.py:28-37 | `to_dict(from_dict(d))` has exactly the three keys, each bound to what `d.get` gives for it. |
| TodoDb.Create | src/todo/db/todo.py:18-23 | One INSERT whose parameters are the stringified id, the text and the status, with one placeholder per parameter. |
| TodoDb.Get | src/todo/db/todo.py:25-31 | A SELECT by id with one placeholder. The result is null exactly when there is no row; otherwise column 0 is the id, 1 the text and 2 the status. |
| TodoDb.ListStatement | src/todo/db/todo.py:33-55 | The builder, with its flag, produces exactly the WHERE/AND query `ListQuery` defines. With no filter it uses the execute call without a parameter tuple. |
| TodoDb.List | src/todo/db/todo.py:33-62 | Runs the listing statement, then returns one Todo per cursor row, in cursor order, with columns mapped as in `get`. |
| TodoDb.TodosOfRows | src/todo/db/todo.py:57-62 | The loop over the cursor keeps the row count and row order, and maps column 0 to id, 1 to text and 2 to status. |
| TodoDb.ListQueryCases | src/todo/db/todo.py:33-55 | The four shapes of the query: bare, text clause, status clause, or both joined by AND. Each comes with its parameter list. |
| TodoDb.ListNoFilter | src/todo/db/todo.py:35-53 | With both filters null or empty: exactly `SELECT todo_id, text, status FROM todo`, executed without parameters. |
| TodoDb.ListTextOnly | src/todo/db/todo.py:39-43 | With only a text filter: the clause `text LIKE %s ESCAPE ''` and the single parameter `'%' + textmatch + '%'`. |
| TodoDb.ListStatusOnly | src/todo/db/todo.py:45-50 | With only a status filter: the base query plus ` WHERE status = %s`, and the parameters `[status]`. |
| TodoDb.ListBoth | src/todo/db/todo.py:39-50 | With both filters: the text clause, then ` AND `, then the status clause. The text parameter comes before the status parameter. |
| TodoDb.ListWellFormed | src/todo/db/todo.py:33-55 | For any filters, the number of `%s` placeholders equals the number of parameters (zero on the no-parameter path). |
| TodoDb.ListWhereOnce | src/todo/db/todo.py:39-50 | ` WHERE ` occurs exactly once when some filter is given, and never otherwise. |
| TodoDb.ListAndOnce | src/todo/db/todo.py:45-50 | ` AND ` occurs, exactly once, if and only if both filters are given. |
| TodoDb.Update | src/todo/db/todo.py:64-71 | An UPDATE of text and status by the stringified id, then `get` on the payload's own id. The result is null exactly when the re-read finds no row. |
| TodoDb.Delete | src/todo/db/todo.py:73-80 | A DELETE by id with one placeholder. Success is true if and only if the affected row count is exactly 1. |
| TodoDb.InsertText | src/todo/db/todo.py:20 | The INSERT statement is exactly `INSERT INTO todo (todo_id, text, status) VALUES (%s, %s, %s)`. |
| TodoDb.SelectByIdText | src/todo/db/todo.py:27 | The SELECT-by-id statement is exactly `SELECT todo_id, text, status FROM todo WHERE todo_id=%s`. |
| TodoDb.UpdateText | src/todo/db/todo.py:66 | The UPDATE statement is exactly `UPDATE todo SET text=%s, status=%s WHERE todo_id=%s`. |
| TodoDb.DeleteText | src/todo/db/todo.py:75 | The DELETE statement is exactly `DELETE FROM todo WHERE todo_id=%s`. |
| TodoDb.InsertWellFormed | src/todo/db/todo.py:20-21 | The INSERT text has three placeholders, one per parameter. |
| TodoDb.SelectByIdWellFormed | src/todo/db/todo.py:27-28 | The SELECT-by-id text has one placeholder. |
| TodoDb.UpdateWellFormed | src/todo/db/todo.py:66-67 | The UPDATE text has three placeholders. |
| TodoDb.DeleteWellFormed | src/todo/db/todo.py:75-76 | The DELETE text has one placeholder. |
| TodoApi.CreateTodo | src/todo/api/todo.py:20-50 | Always returns 201 or 400, and inserts nothing or exactly the request payload with its defaults applied. |
| TodoApi.CreateChecksInOrder | src/todo/api/todo.py:26-42 | After the defaults: id format, then non-empty text, then status N or D. The first failure decides the 400 message, and nothing is inserted unless all three pass. |
| TodoApi.CreateWithDefaults | src/todo/api/todo.py:23-50 | A body without id and status passes both checks, because the defaults come first. With text, the answer is 201 with the fresh id and status N. |
| TodoApi.CreateIgnoresDatabaseError | src/todo/api/todo.py:44-50 | Once the checks pass, a DatabaseError on insert gives the same 201 with the payload as success does. |
| TodoApi.CreatedTodoIsValid | src/todo/api/todo.py:26-50 | Every 201 carries an object with a valid id, non-empty text and status N or D. That object reads back through `from_dict` as exactly the inserted payload. |
| TodoApi.GetTodo | src/todo/api/todo.py:53-69 | Always returns 200, 400 or 404; never 500. |
| TodoApi.GetTodoOutcomes | src/todo/api/todo.py:56-69 | An invalid id gives 400 with the invalid-UUID message. A found todo gives 200 with it. No todo and a DatabaseError both give the empty 404 with the missing-todo message. |
| TodoApi.GetTodos | src/todo/api/todo.py:72-87 | Raises exactly when the listing was attempted and raised a DatabaseError; otherwise returns 200 or 400. |
| TodoApi.GetTodosStatusCheck | src/todo/api/todo.py:77-79 | Gives 400 with the status-parameter message if and only if the status is non-empty and neither N nor D. An absent or empty status is passed to the listing. |
| TodoApi.GetTodosListing | src/todo/api/todo.py:81-87 | A successful listing gives 200 with one object per todo, in order, each reading back as its todo. |
| TodoApi.UpdateTodo | src/todo/api/todo.py:90-131 | Always returns 200, 400 or 404, and any update it makes is of the body's payload. |
| TodoApi.UpdateChecksPathFirst | src/todo/api/todo.py:93-105 | The path id is checked first. Then existence: a missing todo, or a DatabaseError on the lookup, gives the empty 404 before the body is read. |
| TodoApi.UpdateChecksBody | src/todo/api/todo.py:107-123 | Then the body: id format, non-empty text, status N or D, in that order, with no defaults. A body without an id, or without a status, gives 400. |
| TodoApi.UpdateUsesBodyId | src/todo/api/todo.py:107-131 | A body naming a valid id other than the path id passes every check and is written under the body's id. |
| TodoApi.UpdateResult | src/todo/api/todo.py:125-131 | After the update: 200 with the re-read todo; 200 with JSON null when the re-read found nothing; 200 with the request's own payload when the update raised a DatabaseError. |
| TodoApi.DeleteTodo | src/todo/api/todo.py:134-160 | Raises exactly when the delete itself raised a DatabaseError; otherwise returns 204, 400, 404 or 500. |
| TodoApi.DeleteTodoOutcomes | src/todo/api/todo.py:137-160 | An invalid id gives 400 and a missing todo the empty 404. A delete that reports success gives the empty 204; one that reports failure gives 500 with the failed-delete message. |

## Left out

- Flask routing and the construction of `flask.Response` objects, with their header changes, are not modelled. The model keeps only the status code and a body that is either plain text or a JSON document.
- The JSON encoder, and `json.loads` inside `from_json`, are not modelled: the handlers receive the parsed body as a map. The model assumes every JSON value is a string or null; numbers, booleans and nested values are not modelled.
- `uuid.UUID` parsing inside `is_valid_uuid` is an abstract predicate parameter, and `uuid4()` is a supplied fresh id. Lemmas about a body without an id in `update_todo` assume `isValidUuid("None")` is false, as it is for `uuid.UUID("None")`.
- The getters `get_id`, `get_text` and `get_status` are not separate members: the model reads the fields directly, which gives the same values.
- The psycopg2 connection, cursor, `commit`, the connection string and the `instance()` singleton are not modelled. They are I/O and global state.
- The database table is not modelled. Each data-access operation takes the cursor's answer (an optional row, the rows, a row count) as a parameter. So the model proves nothing about which rows exist. `TodoDb.Get`, `TodoDb.Update`, `TodoDb.List` and `TodoDb.TodosOfRows` require each row to have three columns, as the SELECT guarantees. Every column is a string: a NULL column, which psycopg2 would hand to `Todo` as None, is not modelled, since every stored todo has an id, a text and a status.
- SQL `LIKE` matching is not modelled. The model claims nothing about which todos a text filter selects. In particular, `ESCAPE ''` leaves `%` and `_` in the user's text acting as wildcards.
- When a `finally` clause reads an unbound local (after a DatabaseError on the listing in `get_todos`, or on the delete call in `delete_todo`), the model gives the outcome as a raised `UnboundLocalError`. Flask's handling of that exception, an error page, is not modelled.
- `print` logging and concurrent requests sharing the one connection are not modelled.
