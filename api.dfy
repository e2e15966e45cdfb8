/**
 * The request handlers (todo.api.todo). Each endpoint is a fixed chain of guards followed by
 * calls into the data-access layer inside try/except/finally blocks. A handler is modelled as a
 * function of what it receives: the path id or query arguments, the parsed request body, the
 * answer the data-access layer gives to each call, the id uuid4() would return and the
 * `is_valid_uuid` test. It yields the data-access calls it makes, in order, and how it ends.
 */
module TodoApi {
  import opened Values
  import opened TodoPayload

  const InvalidUuidFormatMsg := "Invalid UUID provided."
  const InvalidStatusMsg := "Invalid status provided. Valid values are 'N' or 'D'."
  const InvalidStatusParameterMsg := "Invalid status parameter provided. Valid values are 'N' or 'D'."
  const EmptyTodoTextMsg := "Empty todo text supplied. This field must be non-empty."
  const MissingTodoMsg := "Todo entry for the supplied UUID does not exist."
  const DeleteTodoFailedMsg := "Deletion of todo entry failed without database error."

  const StatusOk := 200
  const StatusCreated := 201
  const StatusNoContent := 204
  const StatusBadRequest := 400
  const StatusNotFound := 404
  const StatusInternalServerError := 500

  /** A JSON document as `json.dumps` writes it with the Todo-aware encoder. */
  datatype Doc = Null | Object(fields: Dict) | Array(items: seq<Dict>)

  /** A plain-text body without a content type, or a JSON body sent as application/json. */
  datatype Body = Message(text: string) | Json(doc: Doc)

  datatype Response = Response(code: int, body: Body)

  /** How a block of Python code ends: it falls through, it returns, or it raises. */
  datatype Completion = Normal | Return(response: Response) | Raise(exception: string)

  /** What a data-access call gives back: its value, or a psycopg2 DatabaseError. */
  datatype Store<T> = Ok(value: T) | DbError

  /** The data-access calls a handler makes. */
  datatype StoreCall =
    | Insert(todo: Fields)
    | Select(todoid: string)
    | SelectWhere(textmatch: Option<string>, status: Option<string>)
    | Update(todo: Fields)
    | Delete(todoid: string)

  /** The calls a handler made, in order, and how the handler ended. */
  datatype Handled = Handled(calls: seq<StoreCall>, result: Completion)

  // ---------------------------------------------------------------------------------------
  // The utility responses and the try/except/finally rule.

  /** `api_response`: the data as JSON. */
  function ApiResponse(doc: Doc, code: int): Response {
    Response(code, Json(doc))
  }

  /** `api_response_empty`, `api_response_bad_request`, `api_response_internal_server_error`. */
  function TextResponse(code: int, msg: string): Response {
    Response(code, Message(msg))
  }

  /** A payload as the JSON encoder writes it: null, or the object `to_dict` gives. */
  function DocOf(payload: Option<Fields>): Doc {
    if payload.Some? then Object(ToDict(payload.value)) else Null
  }

  function ToDicts(payloads: seq<Fields>): (ds: seq<Dict>)
    ensures |ds| == |payloads|
    ensures forall i | 0 <= i < |payloads| :: ds[i] == ToDict(payloads[i])
  {
    if payloads == [] then [] else [ToDict(payloads[0])] + ToDicts(payloads[1..])
  }

  /**
   * The try and except clauses around one data-access call: a DatabaseError is caught and the
   * except clause returns an empty 500; otherwise control falls through.
   */
  function Attempt<T>(r: Store<T>): Completion {
    if r.DbError? then Return(TextResponse(StatusInternalServerError, "")) else Normal
  }

  /**
   * The finally clause runs last: when it returns or raises, that replaces whatever the try or
   * except clause did, a pending `return` included; when it falls through, their outcome stands.
   */
  function WithFinally(tryExcept: Completion, fin: Completion): Completion {
    if fin.Normal? then tryExcept else fin
  }

  /** Both status checks of the handlers: only N and D are valid. */
  predicate ValidStatus(status: Option<string>) {
    status == Some(NotDone) || status == Some(Done)
  }

  /**
   * The existence check of `update_todo` and `delete_todo`: the finally clause returns the empty
   * 404 whenever no todo was read, which also covers a DatabaseError, and falls through otherwise.
   */
  function ExistenceCheck(existing: Store<Option<Fields>>): Completion {
    var existingPayload := if existing.Ok? then existing.value else None;
    WithFinally(Attempt(existing),
                if existingPayload.None? then Return(TextResponse(StatusNotFound, MissingTodoMsg)) else Normal)
  }

  // ---------------------------------------------------------------------------------------
  // The handlers.

  /** POST /todo: defaults first, then id, text and status checks, then the insert. */
  function CreateTodo(body: Dict, freshId: string, isValidUuid: string -> bool, insert: Store<()>): (h: Handled)
    ensures h.result.Return?
    ensures h.result.response.code in {StatusCreated, StatusBadRequest}
    ensures h.calls == [] || h.calls == [Insert(WithDefaults(FromDict(body), freshId))]
  {
    var payload := WithDefaults(FromDict(body), freshId);
    if !isValidUuid(Str(payload.id)) then
      Handled([], Return(TextResponse(StatusBadRequest, InvalidUuidFormatMsg)))
    else if !Truthy(payload.text) then
      Handled([], Return(TextResponse(StatusBadRequest, EmptyTodoTextMsg)))
    else if !ValidStatus(payload.status) then
      Handled([], Return(TextResponse(StatusBadRequest, InvalidStatusMsg)))
    else
      Handled([Insert(payload)],
              WithFinally(Attempt(insert), Return(ApiResponse(DocOf(Some(payload)), StatusCreated))))
  }

  /** GET /todo/{id}: the id check, then a lookup whose finally clause decides the response. */
  function GetTodo(todoid: string, isValidUuid: string -> bool, found: Store<Option<Fields>>): (h: Handled)
    ensures h.result.Return?
    ensures h.result.response.code in {StatusOk, StatusBadRequest, StatusNotFound}
  {
    if !isValidUuid(todoid) then
      Handled([], Return(TextResponse(StatusBadRequest, InvalidUuidFormatMsg)))
    else
      var payload := if found.Ok? then found.value else None;
      Handled([Select(todoid)],
              WithFinally(Attempt(found),
                          if payload.Some? then Return(ApiResponse(DocOf(payload), StatusOk))
                          else Return(TextResponse(StatusNotFound, MissingTodoMsg))))
  }

  /**
   * GET /todo?q=&status=: the status argument check, then the listing. When the listing raised,
   * the finally clause reads `payloads`, which was never bound, and so raises in turn.
   */
  function GetTodos(q: Option<string>, status: Option<string>, listed: Store<seq<Fields>>): (h: Handled)
    ensures h.result.Raise? <==> h.calls != [] && listed.DbError?
    ensures h.result.Return? ==> h.result.response.code in {StatusOk, StatusBadRequest}
  {
    if Truthy(status) && status.value != NotDone && status.value != Done then
      Handled([], Return(TextResponse(StatusBadRequest, InvalidStatusParameterMsg)))
    else
      Handled([SelectWhere(q, status)],
              WithFinally(Attempt(listed),
                          if listed.Ok? then Return(ApiResponse(Array(ToDicts(listed.value)), StatusOk))
                          else Raise("UnboundLocalError")))
  }

  /**
   * PUT /todo/{id}: the path id check, the existence check, then the body's id, text and status
   * checks with no defaults applied, then the update. The update is of the body's payload,
   * whatever its id. When the update raised, `payload` still holds the request's payload.
   */
  function UpdateTodo(todoid: string, body: Dict, isValidUuid: string -> bool,
                      existing: Store<Option<Fields>>, updated: Store<Option<Fields>>): (h: Handled)
    ensures h.result.Return?
    ensures h.result.response.code in {StatusOk, StatusBadRequest, StatusNotFound}
    ensures forall c | c in h.calls :: c.Update? ==> c.todo == FromDict(body)
  {
    if !isValidUuid(todoid) then
      Handled([], Return(TextResponse(StatusBadRequest, InvalidUuidFormatMsg)))
    else if !ExistenceCheck(existing).Normal? then
      Handled([Select(todoid)], ExistenceCheck(existing))
    else
      var payload := FromDict(body);
      if !isValidUuid(Str(payload.id)) then
        Handled([Select(todoid)], Return(TextResponse(StatusBadRequest, InvalidUuidFormatMsg)))
      else if !Truthy(payload.text) then
        Handled([Select(todoid)], Return(TextResponse(StatusBadRequest, EmptyTodoTextMsg)))
      else if !ValidStatus(payload.status) then
        Handled([Select(todoid)], Return(TextResponse(StatusBadRequest, InvalidStatusMsg)))
      else
        var result := if updated.Ok? then updated.value else Some(payload);
        Handled([Select(todoid), Update(payload)],
                WithFinally(Attempt(updated), Return(ApiResponse(DocOf(result), StatusOk))))
  }

  /**
   * DELETE /todo/{id}: the id check, the existence check, then the delete. When the delete
   * raised, the finally clause reads `is_delete_successful`, which was never bound, and raises.
   */
  function DeleteTodo(todoid: string, isValidUuid: string -> bool,
                      existing: Store<Option<Fields>>, deleted: Store<bool>): (h: Handled)
    ensures h.result.Raise? <==> |h.calls| == 2 && deleted.DbError?
    ensures h.result.Return? ==>
      h.result.response.code in {StatusNoContent, StatusBadRequest, StatusNotFound, StatusInternalServerError}
  {
    if !isValidUuid(todoid) then
      Handled([], Return(TextResponse(StatusBadRequest, InvalidUuidFormatMsg)))
    else if !ExistenceCheck(existing).Normal? then
      Handled([Select(todoid)], ExistenceCheck(existing))
    else
      Handled([Select(todoid), Delete(todoid)],
              WithFinally(Attempt(deleted),
                          if deleted.DbError? then Raise("UnboundLocalError")
                          else if deleted.value then Return(TextResponse(StatusNoContent, ""))
                          else Return(TextResponse(StatusInternalServerError, DeleteTodoFailedMsg))))
  }

  // ---------------------------------------------------------------------------------------
  // Properties of the handlers.

  /**
   * Create checks, after the defaults, the id, then the text, then the status; the first check
   * that fails decides the 400 message, and only a request that passes all three is inserted.
   */
  lemma CreateChecksInOrder(body: Dict, freshId: string, isValidUuid: string -> bool, insert: Store<()>)
    ensures var p, h := WithDefaults(FromDict(body), freshId), CreateTodo(body, freshId, isValidUuid, insert);
      && (!isValidUuid(Str(p.id)) ==> h == Handled([], Return(TextResponse(StatusBadRequest, InvalidUuidFormatMsg))))
      && (isValidUuid(Str(p.id)) && !Truthy(p.text) ==>
            h == Handled([], Return(TextResponse(StatusBadRequest, EmptyTodoTextMsg))))
      && (isValidUuid(Str(p.id)) && Truthy(p.text) && !ValidStatus(p.status) ==>
            h == Handled([], Return(TextResponse(StatusBadRequest, InvalidStatusMsg))))
      && (h.calls != [] <==> isValidUuid(Str(p.id)) && Truthy(p.text) && ValidStatus(p.status))
  {
  }

  /**
   * A body without id and status passes the id and status checks, because the defaults come
   * first: with text, it is created with the fresh id and status N.
   */
  lemma CreateWithDefaults(body: Dict, freshId: string, isValidUuid: string -> bool, insert: Store<()>)
    requires Get(body, "id") == None && Get(body, "status") == None
    requires isValidUuid(freshId) && Truthy(Get(body, "text"))
    ensures CreateTodo(body, freshId, isValidUuid, insert).result
         == Return(ApiResponse(Object(map["id" := Some(freshId), "text" := Get(body, "text"),
                                          "status" := Some(NotDone)]), StatusCreated))
  {
  }

  /**
   * Once the checks pass, create answers 201 with the payload even when the insert raised a
   * DatabaseError: the finally clause's return replaces the except clause's 500.
   */
  lemma CreateIgnoresDatabaseError(body: Dict, freshId: string, isValidUuid: string -> bool)
    requires CreateTodo(body, freshId, isValidUuid, Ok(())).calls != []
    ensures CreateTodo(body, freshId, isValidUuid, DbError) == CreateTodo(body, freshId, isValidUuid, Ok(()))
    ensures CreateTodo(body, freshId, isValidUuid, DbError).result.response.code == StatusCreated
  {
  }

  /**
   * Every 201 from create carries an object with a valid id, non-empty text and status N or D,
   * and that object reads back, through `from_dict`, as exactly the payload that was inserted.
   */
  lemma CreatedTodoIsValid(body: Dict, freshId: string, isValidUuid: string -> bool, insert: Store<()>)
    requires CreateTodo(body, freshId, isValidUuid, insert).result.response.code == StatusCreated
    ensures var h := CreateTodo(body, freshId, isValidUuid, insert);
      && h.result.response.body.Json? && h.result.response.body.doc.Object?
      && var d := h.result.response.body.doc.fields;
      && isValidUuid(Str(Get(d, "id"))) && Truthy(Get(d, "text")) && ValidStatus(Get(d, "status"))
      && h.calls == [Insert(FromDict(d))]
  {
    var p := WithDefaults(FromDict(body), freshId);
    FromDictToDict(p);
  }

  /**
   * Get by id: an invalid id is a 400; a todo found is a 200 with it; no todo and a DatabaseError
   * alike give the empty 404, never a 500.
   */
  lemma GetTodoOutcomes(todoid: string, isValidUuid: string -> bool, found: Store<Option<Fields>>)
    ensures var h := GetTodo(todoid, isValidUuid, found);
      && (!isValidUuid(todoid) ==> h == Handled([], Return(TextResponse(StatusBadRequest, InvalidUuidFormatMsg))))
      && (isValidUuid(todoid) && found.Ok? && found.value.Some? ==>
            h == Handled([Select(todoid)], Return(ApiResponse(Object(ToDict(found.value.value)), StatusOk))))
      && (isValidUuid(todoid) && (found.DbError? || found.value.None?) ==>
            h == Handled([Select(todoid)], Return(TextResponse(StatusNotFound, MissingTodoMsg))))
  {
  }

  /**
   * List refuses the status argument exactly when it is non-empty and neither N nor D; an absent
   * or empty status goes to the listing unchanged.
   */
  lemma GetTodosStatusCheck(q: Option<string>, status: Option<string>, listed: Store<seq<Fields>>)
    ensures var h := GetTodos(q, status, listed);
      && (h.result == Return(TextResponse(StatusBadRequest, InvalidStatusParameterMsg)) <==>
            status.Some? && status.value != "" && status.value != "N" && status.value != "D")
      && (!Truthy(status) ==> h.calls == [SelectWhere(q, status)])
  {
  }

  /** A successful listing answers 200 with one object per todo, in the order listed. */
  lemma GetTodosListing(q: Option<string>, status: Option<string>, payloads: seq<Fields>)
    requires !Truthy(status) || status == Some(NotDone) || status == Some(Done)
    ensures var h := GetTodos(q, status, Ok(payloads));
      && h.result.Return? && h.result.response.code == StatusOk
      && h.result.response.body == Json(Array(ToDicts(payloads)))
      && forall i | 0 <= i < |payloads| :: FromDict(h.result.response.body.doc.items[i]) == payloads[i]
  {
    forall i | 0 <= i < |payloads| ensures FromDict(ToDicts(payloads)[i]) == payloads[i] {
      FromDictToDict(payloads[i]);
    }
  }

  /**
   * Update checks the path id, then that the todo exists (a missing one, or a DatabaseError on
   * the lookup, gives the empty 404), and only then reads the body.
   */
  lemma UpdateChecksPathFirst(todoid: string, body: Dict, isValidUuid: string -> bool,
                              existing: Store<Option<Fields>>, updated: Store<Option<Fields>>)
    ensures var h := UpdateTodo(todoid, body, isValidUuid, existing, updated);
      && (!isValidUuid(todoid) ==> h == Handled([], Return(TextResponse(StatusBadRequest, InvalidUuidFormatMsg))))
      && (isValidUuid(todoid) && !(existing.Ok? && existing.value.Some?) ==>
            h == Handled([Select(todoid)], Return(TextResponse(StatusNotFound, MissingTodoMsg))))
  {
  }

  /**
   * With the todo present, update checks the body's id, then its text, then its status, and no
   * defaults are applied: a body without an id, or without a status, is a 400.
   */
  lemma UpdateChecksBody(todoid: string, body: Dict, isValidUuid: string -> bool,
                         existingTodo: Fields, updated: Store<Option<Fields>>)
    requires isValidUuid(todoid) && !isValidUuid("None")
    ensures var p, h := FromDict(body), UpdateTodo(todoid, body, isValidUuid, Ok(Some(existingTodo)), updated);
      && (!isValidUuid(Str(p.id)) ==>
            h == Handled([Select(todoid)], Return(TextResponse(StatusBadRequest, InvalidUuidFormatMsg))))
      && (isValidUuid(Str(p.id)) && !Truthy(p.text) ==>
            h == Handled([Select(todoid)], Return(TextResponse(StatusBadRequest, EmptyTodoTextMsg))))
      && (isValidUuid(Str(p.id)) && Truthy(p.text) && !ValidStatus(p.status) ==>
            h == Handled([Select(todoid)], Return(TextResponse(StatusBadRequest, InvalidStatusMsg))))
      && ("id" !in body ==> h.result == Return(TextResponse(StatusBadRequest, InvalidUuidFormatMsg)))
      && ("status" !in body && isValidUuid(Str(p.id)) && Truthy(p.text) ==>
            h.result == Return(TextResponse(StatusBadRequest, InvalidStatusMsg)))
  {
  }

  /**
   * Update writes the body's payload, with the body's id, which need not be the path id: a body
   * naming another valid id passes every check and is written under that id.
   */
  lemma UpdateUsesBodyId(todoid: string, body: Dict, isValidUuid: string -> bool,
                         existingTodo: Fields, updated: Store<Option<Fields>>)
    requires isValidUuid(todoid) && Get(body, "id").Some? && isValidUuid(Get(body, "id").value)
    requires Get(body, "id").value != todoid
    requires Truthy(Get(body, "text")) && ValidStatus(Get(body, "status"))
    ensures var h := UpdateTodo(todoid, body, isValidUuid, Ok(Some(existingTodo)), updated);
      && h.calls == [Select(todoid), Update(FromDict(body))]
      && h.calls[1].todo.id != Some(todoid)
      && h.result.response.code == StatusOk
  {
  }

  /**
   * Once the update is made, the answer is 200 with the re-read todo, JSON null when the re-read
   * found nothing, and the request's own payload when the update raised a DatabaseError.
   */
  lemma UpdateResult(todoid: string, body: Dict, isValidUuid: string -> bool,
                     existingTodo: Fields, updated: Store<Option<Fields>>)
    requires UpdateTodo(todoid, body, isValidUuid, Ok(Some(existingTodo)), updated).calls
          == [Select(todoid), Update(FromDict(body))]
    ensures var r := UpdateTodo(todoid, body, isValidUuid, Ok(Some(existingTodo)), updated).result;
      && (updated.Ok? && updated.value.Some? ==>
            r == Return(ApiResponse(Object(ToDict(updated.value.value)), StatusOk)))
      && (updated == Ok(None) ==> r == Return(ApiResponse(Null, StatusOk)))
      && (updated.DbError? ==> r == Return(ApiResponse(Object(ToDict(FromDict(body))), StatusOk)))
  {
  }

  /**
   * Delete: an invalid id is a 400, a missing todo the empty 404, a delete that reports success
   * the empty 204, one that reports failure a 500 with its message, and a DatabaseError raises.
   */
  lemma DeleteTodoOutcomes(todoid: string, isValidUuid: string -> bool,
                           existing: Store<Option<Fields>>, deleted: Store<bool>)
    ensures var h := DeleteTodo(todoid, isValidUuid, existing, deleted);
      && (!isValidUuid(todoid) ==> h == Handled([], Return(TextResponse(StatusBadRequest, InvalidUuidFormatMsg))))
      && (isValidUuid(todoid) && !(existing.Ok? && existing.value.Some?) ==>
            h == Handled([Select(todoid)], Return(TextResponse(StatusNotFound, MissingTodoMsg))))
      && (isValidUuid(todoid) && existing.Ok? && existing.value.Some? ==>
            && h.calls == [Select(todoid), Delete(todoid)]
            && (deleted == Ok(true) ==> h.result == Return(TextResponse(StatusNoContent, "")))
            && (deleted == Ok(false) ==>
                  h.result == Return(TextResponse(StatusInternalServerError, DeleteTodoFailedMsg)))
            && (deleted.DbError? ==> h.result == Raise("UnboundLocalError")))
  {
  }
}
