/** The to-do list: listing newest first, creation, partial update and deletion. */
module Todos {
  import opened Common
  import opened Models
  import opened Http
  import opened Store

  /** A JSON value as the generic decoder yields it; only strings and
      booleans matter to an update. */
  datatype JsonValue = JString(s: string) | JBool(b: bool) | JNumber(n: int) | JNull | JCompound

  /** The body of an update: a JSON object, member name to value. */
  type Patch = map<string, JsonValue>

  function CreatedAt(t: Todo): int {
    t.createdAt
  }

  /** `list` is the decoded todos of `es`, in order, each carrying its key as id. */
  predicate ListsTodos(list: seq<Todo>, es: seq<(Id, Todo)>) {
    |list| == |es| && forall j :: 0 <= j < |es| ==> list[j] == es[j].1.(id := es[j].0)
  }

  /** GET /api/todos. The query asks for creation time, newest first; `keys`
      is the order the database answers in. */
  method GetTodos(todos: Collection<Todo>, keys: Fetch<seq<Id>>) returns (resp: Response)
    requires keys.Fetched? ==> InCollection(keys.value, todos.docs)
    ensures keys.FetchFailed? ==> resp == Error(StatusInternalServerError, "Failed to fetch todos")
    ensures keys.Fetched? ==>
              && resp.status == StatusOK && resp.body.Some? && resp.body.value.TodoList?
              && ListsTodos(resp.body.value.todos, Entries(keys.value, todos.docs))
    // when the database honours the ordering, so does the listing
    ensures (keys.Fetched? && DescendingBy(keys.value, todos.docs, CreatedAt)) ==>
              var list := resp.body.value.todos;
              forall i, j :: 0 <= i < j < |list| ==> list[i].createdAt >= list[j].createdAt
  {
    if keys.FetchFailed? {
      return Error(StatusInternalServerError, "Failed to fetch todos");
    }
    var ks := keys.value;
    var list: seq<Todo> := [];
    for i := 0 to |ks|
      invariant InCollection(ks[..i], todos.docs)
      invariant ListsTodos(list, Entries(ks[..i], todos.docs))
    {
      EntriesStep(ks, todos.docs, i);
      match todos.docs[ks[i]]
      case Decoded(t) =>
        list := list + [t.(id := ks[i])];
      case Undecodable =>
    }
    assert ks[..|ks|] == ks;
    if DescendingBy(ks, todos.docs, CreatedAt) {
      EntriesDescending(ks, todos.docs, CreatedAt);
      var es := Entries(ks, todos.docs);
      assert forall j :: 0 <= j < |list| ==> list[j].createdAt == CreatedAt(es[j].1);
    }
    resp := Response(StatusOK, Some(TodoList(list)));
  }

  /** POST /api/todos. The payload's own id is stored as sent; the response
      carries the id the database assigned. */
  method CreateTodo(todos: Collection<Todo>, body: Option<Todo>, writeFails: bool, now: Time, newId: Id)
      returns (resp: Response)
    requires newId != "" && newId !in todos.docs
    modifies todos
    ensures body.None? ==> resp == Error(StatusBadRequest, "Invalid request body")
    ensures body.Some? && body.value.title == "" ==> resp == Error(StatusBadRequest, "Title is required")
    ensures body.Some? && body.value.title != "" && writeFails ==> resp == Error(StatusInternalServerError, "Failed to create todo")
    ensures resp.status != StatusCreated ==> todos.docs == old(todos.docs)
    ensures (body.Some? && body.value.title != "" && !writeFails) ==>
              var stored := body.value.(completed := false, createdAt := now, updatedAt := now);
              && todos.docs == old(todos.docs)[newId := Decoded(stored)]
              && resp == Response(StatusCreated, Some(TodoBody(stored.(id := newId))))
    ensures resp.status == StatusCreated ==> |todos.docs| == |old(todos.docs)| + 1
    // a new todo is open, and the caller learns the id it was filed under
    ensures resp.status == StatusCreated ==>
              && resp.body.Some? && resp.body.value.TodoBody?
              && !resp.body.value.todo.completed && resp.body.value.todo.id == newId
  {
    if body.None? {
      return Error(StatusBadRequest, "Invalid request body");
    }
    var todo := body.value;
    if todo.title == "" {
      return Error(StatusBadRequest, "Title is required");
    }
    todo := todo.(completed := false, createdAt := now, updatedAt := now);
    if writeFails {
      return Error(StatusInternalServerError, "Failed to create todo");
    }
    todos.docs := todos.docs[newId := Decoded(todo)];
    resp := Response(StatusCreated, Some(TodoBody(todo.(id := newId))));
  }

  /** The todo after an update: a member sets its field only when it has the
      field's JSON type; everything else about the todo is kept, and the
      update instant is now. */
  function ApplyPatch(t: Todo, patch: Patch, now: Time): (u: Todo)
    ensures u.id == t.id && u.createdAt == t.createdAt && u.updatedAt == now
    ensures u.title == t.title || ("title" in patch && patch["title"] == JString(u.title))
    ensures u.description == t.description || ("description" in patch && patch["description"] == JString(u.description))
    ensures u.completed == t.completed || ("completed" in patch && patch["completed"] == JBool(u.completed))
  {
    var t1 := if "title" in patch && patch["title"].JString? then t.(title := patch["title"].s) else t;
    var t2 := if "description" in patch && patch["description"].JString? then t1.(description := patch["description"].s) else t1;
    var t3 := if "completed" in patch && patch["completed"].JBool? then t2.(completed := patch["completed"].b) else t2;
    t3.(updatedAt := now)
  }

  /** A well-typed member always takes effect. */
  lemma PatchTakesEffect(t: Todo, patch: Patch, now: Time)
    ensures "title" in patch && patch["title"].JString? ==> ApplyPatch(t, patch, now).title == patch["title"].s
    ensures "description" in patch && patch["description"].JString? ==> ApplyPatch(t, patch, now).description == patch["description"].s
    ensures "completed" in patch && patch["completed"].JBool? ==> ApplyPatch(t, patch, now).completed == patch["completed"].b
  {
  }

  /** An empty update only moves the update instant. */
  lemma EmptyPatchTouchesOnly(t: Todo, now: Time)
    ensures ApplyPatch(t, map[], now) == t.(updatedAt := now)
  {
  }

  /** Members other than the three fields, and members of the wrong type, are ignored. */
  lemma PatchIgnoresOtherMembers(t: Todo, patch: Patch, name: string, v: JsonValue, now: Time)
    requires name != "title" && name != "description" && name != "completed"
    ensures ApplyPatch(t, patch[name := v], now) == ApplyPatch(t, patch, now)
  {
  }

  lemma PatchIgnoresIllTyped(t: Todo, patch: Patch, now: Time)
    requires "title" in patch && !patch["title"].JString?
    ensures ApplyPatch(t, patch, now) == ApplyPatch(t, patch - {"title"}, now)
  {
  }

  /** Toggling completion changes nothing else but the update instant. */
  lemma ToggleOnlyCompletion(t: Todo, done: bool, now: Time)
    ensures ApplyPatch(t, map["completed" := JBool(done)], now) == t.(completed := done, updatedAt := now)
  {
  }

  /** Applying the same update twice is applying it once. */
  lemma PatchIdempotent(t: Todo, patch: Patch, now: Time)
    ensures ApplyPatch(ApplyPatch(t, patch, now), patch, now) == ApplyPatch(t, patch, now)
  {
  }

  /** PUT /api/todos/{id}. `readFails` says whether reading the document
      fails; reading an absent document fails too. */
  method UpdateTodo(todos: Collection<Todo>, todoId: Id, body: Option<Patch>, readFails: bool, writeFails: bool, now: Time)
      returns (resp: Response)
    modifies todos
    ensures todoId == "" ==> resp == Error(StatusBadRequest, "Todo ID is required")
    ensures todoId != "" && body.None? ==> resp == Error(StatusBadRequest, "Invalid request body")
    ensures (todoId != "" && body.Some? && (readFails || todoId !in old(todos.docs)))
              ==> resp == Error(StatusNotFound, "Todo not found")
    ensures (todoId != "" && body.Some? && !readFails && todoId in old(todos.docs) && old(todos.docs)[todoId].Undecodable?)
              ==> resp == Error(StatusInternalServerError, "Failed to read todo")
    ensures (todoId != "" && body.Some? && !readFails && todoId in old(todos.docs) && old(todos.docs)[todoId].Decoded? && writeFails)
              ==> resp == Error(StatusInternalServerError, "Failed to update todo")
    ensures resp.status != StatusOK ==> todos.docs == old(todos.docs)
    ensures resp.status == StatusOK <==>
              todoId != "" && body.Some? && !readFails && todoId in old(todos.docs) && old(todos.docs)[todoId].Decoded? && !writeFails
    ensures resp.status == StatusOK ==>
              var updated := ApplyPatch(old(todos.docs)[todoId].value.(id := todoId), body.value, now);
              && todos.docs == old(todos.docs)[todoId := Decoded(updated)]
              && resp == Response(StatusOK, Some(TodoBody(updated)))
    ensures todos.docs.Keys == old(todos.docs).Keys
  {
    if todoId == "" {
      return Error(StatusBadRequest, "Todo ID is required");
    }
    if body.None? {
      return Error(StatusBadRequest, "Invalid request body");
    }
    if readFails || todoId !in todos.docs {
      return Error(StatusNotFound, "Todo not found");
    }
    match todos.docs[todoId]
    case Undecodable =>
      return Error(StatusInternalServerError, "Failed to read todo");
    case Decoded(stored) =>
      var todo := ApplyPatch(stored.(id := todoId), body.value, now);
      if writeFails {
        return Error(StatusInternalServerError, "Failed to update todo");
      }
      todos.docs := todos.docs[todoId := Decoded(todo)];
      resp := Response(StatusOK, Some(TodoBody(todo)));
  }

  /** DELETE /api/todos/{id}. Deleting a todo that does not exist succeeds. */
  method DeleteTodo(todos: Collection<Todo>, todoId: Id, writeFails: bool) returns (resp: Response)
    modifies todos
    ensures todoId == "" ==> resp == Error(StatusBadRequest, "Todo ID is required") && todos.docs == old(todos.docs)
    ensures todoId != "" && writeFails ==> resp == Error(StatusInternalServerError, "Failed to delete todo") && todos.docs == old(todos.docs)
    ensures todoId != "" && !writeFails ==> resp == Response(StatusNoContent, None) && todos.docs == old(todos.docs) - {todoId}
  {
    if todoId == "" {
      return Error(StatusBadRequest, "Todo ID is required");
    }
    if writeFails {
      return Error(StatusInternalServerError, "Failed to delete todo");
    }
    todos.docs := todos.docs - {todoId};
    resp := Response(StatusNoContent, None);
  }

  /** Deleting is idempotent and leaves the other todos alone: after a delete
      the todo is gone, every other document is as it was, and deleting again
      changes nothing. */
  lemma DeleteRemovesExactly(docs: map<Id, Doc<Todo>>, todoId: Id)
    ensures todoId !in docs - {todoId}
    ensures forall k :: k in docs && k != todoId ==> k in docs - {todoId} && (docs - {todoId})[k] == docs[k]
    ensures (docs - {todoId}) - {todoId} == docs - {todoId}
  {
  }

  /** Creating a todo and deleting it under the id it was given restores the collection. */
  lemma CreateThenDeleteRestores(docs: map<Id, Doc<Todo>>, newId: Id, t: Todo)
    requires newId !in docs
    ensures docs[newId := Decoded(t)] - {newId} == docs
  {
  }
}
