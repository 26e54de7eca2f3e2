/** The four request handlers acting on the store: list, create, partial update, remove.
    Each method is tied to a step function that gives the response and the new store
    contents; the step functions carry the handlers' guarantees. */
module Handlers {
  import opened Wrappers
  import opened Json
  import opened Types
  import opened TodoStore
  import opened Http
  import Text

  /** What a handler answers and what the store holds afterwards. */
  datatype Outcome = Outcome(response: Response, state: StoreState)

  /** `todos.findIndex(t => t.id === id)` (and the position `find` picks): the first
      record carrying `id`, or -1 when there is none. */
  function IndexOf(todos: seq<Todo>, id: nat): (r: int)
    ensures -1 <= r < |todos|
    ensures r == -1 <==> forall i :: 0 <= i < |todos| ==> todos[i].id != id
    ensures r >= 0 ==> todos[r].id == id && forall i :: 0 <= i < r ==> todos[i].id != id
  {
    if todos == [] then -1
    else if todos[0].id == id then 0
    else
      var k := IndexOf(todos[1..], id);
      if k == -1 then -1 else k + 1
  }

  /** The linear search itself. */
  method FindIndex(todos: seq<Todo>, id: nat) returns (idx: int)
    ensures idx == IndexOf(todos, id)
  {
    idx := 0;
    while idx < |todos|
      invariant 0 <= idx <= |todos|
      invariant forall i :: 0 <= i < idx ==> todos[i].id != id
    {
      if todos[idx].id == id {
        return;
      }
      idx := idx + 1;
    }
    idx := -1;
  }

  /** `todos.splice(i, 1)`: the record at `i` is gone and the others keep their order. */
  function RemoveAt(todos: seq<Todo>, i: nat): (r: seq<Todo>)
    requires i < |todos|
    ensures |r| == |todos| - 1
    ensures forall k :: 0 <= k < i ==> r[k] == todos[k]
    ensures forall k :: i <= k < |r| ==> r[k] == todos[k + 1]
  {
    todos[..i] + todos[i + 1..]
  }

  /** Removing a record from a valid store keeps it valid and leaves no record with the
      removed id. */
  lemma RemoveAtKeepsValid(s: StoreState, i: nat)
    requires ValidState(s) && i < |s.todos|
    ensures ValidState(StoreState(RemoveAt(s.todos, i), s.nextId))
    ensures forall k :: 0 <= k < |s.todos| - 1 ==> RemoveAt(s.todos, i)[k].id != s.todos[i].id
  {
    var r := RemoveAt(s.todos, i);
    forall a, b | 0 <= a < b < |r|
      ensures r[a].id != r[b].id
    {
      var a', b' := if a < i then a else a + 1, if b < i then b else b + 1;
      assert r[a] == s.todos[a'] && r[b] == s.todos[b'] && a' < b';
    }
    forall k | 0 <= k < |r|
      ensures r[k].id != s.todos[i].id
    {
      var k' := if k < i then k else k + 1;
      assert r[k] == s.todos[k'] && k' != i;
    }
  }

  /** `body.<name>` on a parsed body other than `null`: an object's member (the last one
      when the key is repeated); any other JSON value has no such property. */
  function Property(body: Value, name: string): (r: Option<Value>)
    ensures r.Some? <==> body.Obj? && exists i :: 0 <= i < |body.members| && body.members[i].key == name
  {
    if body.Obj? then Get(body.members, name) else None
  }

  /** The PATCH assignments `if (body.text !== undefined) todo.text = body.text` and the
      same for `done`: a supplied field is stored verbatim, an absent one keeps its value,
      and the id and creation time never change. */
  function Patch(t: Todo, body: Value): (r: Todo)
    ensures r.id == t.id && r.created == t.created
    ensures Property(body, "text").Some? ==> r.text == Property(body, "text").value
    ensures Property(body, "text").None? ==> r.text == t.text
    ensures Property(body, "done").Some? ==> r.done == Property(body, "done").value
    ensures Property(body, "done").None? ==> r.done == t.done
  {
    var withText := if Property(body, "text").Some? then t.(text := Property(body, "text").value) else t;
    if Property(body, "done").Some? then withText.(done := Property(body, "done").value) else withText
  }

  /** The verdict of `create`'s validation. */
  datatype CreateCheck = BadBody | TextRequired | Accepted(text: string)

  /** `create`'s check of `body.text?.trim()` inside its `try`. */
  function CheckCreate(body: Result<Value, BodyError>): CreateCheck {
    match body
    case Err(_) => BadBody
    case Ok(v) =>
      if v.Null? then BadBody
      else
        var text := Property(v, "text");
        if text.None? || text.value.Null? then TextRequired
        else if !text.value.Str? then BadBody
        else
          var trimmed := Text.Trim(text.value.s);
          if trimmed == "" then TextRequired else Accepted(trimmed)
  }

  /** What the check decides. A failed read, a `null` body (reading `.text` throws) or a
      `text` that is present but neither a string nor `null` (calling `.trim` throws) end
      in the `catch`. An absent or `null` text, or one made only of white space, is
      missing. A string with a non-white-space character is accepted, trimmed. */
  lemma CheckCreateVerdict(body: Result<Value, BodyError>)
    ensures var c, text := CheckCreate(body), if body.Ok? then Property(body.value, "text") else None;
      && (c.BadBody? <==> body.Err? || body.value.Null? || (text.Some? && !text.value.Null? && !text.value.Str?))
      && (c.Accepted? <==> body.Ok? && !body.value.Null? && text.Some? && text.value.Str? && !Text.AllTrimmable(text.value.s))
      && (c.Accepted? ==> c.text == Text.Trim(text.value.s) && c.text != "")
  {
    if body.Ok? && !body.value.Null? {
      var text := Property(body.value, "text");
      if text.Some? && text.value.Str? {
        Text.TrimEmptyIff(text.value.s);
      }
    }
  }

  /** `getAll`: 200 with the whole list, in store order. */
  function ListStep(s: StoreState): (o: Outcome)
    ensures o.state == s && o.response.status == 200
    ensures o.response.body == JsonBody(TodosJson(s.todos))
    ensures |o.response.body.value.items| == |s.todos|
    ensures forall i :: 0 <= i < |s.todos| ==> o.response.body.value.items[i] == TodoJson(s.todos[i])
  {
    Outcome(SendJSON(200, TodosJson(s.todos)), s)
  }

  /** Appending a record whose id is the counter, then bumping the counter, keeps the
      invariant. */
  lemma AppendKeepsValid(s: StoreState, t: Todo)
    requires t.id == s.nextId
    ensures ValidState(s) ==> ValidState(StoreState(s.todos + [t], s.nextId + 1))
  {
  }

  /** `create`: the validation verdict decides between the two 400 answers and the
      append of a new record under the next id. */
  function CreateStep(s: StoreState, body: Result<Value, BodyError>, created: string): (o: Outcome)
    ensures o.response.status == 201 || (o.response.status == 400 && o.state == s)
  {
    match CheckCreate(body)
    case BadBody => Outcome(SendError(400, "Invalid request body"), s)
    case TextRequired => Outcome(SendError(400, "Text is required"), s)
    case Accepted(text) =>
      var t := Todo(s.nextId, Str(text), Bool(false), created);
      Outcome(SendJSON(201, TodoJson(t)), StoreState(s.todos + [t], s.nextId + 1))
  }

  /** A refused body answers 400 (`Invalid request body` for a failed read or a thrown
      TypeError, `Text is required` for missing or blank text) and allocates no id:
      the store and the counter are unchanged. */
  lemma CreateRefused(s: StoreState, body: Result<Value, BodyError>, created: string)
    requires !CheckCreate(body).Accepted?
    ensures var o := CreateStep(s, body, created);
      && o.state == s
      && o.response == SendError(400, if CheckCreate(body).BadBody? then "Invalid request body" else "Text is required")
  {
  }

  /** An accepted body appends exactly one record at the end: the old counter as id,
      above every existing id in a valid store, the trimmed text, `done` false, the given
      creation time. The counter grows by one and the answer is 201 with that record. */
  lemma CreateAppends(s: StoreState, body: Result<Value, BodyError>, created: string)
    requires CheckCreate(body).Accepted?
    ensures var o := CreateStep(s, body, created);
      && |o.state.todos| == |s.todos| + 1
      && o.state.todos[..|s.todos|] == s.todos
      && o.state.nextId == s.nextId + 1
      && var t := o.state.todos[|s.todos|];
         && t.id == s.nextId && t.text == Str(CheckCreate(body).text) && t.done == Bool(false) && t.created == created
         && o.response == SendJSON(201, TodoJson(t))
         && (ValidState(s) ==> forall i :: 0 <= i < |s.todos| ==> s.todos[i].id < t.id)
  {
    var t := Todo(s.nextId, Str(CheckCreate(body).text), Bool(false), created);
    AppendKeepsValid(s, t);
  }

  /** `create` keeps the store invariant and the declared record shape. */
  lemma CreateKeepsValid(s: StoreState, body: Result<Value, BodyError>, created: string)
    ensures ValidState(s) ==> ValidState(CreateStep(s, body, created).state)
    ensures AllWellTyped(s.todos) ==> AllWellTyped(CreateStep(s, body, created).state.todos)
  {
    if CheckCreate(body).Accepted? {
      AppendKeepsValid(s, Todo(s.nextId, Str(CheckCreate(body).text), Bool(false), created));
    }
  }

  /** `update`. An id not in the store answers 404 `Not found` before the body is read.
      A failed read or a `null` body answers 400 `Invalid request body`. Both leave the
      store as it was. Otherwise only the first record with the id is patched, every
      other record and the order stay, and the answer is 200 with the patched record. */
  function UpdateStep(s: StoreState, id: nat, body: Result<Value, BodyError>): (o: Outcome)
    ensures IndexOf(s.todos, id) == -1 ==> o == Outcome(SendError(404, "Not found"), s)
    ensures IndexOf(s.todos, id) >= 0 && (body.Err? || body.value.Null?) ==>
              o == Outcome(SendError(400, "Invalid request body"), s)
    ensures IndexOf(s.todos, id) >= 0 && body.Ok? && !body.value.Null? ==>
              var i := IndexOf(s.todos, id);
              && o.state.nextId == s.nextId
              && |o.state.todos| == |s.todos|
              && (forall k :: 0 <= k < |s.todos| && k != i ==> o.state.todos[k] == s.todos[k])
              && o.state.todos[i] == Patch(s.todos[i], body.value)
              && o.response == SendJSON(200, TodoJson(o.state.todos[i]))
  {
    var i := IndexOf(s.todos, id);
    if i == -1 then Outcome(SendError(404, "Not found"), s)
    else if body.Err? || body.value.Null? then Outcome(SendError(400, "Invalid request body"), s)
    else
      var t := Patch(s.todos[i], body.value);
      Outcome(SendJSON(200, TodoJson(t)), StoreState(s.todos[i := t], s.nextId))
  }

  /** A PATCH never changes an id or the counter, so it keeps the store invariant. */
  lemma UpdateKeepsValid(s: StoreState, id: nat, body: Result<Value, BodyError>)
    requires ValidState(s)
    ensures ValidState(UpdateStep(s, id, body).state)
  {
    var o := UpdateStep(s, id, body);
    assert forall k :: 0 <= k < |o.state.todos| ==> o.state.todos[k].id == s.todos[k].id by {
      var i := IndexOf(s.todos, id);
      if i >= 0 && body.Ok? && !body.value.Null? {
        forall k | 0 <= k < |o.state.todos|
          ensures o.state.todos[k].id == s.todos[k].id
        {
          if k != i {
            assert o.state.todos[k] == s.todos[k];
          }
        }
      }
    }
  }

  /** `remove`. An id not in the store answers 404 `Not found` and changes nothing;
      otherwise the first record with the id is spliced out, the rest keep their order,
      and the answer is 204 with no body. */
  function RemoveStep(s: StoreState, id: nat): (o: Outcome)
    ensures IndexOf(s.todos, id) == -1 ==> o == Outcome(SendError(404, "Not found"), s)
    ensures IndexOf(s.todos, id) >= 0 ==>
              o == Outcome(NoContent, StoreState(RemoveAt(s.todos, IndexOf(s.todos, id)), s.nextId))
  {
    var i := IndexOf(s.todos, id);
    if i == -1 then Outcome(SendError(404, "Not found"), s)
    else Outcome(NoContent, StoreState(RemoveAt(s.todos, i), s.nextId))
  }

  /** A delete keeps the store invariant, and afterwards no record carries the id. */
  lemma RemoveKeepsValid(s: StoreState, id: nat)
    requires ValidState(s)
    ensures ValidState(RemoveStep(s, id).state)
    ensures IndexOf(RemoveStep(s, id).state.todos, id) == -1
  {
    var i := IndexOf(s.todos, id);
    if i >= 0 {
      RemoveAtKeepsValid(s, i);
    }
  }

  /** Deleting a present id twice answers 204, then 404. */
  lemma RemoveTwice(s: StoreState, id: nat)
    requires ValidState(s) && IndexOf(s.todos, id) >= 0
    ensures RemoveStep(s, id).response == NoContent
    ensures RemoveStep(RemoveStep(s, id).state, id).response == SendError(404, "Not found")
  {
    RemoveKeepsValid(s, id);
  }

  /** Under the declared body type (a supplied `text` is a string, a supplied `done` a
      boolean) a PATCH keeps every record in its declared shape. */
  lemma UpdateKeepsShape(s: StoreState, id: nat, body: Result<Value, BodyError>)
    requires AllWellTyped(s.todos)
    requires body.Ok? ==> Property(body.value, "text").Some? ==> Property(body.value, "text").value.Str?
    requires body.Ok? ==> Property(body.value, "done").Some? ==> Property(body.value, "done").value.Bool?
    ensures AllWellTyped(UpdateStep(s, id, body).state.todos)
  {
    var o := UpdateStep(s, id, body);
    var i := IndexOf(s.todos, id);
    if i >= 0 && body.Ok? && !body.value.Null? {
      forall k | 0 <= k < |o.state.todos|
        ensures WellTyped(o.state.todos[k])
      {
        if k != i {
          assert o.state.todos[k] == s.todos[k];
        }
      }
    }
  }

  /** A PATCH stores its `text` unchecked: an empty string is accepted, although `create`
      refuses blank text. */
  lemma PatchStoresBlankText(s: StoreState, id: nat)
    requires IndexOf(s.todos, id) >= 0
    ensures var o := UpdateStep(s, id, Ok(Obj([Member("text", Str(""))])));
      o.response.status == 200 && o.state.todos[IndexOf(s.todos, id)].text == Str("")
  {
  }

  /** `getAll(res)`. */
  method GetAll(store: Store) returns (r: Response)
    ensures Outcome(r, store.State()) == ListStep(store.State())
  {
    r := SendJSON(200, TodosJson(store.todos));
  }

  /** `create(req, res)`; `created` stands for the clock reading. */
  method Create(store: Store, read: BodyRead, parse: string -> Option<Value>, created: string) returns (r: Response)
    modifies store
    ensures Outcome(r, store.State()) == CreateStep(old(store.State()), GetBody(read, parse), created)
  {
    ghost var before := store.State();
    var body := ReadBody(read, parse);
    var check := CheckCreate(body);
    if check.Accepted? {
      var id := store.IncrementId();
      var todo := Todo(id, Str(check.text), Bool(false), created);
      store.todos := store.todos + [todo];
      r := SendJSON(201, TodoJson(todo));
      assert store.State() == StoreState(before.todos + [todo], before.nextId + 1);
      assert Outcome(r, store.State()) == CreateStep(before, body, created);
    } else if check.TextRequired? {
      r := SendError(400, "Text is required");
      assert Outcome(r, store.State()) == CreateStep(before, body, created);
    } else {
      r := SendError(400, "Invalid request body");
      assert Outcome(r, store.State()) == CreateStep(before, body, created);
    }
  }

  /** `update(req, res, id)`: the record is looked up before the body is read, then its
      fields are assigned in place. */
  method Update(store: Store, id: nat, read: BodyRead, parse: string -> Option<Value>) returns (r: Response)
    modifies store
    ensures Outcome(r, store.State()) == UpdateStep(old(store.State()), id, GetBody(read, parse))
  {
    var idx := FindIndex(store.todos, id);
    if idx == -1 {
      r := SendError(404, "Not found");
      return;
    }
    var body := ReadBody(read, parse);
    if body.Err? || body.value.Null? {
      r := SendError(400, "Invalid request body");
      return;
    }
    var todo := store.todos[idx];
    var text := Property(body.value, "text");
    if text.Some? {
      todo := todo.(text := text.value);
    }
    var done := Property(body.value, "done");
    if done.Some? {
      todo := todo.(done := done.value);
    }
    assert todo == Patch(store.todos[idx], body.value);
    store.todos := store.todos[idx := todo];
    r := SendJSON(200, TodoJson(todo));
  }

  /** `remove(res, id)`. */
  method Remove(store: Store, id: nat) returns (r: Response)
    modifies store
    ensures Outcome(r, store.State()) == RemoveStep(old(store.State()), id)
  {
    var idx := FindIndex(store.todos, id);
    if idx == -1 {
      r := SendError(404, "Not found");
      return;
    }
    store.todos := store.todos[..idx] + store.todos[idx + 1..];
    r := NoContent;
  }
}
