/** The todo record and its JSON form. */
module Types {
  import opened Json

  /** A todo. `text` and `done` hold the JSON value last stored in them: creation stores a
      string and `false`, but a PATCH stores whatever value its body carries, since
      nothing checks the declared types at run time. */
  datatype Todo = Todo(id: nat, text: Value, done: Value, created: string)

  /** The declared shape of a todo: `text` a string and `done` a boolean. */
  predicate WellTyped(t: Todo) {
    t.text.Str? && t.done.Bool?
  }

  predicate AllWellTyped(todos: seq<Todo>) {
    forall i :: 0 <= i < |todos| ==> WellTyped(todos[i])
  }

  /** A todo as `JSON.stringify` sees it: `{id, text, done, created}` in that order. */
  function TodoJson(t: Todo): Value {
    Obj([Member("id", Num(t.id)), Member("text", t.text), Member("done", t.done), Member("created", Str(t.created))])
  }

  /** The whole list as a JSON array, in store order. */
  function TodosJson(todos: seq<Todo>): Value {
    Arr(seq(|todos|, i requires 0 <= i < |todos| => TodoJson(todos[i])))
  }
}
