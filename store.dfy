/** The in-memory store: the ordered todo list and the id counter, both process-wide
    mutable state, seeded with two records. */
module TodoStore {
  import opened Types
  import Json

  /** The store's contents at one moment. */
  datatype StoreState = StoreState(todos: seq<Todo>, nextId: nat)

  predicate IdsBelow(todos: seq<Todo>, bound: nat) {
    forall i :: 0 <= i < |todos| ==> 0 < todos[i].id < bound
  }

  predicate DistinctIds(todos: seq<Todo>) {
    forall i, j :: 0 <= i < j < |todos| ==> todos[i].id != todos[j].id
  }

  /** The store invariant: the counter is positive, and every id is positive, below the
      counter, and used once. */
  predicate ValidState(s: StoreState) {
    0 < s.nextId && IdsBelow(s.todos, s.nextId) && DistinctIds(s.todos)
  }

  /** The two seeded records; `created1` and `created2` stand for the clock readings. */
  function Seed(created1: string, created2: string): seq<Todo> {
    [Todo(1, Json.Str("Build something amazing"), Json.Bool(false), created1),
     Todo(2, Json.Str("Learn TypeScript deeply"), Json.Bool(true), created2)]
  }

  /** The initial store satisfies the invariant and its records have the declared shape. */
  lemma SeedValid(created1: string, created2: string)
    ensures ValidState(StoreState(Seed(created1, created2), 3))
    ensures AllWellTyped(Seed(created1, created2))
  {
  }

  class Store {
    var todos: seq<Todo>
    var nextId: nat

    function State(): StoreState
      reads this
    {
      StoreState(todos, nextId)
    }

    /** The store as the module initialises it: ids 1 and 2 in that order, the first not
        done and the second done, and the counter at 3. */
    constructor (created1: string, created2: string)
      ensures todos == Seed(created1, created2) && nextId == 3
      ensures |todos| == 2 && todos[0].id == 1 && todos[1].id == 2
      ensures todos[0].done == Json.Bool(false) && todos[1].done == Json.Bool(true)
      ensures ValidState(State())
    {
      todos := Seed(created1, created2);
      nextId := 3;
    }

    /** `incrementId()` (`nextId++`): returns the counter and leaves it one larger, so
        successive calls return strictly increasing ids; the list is untouched and, in a
        valid store, the returned id is used by no record. */
    method IncrementId() returns (id: nat)
      modifies this
      ensures id == old(nextId) && nextId == id + 1 && todos == old(todos)
      ensures ValidState(old(State())) ==> ValidState(State())
      ensures ValidState(old(State())) ==> forall i :: 0 <= i < |todos| ==> todos[i].id < id
    {
      id := nextId;
      nextId := nextId + 1;
    }
  }
}
