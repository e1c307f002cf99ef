/** The task-list page: the local mirror of the user's tasks, the fetch
    outcome that replaces it, the delete and toggle handlers that edit it
    after a successful request, and the view chosen from its state. */
module TodoList {
  import opened Common
  import opened TodoItem

  const FetchError := "Failed to fetch todos"

  /** No two tasks of the mirror share an id. */
  ghost predicate UniqueIds(todos: seq<Todo>)
  {
    forall i, j :: 0 <= i < j < |todos| ==> todos[i].id != todos[j].id
  }

  /** `todos.filter(todo => todo._id !== id)`. */
  function Without(todos: seq<Todo>, id: string): (r: seq<Todo>)
    ensures |r| <= |todos|
    ensures forall t :: t in r ==> t in todos && t.id != id
    ensures forall t :: t in todos && t.id != id ==> t in r
  {
    if todos == [] then []
    else (if todos[0].id == id then [] else [todos[0]]) + Without(todos[1..], id)
  }

  /** Filtering commutes with concatenation, so the kept tasks keep their
      relative order. */
  lemma {:induction false} WithoutAppend(a: seq<Todo>, b: seq<Todo>, id: string)
    ensures Without(a + b, id) == Without(a, id) + Without(b, id)
  {
    if a == [] {
      assert a + b == b;
    } else {
      var head := if a[0].id == id then [] else [a[0]];
      SplitFirst(a, b);
      WithoutAppend(a[1..], b, id);
      Regroup(head, Without(a[1..], id), Without(b, id));
    }
  }

  /** The first element and the rest of a concatenation whose left part is
      not empty. */
  lemma SplitFirst<T>(a: seq<T>, b: seq<T>)
    requires a != []
    ensures (a + b)[0] == a[0] && (a + b)[1..] == a[1..] + b
  {
  }

  /** Concatenation is associative. */
  lemma Regroup<T>(x: seq<T>, y: seq<T>, z: seq<T>)
    ensures x + (y + z) == (x + y) + z
  {
  }

  /** Deleting an id nobody has changes nothing, so a second delete of the
      same id is a no-op. */
  lemma {:induction false} WithoutAbsent(todos: seq<Todo>, id: string)
    requires forall t :: t in todos ==> t.id != id
    ensures Without(todos, id) == todos
  {
    if todos != [] {
      WithoutAbsent(todos[1..], id);
    }
  }

  lemma {:induction false} WithoutIdempotent(todos: seq<Todo>, id: string)
    ensures Without(Without(todos, id), id) == Without(todos, id)
  {
    WithoutAbsent(Without(todos, id), id);
  }

  /** Removing tasks keeps the ids unique. */
  lemma {:induction false} WithoutKeepsUniqueIds(todos: seq<Todo>, id: string)
    requires UniqueIds(todos)
    ensures UniqueIds(Without(todos, id))
  {
    if todos != [] {
      var rest := Without(todos[1..], id);
      WithoutKeepsUniqueIds(todos[1..], id);
      if todos[0].id != id {
        forall t | t in rest ensures t.id != todos[0].id {
          var k :| 0 <= k < |todos[1..]| && todos[1..][k] == t;
          assert todos[k + 1] == t;
        }
        ConsKeepsUniqueIds(todos[0], rest);
      } else {
        assert Without(todos, id) == [] + rest;
      }
    }
  }

  /** A task whose id no task of a unique-id list has can be put in front. */
  lemma ConsKeepsUniqueIds(todo: Todo, rest: seq<Todo>)
    requires UniqueIds(rest)
    requires forall t :: t in rest ==> t.id != todo.id
    ensures UniqueIds([todo] + rest)
  {
    var r := [todo] + rest;
    forall i, j | 0 <= i < j < |r| ensures r[i].id != r[j].id {
      if i == 0 {
        assert r[j] == rest[j - 1];
        assert r[j] in rest;
      } else {
        assert r[i] == rest[i - 1] && r[j] == rest[j - 1];
      }
    }
  }

  /** `{ ...todo, completed: !todo.completed }`. */
  function Flip(todo: Todo): (r: Todo)
    ensures r.completed == !todo.completed
    ensures r.(completed := todo.completed) == todo
  {
    todo.(completed := !todo.completed)
  }

  /** `todos.map(todo => todo._id === id ? flip(todo) : todo)`. */
  function Toggled(todos: seq<Todo>, id: string): (r: seq<Todo>)
    ensures |r| == |todos|
  {
    if todos == [] then []
    else [if todos[0].id == id then Flip(todos[0]) else todos[0]] + Toggled(todos[1..], id)
  }

  /** Toggling flips `completed` on the entries with the id and leaves every
      other entry, and every other field, as it was, position by position. */
  lemma {:induction false} ToggledAt(todos: seq<Todo>, id: string, i: int)
    requires 0 <= i < |todos|
    ensures Toggled(todos, id)[i] == if todos[i].id == id then Flip(todos[i]) else todos[i]
  {
    if i > 0 {
      ToggledAt(todos[1..], id, i - 1);
    }
  }

  lemma {:induction false} ToggledFields(todos: seq<Todo>, id: string)
    ensures forall i :: 0 <= i < |todos| ==>
      && Toggled(todos, id)[i].(completed := todos[i].completed) == todos[i]
      && (Toggled(todos, id)[i].completed <==> (todos[i].completed != (todos[i].id == id)))
  {
    forall i | 0 <= i < |todos|
      ensures Toggled(todos, id)[i].(completed := todos[i].completed) == todos[i]
      ensures Toggled(todos, id)[i].completed <==> (todos[i].completed != (todos[i].id == id))
    {
      ToggledAt(todos, id, i);
    }
  }

  /** Two successful toggles of one id restore the list. */
  lemma {:induction false} ToggleTwice(todos: seq<Todo>, id: string)
    ensures Toggled(Toggled(todos, id), id) == todos
  {
    var once := Toggled(todos, id);
    forall i | 0 <= i < |todos| ensures Toggled(once, id)[i] == todos[i] {
      ToggledAt(todos, id, i);
      ToggledAt(once, id, i);
    }
  }

  /** Toggling keeps the ids unique. */
  lemma {:induction false} ToggledKeepsUniqueIds(todos: seq<Todo>, id: string)
    requires UniqueIds(todos)
    ensures UniqueIds(Toggled(todos, id))
  {
    ToggledFields(todos, id);
  }

  /** The PATCH body of a click on a row of the mirror, `!todo.completed`,
      is the value the local update then stores for that row. */
  lemma {:induction false} PatchBodyMatchesLocalUpdate(todos: seq<Todo>, i: int)
    requires 0 <= i < |todos|
    ensures OnClick(todos[i], ToggleButton).ToggleComplete?
    ensures Toggled(todos, todos[i].id)[i].completed == !OnClick(todos[i], ToggleButton).completed
  {
    ToggledAt(todos, todos[i].id, i);
  }

  /** `todos.filter(todo => todo.completed).length`. */
  function CompletedCount(todos: seq<Todo>): (n: nat)
    ensures n <= |todos|
    ensures n == 0 <==> forall t :: t in todos ==> !t.completed
    ensures n == |todos| <==> forall t :: t in todos ==> t.completed
  {
    if todos == [] then 0
    else (if todos[0].completed then 1 else 0) + CompletedCount(todos[1..])
  }

  /** The count of a concatenation is the sum of the counts; with the
      one-entry case (1 for a completed entry, 0 otherwise) this fixes the
      count of every list. */
  lemma {:induction false} CompletedCountAppend(a: seq<Todo>, b: seq<Todo>)
    ensures CompletedCount(a + b) == CompletedCount(a) + CompletedCount(b)
    ensures forall t :: CompletedCount([t]) == if t.completed then 1 else 0
  {
    if a == [] {
      assert a + b == b;
    } else {
      SplitFirst(a, b);
      assert CompletedCount(a + b) == (if a[0].completed then 1 else 0) + CompletedCount(a[1..] + b);
      CompletedCountAppend(a[1..], b);
    }
    forall t ensures CompletedCount([t]) == if t.completed then 1 else 0 {
      assert [t][1..] == [];
    }
  }

  /** What the page shows. The list view carries its summary line. */
  datatype View =
    | Spinner
    | ErrorView(message: string)
    | FirstTaskPrompt
    | ListView(items: seq<Todo>, completed: nat, total: nat)

  /** The spinner while loading, else the error, else the tasks or, when
      there are none, the "add your first task" prompt. */
  function ViewOf(loading: bool, error: Option<string>, todos: seq<Todo>): (v: View)
    ensures v.Spinner? <==> loading
    ensures v.ErrorView? <==> !loading && Truthy(error)
    ensures v.ErrorView? ==> v.message == error.value
    ensures v.FirstTaskPrompt? <==> !loading && !Truthy(error) && todos == []
    ensures v.ListView? ==> v.items == todos && 0 < v.total == |todos| && v.completed <= v.total
    ensures v.ListView? ==> v.completed == CompletedCount(todos)
  {
    if loading then Spinner
    else if Truthy(error) then ErrorView(error.value)
    else if todos == [] then FirstTaskPrompt
    else ListView(todos, CompletedCount(todos), |todos|)
  }

  /** The page's state. */
  class TodoListPage {
    var todos: seq<Todo>
    var loading: bool
    var error: Option<string>

    constructor ()
      ensures todos == [] && loading && error == None
    {
      todos := [];
      loading := true;
      error := None;
    }

    /** The fetch effect for the current `user`: nothing happens without a
        session; a success replaces the mirror wholesale, a failure keeps it
        and records the error; both clear `loading`. */
    method FetchTodos(user: Option<Session>, response: ApiOutcome<seq<Todo>>) returns (requested: bool)
      modifies this
      ensures requested <==> user.Some?
      ensures !requested ==> todos == old(todos) && loading == old(loading) && error == old(error)
      ensures requested && response.Ok? ==> todos == response.data && !loading && error == old(error)
      ensures requested && response.Failed? ==> todos == old(todos) && !loading && error == Some(FetchError)
    {
      requested := user.Some?;
      if requested {
        match response
        case Ok(data) =>
          todos := data;
          loading := false;
        case Failed(_) =>
          error := Some(FetchError);
          loading := false;
      }
    }

    /** `handleDelete(id)` after a DELETE with outcome `response`: on success
        every entry with the id goes, the rest stay in order; on failure the
        error is only logged. */
    method HandleDelete(id: string, response: ApiOutcome<()>)
      modifies this`todos
      ensures response.Ok? ==> todos == Without(old(todos), id)
      ensures response.Failed? ==> todos == old(todos)
    {
      if response.Ok? {
        todos := Without(todos, id);
      }
    }

    /** `handleToggleComplete(id, completed)`: the PATCH body is `!completed`
        of the argument; on success the stored entries with the id flip their
        own `completed`; on failure nothing changes. */
    method HandleToggleComplete(id: string, completed: bool, response: ApiOutcome<Todo>)
      returns (patchCompleted: bool)
      modifies this`todos
      ensures patchCompleted == !completed
      ensures response.Ok? ==> todos == Toggled(old(todos), id)
      ensures response.Failed? ==> todos == old(todos)
    {
      patchCompleted := !completed;
      if response.Ok? {
        todos := Toggled(todos, id);
      }
    }

    /** A click on a row, routed to the handler the row was given. */
    method Dispatch(action: ListAction, response: ApiOutcome<Todo>)
      returns (patchCompleted: Option<bool>)
      modifies this`todos
      ensures action.Delete? ==> patchCompleted == None
      ensures action.ToggleComplete? ==> patchCompleted == Some(!action.completed)
      ensures response.Failed? ==> todos == old(todos)
      ensures response.Ok? && action.Delete? ==> todos == Without(old(todos), action.id)
      ensures response.Ok? && action.ToggleComplete? ==> todos == Toggled(old(todos), action.id)
    {
      match action
      case Delete(id) =>
        var outcome: ApiOutcome<()> := if response.Ok? then Ok(()) else Failed(response.err);
        HandleDelete(id, outcome);
        patchCompleted := None;
      case ToggleComplete(id, completed) =>
        var body := HandleToggleComplete(id, completed, response);
        patchCompleted := Some(body);
    }
  }
}
