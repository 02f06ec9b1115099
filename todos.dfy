/** The list updates of `useTodos` in
    week3/refactoring/features/to-do/hooks/useTodos.ts: each is the updater
    function handed to `setTodos`. */
module Todos {
  import opened Js

  /** `Todo`; `userId` is optional. */
  datatype Todo = Todo(id: int, title: string, completed: bool, userId: Option<int>)

  const EmptyTitleAlert := "할 일 내용을 입력해주세요."

  /** The list after `addTodo(title)` and the alert it showed, if any.
      `now` stands for `Date.now()`, the new item's id. */
  function AddTodo(todos: seq<Todo>, title: string, now: int): (r: (seq<Todo>, Option<string>))
    ensures AllSpace(title) ==> r == (todos, Some(EmptyTitleAlert))
    ensures !AllSpace(title) ==> r.1 == None && |r.0| == |todos| + 1
    ensures !AllSpace(title) ==> r.0[0] == Todo(now, Trim(title), false, Some(1)) && r.0[1..] == todos
    ensures !AllSpace(title) ==> r.0[0].title != ""
  {
    TrimEmptyIff(title);
    if Trim(title) == "" then (todos, Some(EmptyTitleAlert))
    else ([Todo(now, Trim(title), false, Some(1))] + todos, None)
  }

  /** `prevTodos.map(todo => todo.id === id ? { ...todo, completed: !todo.completed } : todo)` */
  function ToggleTodo(todos: seq<Todo>, id: int): (r: seq<Todo>)
    ensures |r| == |todos|
    ensures forall i :: 0 <= i < |todos| ==>
              r[i] == if todos[i].id == id then todos[i].(completed := !todos[i].completed) else todos[i]
  {
    if todos == [] then []
    else [if todos[0].id == id then todos[0].(completed := !todos[0].completed) else todos[0]]
         + ToggleTodo(todos[1..], id)
  }

  /** `prevTodos.filter(todo => todo.id !== id)` */
  function DeleteTodo(todos: seq<Todo>, id: int): (r: seq<Todo>)
    ensures |r| <= |todos|
    ensures forall t :: t in r <==> t in todos && t.id != id
  {
    if todos == [] then []
    else (if todos[0].id != id then [todos[0]] else []) + DeleteTodo(todos[1..], id)
  }

  /** Toggling the same id twice gives back the list. */
  lemma ToggleTwice(todos: seq<Todo>, id: int)
    ensures ToggleTodo(ToggleTodo(todos, id), id) == todos
  {
    var r := ToggleTodo(ToggleTodo(todos, id), id);
    assert forall i :: 0 <= i < |todos| ==> r[i] == todos[i];
  }

  /** Toggling only touches `completed`: ids and titles stay in place. */
  lemma ToggleKeepsIdentity(todos: seq<Todo>, id: int, i: int)
    requires 0 <= i < |todos|
    ensures ToggleTodo(todos, id)[i].id == todos[i].id && ToggleTodo(todos, id)[i].title == todos[i].title
  {
  }

  /** Deleting keeps the other items in their order: it works item by
      item, so it distributes over concatenation. */
  lemma {:induction false} DeleteAppend(a: seq<Todo>, b: seq<Todo>, id: int)
    ensures DeleteTodo(a + b, id) == DeleteTodo(a, id) + DeleteTodo(b, id)
    decreases |a|
  {
    if a != [] {
      assert (a + b)[1..] == a[1..] + b;
      DeleteAppend(a[1..], b, id);
    } else {
      assert a + b == b;
    }
  }

  /** Deleting an id that no item has changes nothing. */
  lemma {:induction false} DeleteAbsent(todos: seq<Todo>, id: int)
    requires forall i :: 0 <= i < |todos| ==> todos[i].id != id
    ensures DeleteTodo(todos, id) == todos
  {
    if todos != [] {
      DeleteAbsent(todos[1..], id);
      assert [todos[0]] + todos[1..] == todos;
    }
  }

  /** Deleting twice is deleting once. */
  lemma DeleteIdempotent(todos: seq<Todo>, id: int)
    ensures DeleteTodo(DeleteTodo(todos, id), id) == DeleteTodo(todos, id)
  {
    var d := DeleteTodo(todos, id);
    forall i | 0 <= i < |d|
      ensures d[i].id != id
    {
      assert d[i] in d;
    }
    DeleteAbsent(d, id);
  }
}
