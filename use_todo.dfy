/**
 The todo-list store of the `useTodo` hook: an ordered list of todos and a view
 filter, the operations that replace them, and the filtered view derived from them.
 Each list transformation is a pure function here; the store's methods install
 its result, as the hook's state setters do.
 */
module UseTodo {
  import Seqs

  /** One entry of the list. Ids are whatever the caller supplies; nothing makes them unique. */
  datatype Todo = Todo(id: int, text: string, completed: bool)

  /** The view selector held in the `filter` state cell. */
  datatype Filter = All | Active | Completed

  // ---------------------------------------------------------------------------
  // String.prototype.trim, as far as `addTodo` needs it

  /** The WhiteSpace and LineTerminator code points of ECMAScript, which `trim` strips. */
  predicate IsWhitespace(c: char) {
    c == '\t' || c == '\n' || c == '\U{000B}' || c == '\U{000C}' || c == '\r' || c == ' ' ||
    c == '\U{00A0}' || c == '\U{1680}' || ('\U{2000}' <= c <= '\U{200A}') ||
    c == '\U{2028}' || c == '\U{2029}' || c == '\U{202F}' || c == '\U{205F}' ||
    c == '\U{3000}' || c == '\U{FEFF}'
  }

  /** `s` without its leading whitespace: a suffix of `s` that starts with a non-blank, if anything. */
  function TrimStart(s: string): (r: string)
    ensures |r| <= |s| && r == s[|s| - |r|..]
    ensures forall i :: 0 <= i < |s| - |r| ==> IsWhitespace(s[i])
    ensures r != [] ==> !IsWhitespace(r[0])
  {
    if s != [] && IsWhitespace(s[0]) then TrimStart(s[1..]) else s
  }

  /** `s` without its trailing whitespace: a prefix of `s` that ends with a non-blank, if anything. */
  function TrimEnd(s: string): (r: string)
    ensures |r| <= |s| && r == s[..|r|]
    ensures forall i :: |r| <= i < |s| ==> IsWhitespace(s[i])
    ensures r != [] ==> !IsWhitespace(r[|r| - 1])
  {
    if s != [] && IsWhitespace(s[|s| - 1]) then TrimEnd(s[..|s| - 1]) else s
  }

  /** `s.trim()`: empty exactly when every character of `s` is whitespace, and bounded by non-blanks otherwise. */
  function Trim(s: string): (r: string)
    ensures r == [] <==> forall i :: 0 <= i < |s| ==> IsWhitespace(s[i])
    ensures r != [] ==> !IsWhitespace(r[0]) && !IsWhitespace(r[|r| - 1])
  {
    TrimEnd(TrimStart(s))
  }

  // ---------------------------------------------------------------------------
  // The list transformations

  /** The list with `completed` flipped on every todo whose id is `id` (the `map` of `toggleTodoCompleted`). */
  function Toggled(l: seq<Todo>, id: int): (r: seq<Todo>)
    ensures |r| == |l|
  {
    if l == [] then []
    else [if l[0].id == id then l[0].(completed := !l[0].completed) else l[0]] + Toggled(l[1..], id)
  }

  /** Toggling touches only `completed`, flips it exactly on the todos with the given id, and leaves the others identical. */
  lemma {:induction false} ToggledAt(l: seq<Todo>, id: int, i: nat)
    requires i < |l|
    ensures Toggled(l, id)[i].id == l[i].id && Toggled(l, id)[i].text == l[i].text
    ensures Toggled(l, id)[i].completed == (if l[i].id == id then !l[i].completed else l[i].completed)
    ensures l[i].id != id ==> Toggled(l, id)[i] == l[i]
  {
    if i > 0 {
      ToggledAt(l[1..], id, i - 1);
    }
  }

  /** Toggling the same id twice restores the list. */
  lemma {:induction false} ToggledTwice(l: seq<Todo>, id: int)
    ensures Toggled(Toggled(l, id), id) == l
  {
    if l != [] {
      ToggledTwice(l[1..], id);
      assert Toggled(l, id)[1..] == Toggled(l[1..], id);
    }
  }

  /** Toggling an id that no todo carries changes nothing. */
  lemma {:induction false} ToggledUnknownId(l: seq<Todo>, id: int)
    requires forall t :: t in l ==> t.id != id
    ensures Toggled(l, id) == l
  {
    if l != [] {
      assert forall t :: t in l[1..] ==> t in l;
      ToggledUnknownId(l[1..], id);
      assert l == [l[0]] + l[1..];
    }
  }

  /** Whether a todo is shown under a filter (the `switch` inside `filteredTodos`). */
  predicate Matches(f: Filter, t: Todo) {
    match f
    case All => true
    case Active => !t.completed
    case Completed => t.completed
  }

  /** The todos shown under filter `f`, in list order. */
  function View(l: seq<Todo>, f: Filter): seq<Todo> {
    Seqs.Filter(l, (t: Todo) => Matches(f, t))
  }

  /** The list without its completed todos (the `filter` of `clearCompleted`). */
  function WithoutCompleted(l: seq<Todo>): seq<Todo> {
    Seqs.Filter(l, (t: Todo) => !t.completed)
  }

  /** The list without the todos whose id is `id` (the `filter` of `removeTodo`). */
  function WithoutId(l: seq<Todo>, id: int): seq<Todo> {
    Seqs.Filter(l, (t: Todo) => t.id != id)
  }

  /** The view is the order-preserving subsequence that holds every shown occurrence and nothing else. */
  lemma ViewSpec(l: seq<Todo>, f: Filter)
    ensures Seqs.IsSubsequence(View(l, f), l)
    ensures forall t :: multiset(View(l, f))[t] == if Matches(f, t) then multiset(l)[t] else 0
  {
    Seqs.FilterIsSubsequence(l, (t: Todo) => Matches(f, t));
    forall t ensures multiset(View(l, f))[t] == if Matches(f, t) then multiset(l)[t] else 0 {
      Seqs.FilterCount(l, (t: Todo) => Matches(f, t), t);
    }
  }

  /** Under `all` the view is the whole list. */
  lemma ViewAll(l: seq<Todo>)
    ensures View(l, All) == l
  {
    Seqs.FilterKeepsAll(l, (t: Todo) => Matches(All, t));
  }

  /** The `active` and `completed` views split the list: their sizes sum to its length, their contents to its contents. */
  lemma ViewPartition(l: seq<Todo>)
    ensures |View(l, Active)| + |View(l, Completed)| == |l|
    ensures multiset(View(l, Active)) + multiset(View(l, Completed)) == multiset(l)
    ensures forall t :: !(t in View(l, Active) && t in View(l, Completed))
  {
    Seqs.FilterPartition(l, (t: Todo) => Matches(Active, t), (t: Todo) => Matches(Completed, t));
    forall t ensures !(t in View(l, Active) && t in View(l, Completed)) {
      Seqs.FilterCount(l, (t: Todo) => Matches(Active, t), t);
      Seqs.FilterCount(l, (t: Todo) => Matches(Completed, t), t);
    }
  }

  /**
   Clearing completed todos leaves none, keeps every other occurrence in order,
   yields exactly what the `active` view shows, and is idempotent.
   */
  lemma ClearedSpec(l: seq<Todo>)
    ensures forall t :: t in WithoutCompleted(l) ==> !t.completed
    ensures Seqs.IsSubsequence(WithoutCompleted(l), l)
    ensures forall t: Todo :: !t.completed ==> multiset(WithoutCompleted(l))[t] == multiset(l)[t]
    ensures WithoutCompleted(l) == View(l, Active)
    ensures WithoutCompleted(WithoutCompleted(l)) == WithoutCompleted(l)
  {
    var p := (t: Todo) => !t.completed;
    Seqs.FilterIsSubsequence(l, p);
    forall t ensures (t in WithoutCompleted(l) ==> !t.completed) && (!t.completed ==> multiset(WithoutCompleted(l))[t] == multiset(l)[t]) {
      Seqs.FilterCount(l, p, t);
    }
    Seqs.FilterCongruent(l, p, (t: Todo) => Matches(Active, t));
    Seqs.FilterIdempotent(l, p);
  }

  /** Removing an id leaves no todo with that id and keeps every other occurrence in order. */
  lemma RemovedSpec(l: seq<Todo>, id: int)
    ensures forall t :: t in WithoutId(l, id) ==> t.id != id
    ensures Seqs.IsSubsequence(WithoutId(l, id), l)
    ensures forall t: Todo :: t.id != id ==> multiset(WithoutId(l, id))[t] == multiset(l)[t]
    ensures |WithoutId(l, id)| < |l| <==> exists t :: t in l && t.id == id
  {
    var p := (t: Todo) => t.id != id;
    var q := (t: Todo) => t.id == id;
    Seqs.FilterIsSubsequence(l, p);
    forall t ensures (t in WithoutId(l, id) ==> t.id != id) && (t.id != id ==> multiset(WithoutId(l, id))[t] == multiset(l)[t]) {
      Seqs.FilterCount(l, p, t);
    }
    Seqs.FilterPartition(l, p, q);
    if exists t :: t in l && t.id == id {
      var t :| t in l && t.id == id;
      Seqs.FilterCount(l, q, t);
    } else {
      Seqs.FilterKeepsAll(l, p);
    }
  }

  /** Removing the id of a todo just added under a fresh id gives back the list from before the add. */
  lemma RemoveUndoesAdd(l: seq<Todo>, id: int, text: string)
    requires forall t :: t in l ==> t.id != id
    ensures WithoutId(l + [Todo(id, text, false)], id) == l
  {
    var p := (t: Todo) => t.id != id;
    Seqs.FilterAppend(l, [Todo(id, text, false)], p);
    Seqs.FilterKeepsAll(l, p);
  }

  /** No todo in the list has blank text: what `addTodo`'s guard keeps out of the list. */
  predicate NoBlankText(l: seq<Todo>) {
    forall t :: t in l ==> Trim(t.text) != []
  }

  /** Toggling keeps every text, so it keeps the list free of blank texts. */
  lemma {:induction false} ToggledKeepsNoBlankText(l: seq<Todo>, id: int)
    requires NoBlankText(l)
    ensures NoBlankText(Toggled(l, id))
  {
    var r := Toggled(l, id);
    forall t | t in r
      ensures Trim(t.text) != []
    {
      var i :| 0 <= i < |r| && r[i] == t;
      ToggledAt(l, id, i);
      assert l[i] in l;
    }
  }

  /** A filter only drops todos, so it keeps the list free of blank texts. */
  lemma {:induction false} FilterKeepsNoBlankText(l: seq<Todo>, keep: Todo -> bool)
    requires NoBlankText(l)
    ensures NoBlankText(Seqs.Filter(l, keep))
  {
    forall t | t in Seqs.Filter(l, keep)
      ensures Trim(t.text) != []
    {
      Seqs.FilterCount(l, keep, t);
    }
  }

  // ---------------------------------------------------------------------------
  // The hook's state and operations

  /** The two state cells of the hook, `todolist` and `filter`. */
  class TodoStore {
    var todolist: seq<Todo>
    var filter: Filter

    /** The store invariant: every todo in the list was admitted by the blank-text guard of `addTodo`. */
    ghost predicate Valid()
      reads this
    {
      NoBlankText(todolist)
    }

    /** Both cells start at their `useState` initial values. */
    constructor ()
      ensures todolist == [] && filter == All
      ensures Valid()
    {
      todolist := [];
      filter := All;
    }

    /** `filteredTodos`: the todos the current filter shows, as an order-preserving subsequence. */
    function FilteredTodos(): (r: seq<Todo>)
      reads this
      ensures Seqs.IsSubsequence(r, todolist)
      ensures forall t :: multiset(r)[t] == if Matches(filter, t) then multiset(todolist)[t] else 0
      ensures filter == All ==> r == todolist
    {
      ViewSpec(todolist, filter);
      ViewAll(todolist);
      View(todolist, filter)
    }

    /**
     `addTodo` on the submitted text `todoItem`, with `id` standing for the clock reading.
     Blank text changes nothing; otherwise the untrimmed text is appended as an open
     todo and the filter goes back to `all`.
     */
    method AddTodo(todoItem: string, id: int)
      requires Valid()
      modifies this
      ensures Trim(todoItem) == [] ==> todolist == old(todolist) && filter == old(filter)
      ensures Trim(todoItem) != [] ==> todolist == old(todolist) + [Todo(id, todoItem, false)] && filter == All
      ensures Valid()
    {
      if Trim(todoItem) == [] {
        return;
      }
      todolist := todolist + [Todo(id, todoItem, false)];
      filter := All;
    }

    /** `toggleTodoCompleted`: flips every todo with this id; the filter is untouched. */
    method ToggleTodoCompleted(id: int)
      requires Valid()
      modifies this
      ensures todolist == Toggled(old(todolist), id) && filter == old(filter)
      ensures Valid()
    {
      ToggledKeepsNoBlankText(todolist, id);
      todolist := Toggled(todolist, id);
    }

    /** `clearCompleted`: drops every completed todo; the filter is untouched. */
    method ClearCompleted()
      requires Valid()
      modifies this
      ensures todolist == WithoutCompleted(old(todolist)) && filter == old(filter)
      ensures Valid()
    {
      FilterKeepsNoBlankText(todolist, (t: Todo) => !t.completed);
      todolist := WithoutCompleted(todolist);
    }

    /** `removeTodo`: drops every todo with this id; the filter is untouched. */
    method RemoveTodo(id: int)
      requires Valid()
      modifies this
      ensures todolist == WithoutId(old(todolist), id) && filter == old(filter)
      ensures Valid()
    {
      FilterKeepsNoBlankText(todolist, (t: Todo) => t.id != id);
      todolist := WithoutId(todolist, id);
    }

    /** `setFilter`: replaces the filter; the list is untouched. */
    method SetFilter(value: Filter)
      requires Valid()
      modifies this
      ensures filter == value && todolist == old(todolist)
      ensures Valid()
    {
      filter := value;
    }
  }

  /**
   Only a proof hint for `ThreeSubmissions`, not a property of the store: the list
   equality is proved here, away from the client's trim facts, which make the same
   step run out of resource when it is asserted inside the client.
   */
  lemma TwoAppends(t1: Todo, t3: Todo)
    ensures [] + [t1] + [t3] == [t1, t3]
  {
  }

  /**
   A client of the store: three submissions, the middle one blank (such as "Buy milk",
   "  " and "Walk dog"), give a two-todo list under `all`.
   */
  method ThreeSubmissions(first: string, blank: string, second: string, id1: int, id2: int, id3: int)
    returns (store: TodoStore)
    requires Trim(first) != [] && Trim(blank) == [] && Trim(second) != []
    ensures store.todolist == [Todo(id1, first, false), Todo(id3, second, false)]
    ensures store.filter == All
  {
    var t1, t3 := Todo(id1, first, false), Todo(id3, second, false);
    TwoAppends(t1, t3);
    store := new TodoStore();
    store.AddTodo(first, id1);
    store.AddTodo(blank, id2);
    store.AddTodo(second, id3);
  }

  /** Toggling the first of two open todos moves it from the `active` view to the `completed` one. */
  lemma ToggleFirstOfTwo(first: Todo, second: Todo)
    requires first.id != second.id && !first.completed && !second.completed
    ensures Toggled([first, second], first.id) == [first.(completed := true), second]
    ensures View([first.(completed := true), second], Completed) == [first.(completed := true)]
    ensures View([first.(completed := true), second], Active) == [second]
  {
    var done := first.(completed := true);
    assert [first, second] == [first] + [second];
    assert [done, second] == [done] + [second];
    ToggledAt([first, second], first.id, 0);
    ToggledAt([first, second], first.id, 1);
    Seqs.FilterAppend([done], [second], (t: Todo) => Matches(Completed, t));
    Seqs.FilterAppend([done], [second], (t: Todo) => Matches(Active, t));
  }

  /** Continuing that client: toggling the first todo moves it from the `active` view to the `completed` one. */
  method ToggleFirstThenView(store: TodoStore, first: Todo, second: Todo)
    requires store.Valid()
    requires store.todolist == [first, second] && first.id != second.id
    requires !first.completed && !second.completed
    modifies store
  {
    var done := first.(completed := true);
    ToggleFirstOfTwo(first, second);
    store.ToggleTodoCompleted(first.id);
    store.SetFilter(Completed);
    assert store.FilteredTodos() == [done];
    store.SetFilter(Active);
    assert store.FilteredTodos() == [second];
  }
}
