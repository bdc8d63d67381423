/**
 * The server's list store: a table from list id to list, changed in place by the
 * append, remove-at-index and replace handlers. Each handler either answers with the
 * updated list (status 201 or 200) or answers 404 with a plain-text reason and leaves
 * the table as it was.
 *
 * The pure functions Append, RemoveAt and Replace say what one handler does to a table;
 * the class Store holds the table and its methods are proved to behave as those functions.
 */
module ListStore {
  import opened TodoTypes

  const OK := 200
  const CREATED := 201
  const NOT_FOUND := 404

  const LIST_NOT_FOUND := "Todo list not found"
  const ITEM_NOT_FOUND := "Todo or todo list not found"

  const FIRST_ID := "0000000001"
  const SECOND_ID := "0000000002"

  datatype Body = ListBody(list: TodoList) | Text(message: string)

  datatype Reply = Reply(status: nat, body: Body)

  /** The table after a handler ran, and what it answered. */
  datatype Outcome = Outcome(table: Lists, reply: Reply)

  /** Every list is stored under its own id. */
  predicate WellKeyed(t: Lists)
  {
    forall k :: k in t ==> t[k].id == k
  }

  /** The table the server starts with: two empty lists. */
  function Seed(): (t: Lists)
    ensures t.Keys == {FIRST_ID, SECOND_ID}
    ensures WellKeyed(t)
    ensures forall k :: k in t ==> t[k].todos == []
  {
    map[FIRST_ID := TodoList(FIRST_ID, "First List", []),
        SECOND_ID := TodoList(SECOND_ID, "Second List", [])]
  }

  /** POST /todo-lists/{id}/todos: push `todo` onto the end of list `id`. */
  function Append(t: Lists, id: string, todo: TodoItem): (o: Outcome)
    ensures o.table.Keys == t.Keys
    ensures forall k :: k in t && k != id ==> o.table[k] == t[k]
    ensures id !in t ==> o.table == t && o.reply == Reply(NOT_FOUND, Text(LIST_NOT_FOUND))
    ensures id in t ==>
      var before, after := t[id], o.table[id];
      && after.id == before.id && after.title == before.title
      && |after.todos| == |before.todos| + 1
      && after.todos[..|before.todos|] == before.todos
      && after.todos[|before.todos|] == todo
      && o.reply == Reply(CREATED, ListBody(after))
  {
    if id in t then
      var list := t[id].(todos := t[id].todos + [todo]);
      Outcome(t[id := list], Reply(CREATED, ListBody(list)))
    else
      Outcome(t, Reply(NOT_FOUND, Text(LIST_NOT_FOUND)))
  }

  /**
   * Whether `todos[index]` is an element. `index` is what parseInt made of the path
   * segment: None stands for NaN, which never names an element, and so does a negative
   * or too large number.
   */
  predicate Defined(todos: seq<TodoItem>, index: Option<int>)
    ensures index.None? || todos == [] ==> !Defined(todos, index)
    ensures Defined(todos, index) ==> 0 <= index.value < |todos|
  {
    index.Some? && 0 <= index.value < |todos|
  }

  /** The sequence `todos.splice(i, 1)` leaves behind. */
  function SpliceOut(todos: seq<TodoItem>, i: nat): (r: seq<TodoItem>)
    requires i < |todos|
    ensures |r| == |todos| - 1
    ensures forall j :: 0 <= j < i ==> r[j] == todos[j]
    ensures forall j :: i <= j < |r| ==> r[j] == todos[j + 1]
    ensures multiset(r) + multiset{todos[i]} == multiset(todos)
  {
    assert todos == todos[..i] + [todos[i]] + todos[i + 1..];
    todos[..i] + todos[i + 1..]
  }

  /** DELETE /todo-lists/{id}/todos/{index}: remove the element at `index` of list `id`. */
  function RemoveAt(t: Lists, id: string, index: Option<int>): (o: Outcome)
    ensures o.table.Keys == t.Keys
    ensures forall k :: k in t && k != id ==> o.table[k] == t[k]
    ensures !(id in t && Defined(t[id].todos, index)) ==>
      o.table == t && o.reply == Reply(NOT_FOUND, Text(ITEM_NOT_FOUND))
    ensures id in t && Defined(t[id].todos, index) ==>
      var before, after := t[id], o.table[id];
      && after.id == before.id && after.title == before.title
      && |after.todos| == |before.todos| - 1
      && (forall j :: 0 <= j < index.value ==> after.todos[j] == before.todos[j])
      && (forall j :: index.value <= j < |after.todos| ==> after.todos[j] == before.todos[j + 1])
      && multiset(after.todos) + multiset{before.todos[index.value]} == multiset(before.todos)
      && o.reply == Reply(OK, ListBody(after))
  {
    if id in t && Defined(t[id].todos, index) then
      var list := t[id].(todos := SpliceOut(t[id].todos, index.value));
      Outcome(t[id := list], Reply(OK, ListBody(list)))
    else
      Outcome(t, Reply(NOT_FOUND, Text(ITEM_NOT_FOUND)))
  }

  /** PUT /todo-lists/{id}: overwrite the items of list `id` with `todos`, verbatim. */
  function Replace(t: Lists, id: string, todos: seq<TodoItem>): (o: Outcome)
    ensures o.table.Keys == t.Keys
    ensures forall k :: k in t && k != id ==> o.table[k] == t[k]
    ensures id !in t ==> o.table == t && o.reply == Reply(NOT_FOUND, Text(LIST_NOT_FOUND))
    ensures id in t ==>
      && o.table[id].id == t[id].id && o.table[id].title == t[id].title
      && o.table[id].todos == todos
      && o.reply == Reply(OK, ListBody(o.table[id]))
  {
    if id in t then
      var list := t[id].(todos := todos);
      Outcome(t[id := list], Reply(OK, ListBody(list)))
    else
      Outcome(t, Reply(NOT_FOUND, Text(LIST_NOT_FOUND)))
  }

  /** A reply carries a list exactly when its status is a success (2xx); otherwise it is 404. */
  predicate WellFormedReply(r: Reply)
  {
    if r.body.ListBody? then r.status == OK || r.status == CREATED else r.status == NOT_FOUND
  }

  /** Every handler answers with a well-formed reply and keeps every list under its own id. */
  lemma HandlersKeepShape(t: Lists, id: string, todo: TodoItem, index: Option<int>, todos: seq<TodoItem>)
    requires WellKeyed(t)
    ensures WellFormedReply(Append(t, id, todo).reply) && WellKeyed(Append(t, id, todo).table)
    ensures WellFormedReply(RemoveAt(t, id, index).reply) && WellKeyed(RemoveAt(t, id, index).table)
    ensures WellFormedReply(Replace(t, id, todos).reply) && WellKeyed(Replace(t, id, todos).table)
  {
  }

  /**
   * Replacing and then reading back gives exactly the supplied items (no merge), and a
   * second replace with the same items changes nothing more.
   */
  lemma ReplaceThenRead(t: Lists, id: string, todos: seq<TodoItem>)
    requires id in t
    ensures Replace(t, id, todos).table[id].todos == todos
    ensures Replace(Replace(t, id, todos).table, id, todos).table == Replace(t, id, todos).table
  {
  }

  /** Removing the middle one of three items leaves the outer two; index 5 of three is not found. */
  lemma RemoveExamples(x: TodoItem, y: TodoItem, z: TodoItem)
    ensures var t := Seed()[FIRST_ID := TodoList(FIRST_ID, "First List", [x, y, z])];
      && RemoveAt(t, FIRST_ID, Some(1)).table[FIRST_ID].todos == [x, z]
      && RemoveAt(t, FIRST_ID, Some(5)) == Outcome(t, Reply(NOT_FOUND, Text(ITEM_NOT_FOUND)))
  {
  }

  /** The shared table. Its key set never changes: no handler adds or deletes a list. */
  class Store {
    var lists: Lists

    ghost predicate Valid()
      reads this
    {
      lists.Keys == {FIRST_ID, SECOND_ID} && WellKeyed(lists)
    }

    constructor ()
      ensures Valid() && lists == Seed()
    {
      lists := Seed();
    }

    /** GET /todo-lists: the whole table; nothing changes, so two reads agree. */
    method GetAll() returns (all: Lists)
      ensures all == lists
    {
      all := lists;
    }

    method AppendItem(id: string, todo: TodoItem) returns (reply: Reply)
      requires Valid()
      modifies this
      ensures Valid()
      ensures Outcome(lists, reply) == Append(old(lists), id, todo)
    {
      if id in lists {
        var list := lists[id];
        list := list.(todos := list.todos + [todo]);
        lists := lists[id := list];
        reply := Reply(CREATED, ListBody(list));
      } else {
        reply := Reply(NOT_FOUND, Text(LIST_NOT_FOUND));
      }
    }

    method RemoveItemAt(id: string, index: Option<int>) returns (reply: Reply)
      requires Valid()
      modifies this
      ensures Valid()
      ensures Outcome(lists, reply) == RemoveAt(old(lists), id, index)
    {
      if id in lists && index.Some? && 0 <= index.value < |lists[id].todos| {
        var list := lists[id];
        list := list.(todos := SpliceOut(list.todos, index.value));
        lists := lists[id := list];
        reply := Reply(OK, ListBody(list));
      } else {
        reply := Reply(NOT_FOUND, Text(ITEM_NOT_FOUND));
      }
    }

    method ReplaceItems(id: string, todos: seq<TodoItem>) returns (reply: Reply)
      requires Valid()
      modifies this
      ensures Valid()
      ensures Outcome(lists, reply) == Replace(old(lists), id, todos)
    {
      if id in lists {
        var list := lists[id];
        list := list.(todos := todos);
        lists := lists[id := list];
        reply := Reply(OK, ListBody(list));
      } else {
        reply := Reply(NOT_FOUND, Text(LIST_NOT_FOUND));
      }
    }
  }
}
