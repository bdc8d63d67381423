/**
 * The browser's todo-list view as a state machine. Its state is the local copy of every
 * list, the id of the list on display and the message of the last failure. Each handler is
 * a function from the state (and its input) to the next state. A handler that calls the
 * server is split in two: the request it sends, and the state change when the reply comes
 * back. The reply may come back after other steps have run.
 */
module SyncController {
  import opened TodoTypes

  datatype ClientState = ClientState(todoLists: Lists, activeList: Option<string>, error: Option<string>)

  /**
   * What awaiting a server call yields: the parsed payload, an object flagged as an
   * error with a message, or an exception with a message.
   */
  datatype ApiOutcome<T> = Payload(value: T) | ErrorResult(message: string) | Thrown(message: string)

  /** The calls the view makes to the server. */
  datatype Request =
    | Save(listId: string, todos: seq<TodoItem>)
    | Add(listId: string, todo: TodoItem)
    | Delete(listId: string, index: int)

  /** The next state together with the request a handler sends. */
  datatype Step = Step(next: ClientState, request: Request)

  /** The state on first render: nothing loaded, the remembered active id, no error. */
  function Initial(remembered: Option<string>): (s: ClientState)
    ensures Render(s) == Blank
    ensures s.activeList == remembered && s.error == None
  {
    ClientState(map[], remembered, None)
  }

  /** The list form is shown only for an active id that is a key of the local lists. */
  predicate ShowsForm(s: ClientState)
    ensures ShowsForm(s) ==> s.activeList.Some? && |s.todoLists| > 0
  {
    var shown := s.activeList.Some? && s.activeList.value in s.todoLists;
    assert shown ==> s.activeList.value in s.todoLists.Keys && |s.todoLists.Keys| > 0;
    shown
  }

  /** `todos.every(todo => todo.completed)`, one element at a time. */
  function AllCompleted(todos: seq<TodoItem>): (b: bool)
    ensures b <==> forall j :: 0 <= j < |todos| ==> todos[j].completed
  {
    if todos == [] then true else todos[0].completed && AllCompleted(todos[1..])
  }

  /** A list counts as completed when it has items and all of them are completed. */
  predicate IsCompleted(list: TodoList)
    ensures IsCompleted(list) <==> |list.todos| > 0 && forall j :: 0 <= j < |list.todos| ==> list.todos[j].completed
  {
    |list.todos| > 0 && AllCompleted(list.todos)
  }

  /** `todos.map((todo, idx) => idx === index ? f(todo) : todo)`. */
  function MapAt(todos: seq<TodoItem>, index: int, f: TodoItem -> TodoItem): (r: seq<TodoItem>)
    ensures |r| == |todos|
    ensures forall j :: 0 <= j < |todos| ==> r[j] == if j == index then f(todos[j]) else todos[j]
  {
    if todos == [] then []
    else [if index == 0 then f(todos[0]) else todos[0]] + MapAt(todos[1..], index - 1, f)
  }

  /** The text updater: a copy of `todo` with the new text. */
  function WithText(todo: TodoItem, value: string): (r: TodoItem)
    ensures r.text == value && r.completed == todo.completed
  {
    todo.(text := value)
  }

  /** The completion updater: a copy of `todo` with its flag flipped. */
  function Toggle(todo: TodoItem): (r: TodoItem)
    ensures r.completed == !todo.completed && r.text == todo.text
    ensures r != todo
  {
    todo.(completed := !todo.completed)
  }

  /** The result of updating one item of the active list: the next state and the updated items. */
  datatype Edit = Edit(next: ClientState, todos: seq<TodoItem>)

  /**
   * Applies `f` to the item at `index` of the active list, replaces that list's items with
   * the result, and returns the result too. Only reachable from the list form, so the
   * active id is a key.
   */
  function UpdateTodoAtIndex(s: ClientState, index: int, f: TodoItem -> TodoItem): (e: Edit)
    requires ShowsForm(s)
    ensures var a := s.activeList.value; var before := s.todoLists[a].todos;
      && |e.todos| == |before|
      && (forall j :: 0 <= j < |before| && j != index ==> e.todos[j] == before[j])
      && (0 <= index < |before| ==> e.todos[index] == f(before[index]))
      && (!(0 <= index < |before|) ==> e.todos == before)
      && e.next.todoLists.Keys == s.todoLists.Keys
      && e.next.todoLists[a] == s.todoLists[a].(todos := e.todos)
      && (forall k :: k in s.todoLists && k != a ==> e.next.todoLists[k] == s.todoLists[k])
      && e.next.activeList == s.activeList && e.next.error == s.error
  {
    var a := s.activeList.value;
    var updated := MapAt(s.todoLists[a].todos, index, f);
    Edit(s.(todoLists := s.todoLists[a := s.todoLists[a].(todos := updated)]), updated)
  }

  /**
   * Editing the text of item `index`: the local copy changes at once, and the updated items
   * are handed to the delayed save for the active list.
   */
  function UpdateTodoText(s: ClientState, index: int, value: string): (st: Step)
    requires ShowsForm(s)
    ensures st.next.activeList == s.activeList && ShowsForm(st.next)
    ensures var a := s.activeList.value; var before := s.todoLists[a].todos;
      var after := st.next.todoLists[a].todos;
      && |after| == |before|
      && (forall j :: 0 <= j < |before| && j != index ==> after[j] == before[j])
      && (0 <= index < |before| ==> after[index].text == value && after[index].completed == before[index].completed)
      && st.next.todoLists.Keys == s.todoLists.Keys
      && (forall k :: k in s.todoLists && k != a ==> st.next.todoLists[k] == s.todoLists[k])
      && st.next.todoLists[a].id == s.todoLists[a].id && st.next.todoLists[a].title == s.todoLists[a].title
      && st.next.error == s.error
      && st.request == Save(a, after)
  {
    var e := UpdateTodoAtIndex(s, index, t => WithText(t, value));
    Step(e.next, Save(s.activeList.value, e.todos))
  }

  /**
   * Toggling item `index`: the local copy changes at once, and the updated items are sent
   * straight away. The reply is handled by SaveReply, which never touches the lists.
   */
  function ToggleTodoCompletion(s: ClientState, index: int): (st: Step)
    requires ShowsForm(s)
    ensures st.next.activeList == s.activeList && ShowsForm(st.next)
    ensures var a := s.activeList.value; var before := s.todoLists[a].todos;
      var after := st.next.todoLists[a].todos;
      && |after| == |before|
      && (forall j :: 0 <= j < |before| && j != index ==> after[j] == before[j])
      && (0 <= index < |before| ==> after[index].completed == !before[index].completed && after[index].text == before[index].text)
      && st.next.todoLists.Keys == s.todoLists.Keys
      && (forall k :: k in s.todoLists && k != a ==> st.next.todoLists[k] == s.todoLists[k])
      && st.next.todoLists[a].id == s.todoLists[a].id && st.next.todoLists[a].title == s.todoLists[a].title
      && st.next.error == s.error
      && st.request == Save(a, after)
  {
    var e := UpdateTodoAtIndex(s, index, Toggle);
    Step(e.next, Save(s.activeList.value, e.todos))
  }

  /** The add button asks the server to append an empty, open item to the active list. */
  function AddTodoRequest(s: ClientState): (r: Request)
    requires ShowsForm(s)
    ensures r.Add? && r.listId == s.activeList.value && r.todo.text == "" && !r.todo.completed
  {
    Add(s.activeList.value, TodoItem("", false))
  }

  /** The delete button asks the server to remove item `index` of the active list. */
  function DeleteTodoRequest(s: ClientState, index: int): (r: Request)
    requires ShowsForm(s)
    ensures r.Delete? && r.listId == s.activeList.value && r.index == index
  {
    Delete(s.activeList.value, index)
  }

  /**
   * Awaits `outcome`: a failure of either kind replaces the message, and a payload is
   * handed to `update`, which can only produce new lists.
   */
  function ProcessApiResponse<T>(s: ClientState, outcome: ApiOutcome<T>, update: (Lists, T) -> Lists): (r: ClientState)
    ensures r.activeList == s.activeList
    ensures outcome.Payload? ==> r.error == s.error && r.todoLists == update(s.todoLists, outcome.value)
    ensures !outcome.Payload? ==> r.todoLists == s.todoLists && r.error == Some(outcome.message)
  {
    match outcome
    case Payload(result) => s.(todoLists := update(s.todoLists, result))
    case ErrorResult(message) => s.(error := Some(message))
    case Thrown(message) => s.(error := Some(message))
  }

  /** The default updater, which ignores the payload. */
  function KeepLists<T>(prev: Lists, result: T): (r: Lists)
    ensures r == prev
  {
    prev
  }

  /** The initial fetch: on success the local lists become the server's table. */
  function Load(s: ClientState, outcome: ApiOutcome<Lists>): (r: ClientState)
    ensures r.activeList == s.activeList
    ensures outcome.Payload? ==> r.todoLists == outcome.value && r.error == s.error
    ensures !outcome.Payload? ==> r.todoLists == s.todoLists && r.error == Some(outcome.message)
  {
    ProcessApiResponse(s, outcome, (prev, lists) => lists)
  }

  /**
   * The reply to a save (a toggle or a delayed text edit). Whatever the server answers,
   * the local lists stay as the optimistic edit left them; a failure only sets the message.
   */
  function SaveReply(s: ClientState, outcome: ApiOutcome<TodoList>): (r: ClientState)
    ensures r.todoLists == s.todoLists && r.activeList == s.activeList
    ensures outcome.Payload? ==> r.error == s.error
    ensures !outcome.Payload? ==> r.error == Some(outcome.message)
  {
    ProcessApiResponse(s, outcome, KeepLists)
  }

  /**
   * The reply to an add or a delete. `listId` is the active id when the request was made:
   * a successful reply overwrites that entry with the server's list, whichever list is
   * active by now, and leaves every other entry alone.
   */
  function HandleUpdatedListApiResponse(s: ClientState, listId: string, outcome: ApiOutcome<TodoList>): (r: ClientState)
    ensures r.activeList == s.activeList
    ensures outcome.Payload? ==>
      && r.error == s.error
      && r.todoLists.Keys == s.todoLists.Keys + {listId}
      && r.todoLists[listId] == outcome.value
      && (forall k :: k in s.todoLists && k != listId ==> r.todoLists[k] == s.todoLists[k])
    ensures !outcome.Payload? ==> r.todoLists == s.todoLists && r.error == Some(outcome.message)
  {
    ProcessApiResponse(s, outcome, (prev: Lists, updated: TodoList) => prev[listId := updated])
  }

  /** Clicking a list in the side bar makes it the active one; nothing is sent. */
  function SelectList(s: ClientState, key: string): (r: ClientState)
    ensures r.activeList == Some(key)
    ensures r.todoLists == s.todoLists && r.error == s.error
    ensures ShowsForm(r) <==> key in s.todoLists
  {
    s.(activeList := Some(key))
  }

  /** Closing the error banner clears the message. */
  function DismissError(s: ClientState): (r: ClientState)
    ensures r.todoLists == s.todoLists && r.activeList == s.activeList && r.error == None
    ensures Render(r).Page? ==> Render(r).banner == None
  {
    s.(error := None)
  }

  /** One side-bar entry: the list's title, whether it shows as completed, whether it is active. */
  datatype Entry = Entry(title: string, completed: bool, active: bool)

  /** What the view draws: nothing at all, or the side bar, maybe the form, maybe the banner. */
  datatype View = Blank | Page(sidebar: map<string, Entry>, form: Option<TodoList>, banner: Option<string>)

  function Render(s: ClientState): (v: View)
    ensures v == Blank <==> |s.todoLists| == 0
    ensures v.Page? ==>
      && v.sidebar.Keys == s.todoLists.Keys
      && (forall k :: k in v.sidebar ==>
            v.sidebar[k].title == s.todoLists[k].title
            && (v.sidebar[k].completed <==> IsCompleted(s.todoLists[k]))
            && (v.sidebar[k].active <==> s.activeList == Some(k)))
      && (v.form.Some? <==> ShowsForm(s))
      && (v.form.Some? ==> v.form.value == s.todoLists[s.activeList.value])
      && (v.banner.Some? <==> s.error.Some? && s.error.value != "")
      && (v.banner.Some? ==> v.banner == s.error)
  {
    if |s.todoLists| == 0 then Blank
    else
      var sidebar := map k | k in s.todoLists ::
        Entry(s.todoLists[k].title, IsCompleted(s.todoLists[k]), s.activeList == Some(k));
      var form := if ShowsForm(s) then Some(s.todoLists[s.activeList.value]) else None;
      var banner := if s.error.Some? && s.error.value != "" then s.error else None;
      Page(sidebar, form, banner)
  }

  /** An empty list is never shown as completed. */
  lemma EmptyNeverCompleted(list: TodoList)
    requires list.todos == []
    ensures !IsCompleted(list)
  {
  }

  /** Toggling twice at the same index restores the original items, for any index. */
  lemma MapAtToggleTwice(todos: seq<TodoItem>, index: int)
    ensures MapAt(MapAt(todos, index, Toggle), index, Toggle) == todos
  {
  }

  /** Toggling the same item twice gives back exactly the lists the view started with. */
  lemma {:induction false} ToggleTwiceRestores(s: ClientState, index: int)
    requires ShowsForm(s)
    ensures ToggleTodoCompletion(ToggleTodoCompletion(s, index).next, index).next == s
  {
    var a := s.activeList.value;
    MapAtToggleTwice(s.todoLists[a].todos, index);
    var s2 := ToggleTodoCompletion(ToggleTodoCompletion(s, index).next, index).next;
    assert s2.todoLists[a] == s.todoLists[a];
    assert s2.todoLists == s.todoLists;
  }

  /** Toggling an item of a completed list makes it uncompleted. */
  lemma ToggleUncompletes(s: ClientState, index: int)
    requires ShowsForm(s) && IsCompleted(s.todoLists[s.activeList.value])
    requires 0 <= index < |s.todoLists[s.activeList.value].todos|
    ensures !IsCompleted(ToggleTodoCompletion(s, index).next.todoLists[s.activeList.value])
  {
  }

  /** Toggling the one open item of a list makes the list completed. */
  lemma ToggleLastOpenCompletes(s: ClientState, index: int)
    requires ShowsForm(s)
    requires var todos := s.todoLists[s.activeList.value].todos;
      0 <= index < |todos| && !todos[index].completed
      && forall j :: 0 <= j < |todos| && j != index ==> todos[j].completed
    ensures IsCompleted(ToggleTodoCompletion(s, index).next.todoLists[s.activeList.value])
  {
  }
}
