/**
 * Round trips between the view and the store: a request made by the view, the handler it
 * reaches, and the view's handling of the reply. These lemmas say when the view's copy of
 * a list agrees with the server's afterwards.
 */
module Reconcile {
  import opened TodoTypes
  import opened ListStore
  import opened SyncController

  /**
   * The message the client wrapper builds for a reply that is not ok: the server's 404
   * bodies are plain text, not JSON, so the default "Error <status>: <status text>" is kept.
   */
  const NOT_FOUND_MESSAGE := "Error 404: Not Found"

  /**
   * How the client wrapper turns a store reply into what the view awaits: a 2xx reply
   * yields the list it carries, a 404 yields an error result.
   */
  function Transport(r: Reply): (o: ApiOutcome<TodoList>)
    requires WellFormedReply(r)
    ensures o.Payload? <==> r.status == OK || r.status == CREATED
    ensures o.Payload? ==> r.body == ListBody(o.value)
    ensures !o.Payload? ==> o == ErrorResult(NOT_FOUND_MESSAGE)
  {
    if r.body.ListBody? then Payload(r.body.list) else ErrorResult(NOT_FOUND_MESSAGE)
  }

  /** The view's copy of the active list is the server's. */
  predicate InSync(s: ClientState, t: Lists)
  {
    ShowsForm(s) && s.activeList.value in t && t[s.activeList.value] == s.todoLists[s.activeList.value]
  }

  /**
   * A toggle whose save succeeds leaves the server's list equal to the view's optimistic
   * copy, and the reply changes nothing in the view.
   */
  lemma ToggleRoundTrip(s: ClientState, t: Lists, index: int)
    requires InSync(s, t)
    ensures var st := ToggleTodoCompletion(s, index);
      var o := Replace(t, st.request.listId, st.request.todos);
      && InSync(st.next, o.table)
      && SaveReply(st.next, Transport(o.reply)) == st.next
  {
  }

  /**
   * A toggle on a list the server does not know: the server answers 404, the view keeps
   * its optimistic copy and only shows the message.
   */
  lemma ToggleOnUnknownListKeepsLocalCopy(s: ClientState, t: Lists, index: int)
    requires ShowsForm(s) && s.activeList.value !in t
    ensures var st := ToggleTodoCompletion(s, index);
      var o := Replace(t, st.request.listId, st.request.todos);
      && o.table == t
      && SaveReply(st.next, Transport(o.reply)) == st.next.(error := Some(NOT_FOUND_MESSAGE))
  {
  }

  /** Adding to a list in sync: both copies end with the old items and one empty, open item. */
  lemma AddRoundTrip(s: ClientState, t: Lists)
    requires InSync(s, t)
    ensures var a, req := s.activeList.value, AddTodoRequest(s);
      var o := Append(t, req.listId, req.todo);
      var r := HandleUpdatedListApiResponse(s, req.listId, Transport(o.reply));
      && InSync(r, o.table)
      && r.todoLists[a].todos == s.todoLists[a].todos + [TodoItem("", false)]
      && r.todoLists.Keys == s.todoLists.Keys
      && (forall k :: k in s.todoLists && k != a ==> r.todoLists[k] == s.todoLists[k])
      && r.error == s.error
  {
  }

  /** Deleting an item that exists: both copies lose exactly that item, the rest in order. */
  lemma DeleteRoundTrip(s: ClientState, t: Lists, index: int)
    requires InSync(s, t)
    requires 0 <= index < |s.todoLists[s.activeList.value].todos|
    ensures var a, req := s.activeList.value, DeleteTodoRequest(s, index);
      var o := RemoveAt(t, req.listId, Some(req.index));
      var r := HandleUpdatedListApiResponse(s, req.listId, Transport(o.reply));
      && InSync(r, o.table)
      && r.todoLists[a].todos == s.todoLists[a].todos[..index] + s.todoLists[a].todos[index + 1..]
      && r.error == s.error
  {
  }

  /** Deleting past the end: the server answers 404 and the view only shows the message. */
  lemma DeletePastEndOnlySetsError(s: ClientState, t: Lists, index: int)
    requires InSync(s, t)
    requires index >= |s.todoLists[s.activeList.value].todos|
    ensures var req := DeleteTodoRequest(s, index);
      var o := RemoveAt(t, req.listId, Some(req.index));
      && o.table == t
      && HandleUpdatedListApiResponse(s, req.listId, Transport(o.reply)) == s.(error := Some(NOT_FOUND_MESSAGE))
  {
  }

  /**
   * Loading the server's starting table shows both lists, neither as completed, and the
   * form exactly when the remembered id is one of them.
   */
  lemma LoadSeed(remembered: Option<string>)
    ensures var v := Render(Load(Initial(remembered), Payload(Seed())));
      && v.Page?
      && v.sidebar.Keys == {FIRST_ID, SECOND_ID}
      && (forall k :: k in v.sidebar ==> !v.sidebar[k].completed)
      && (v.form.Some? <==> remembered == Some(FIRST_ID) || remembered == Some(SECOND_ID))
  {
  }
}
