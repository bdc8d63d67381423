# Todo lists: the server's list store and the browser's sync controller

The system is a small multi-list todo manager. The server keeps two named lists of todo items
in a process-wide table. It answers four HTTP handlers: read all, append an item, remove the
item at an index, and replace all items of a list. The browser view mirrors that table in local
state. It tracks which list is active and shows the last error message. Its handlers edit an item
of the local copy first and then send the edited items to the server. As the form
component is written, two of them, the text edit and the completion toggle, are never reached
from the page (see "## Left out").

This project models both sides:

- `todo_types.dfy` (module `TodoTypes`) holds the shared values: `TodoItem`, `TodoList` and the table type `Lists`.
- `list_store.dfy` (module `ListStore`) covers the server side. The pure functions `Append`, `RemoveAt` and `Replace` say what each handler does to a table and what it answers. The class `Store` holds the table in a `map` field. Each of its methods is proved to change the table exactly as its function says. Its invariant `Valid()` keeps the key set at the two seeded ids, with every list stored under its own id.
- `sync_controller.dfy` (module `SyncController`) covers the view. It is a record `ClientState(todoLists, activeList, error)` plus one function per handler. A handler that calls the server is split into two parts: the request it sends, and the state change applied when the reply is awaited. `Render` models the render gates and the side bar.
- `reconcile.dfy` (module `Reconcile`) joins the two sides. `Transport` models how the client wrapper turns a store reply into what the view awaits. Its lemmas follow toggle, add and delete through the store and back.

A successful toggle does not replace the local list with the server's record. `toggleTodoCompletion` (frontend/src/todos/components/TodoLists.jsx:56) calls `processApiResponse` without an updater, so the reply never touches the lists. The model follows this in `SaveReply`.

## Model

| member | source | states |
|---|---|---|
| `ListStore.Seed` | backend/src/index.js:11-22 | the starting table has exactly the two seeded ids, each list stored under its own id and empty |
| `ListStore.Append` | backend/src/index.js:30-39 | known id: the list grows by exactly one, the old items are a prefix, the new last item is the one supplied, id and title kept, reply 201 with the updated list; unknown id: 404 and the table unchanged; either way the key set is the same and no other list changes |
| `ListStore.SpliceOut` | backend/src/index.js:46 | removing one element at `i`: length drops by one, items before `i` stay put, items after `i` shift down by one, and the multiset loses exactly `todos[i]` |
| `ListStore.RemoveAt` | backend/src/index.js:42-51 | known id and defined index: that one item is removed with the others' order kept, id and title kept, reply 200 with the updated list; unknown id, NaN, negative or too-large index: 404 and the table unchanged; no other list changes and the key set is the same |
| `ListStore.Replace` | backend/src/index.js:54-63 | known id: the items become exactly the supplied sequence with no merge, id and title kept, reply 200 with the updated list; unknown id: 404 and the table unchanged; no other list changes |
| `ListStore.HandlersKeepShape` | backend/src/index.js:30-63 | every handler answers with a list exactly when its status is 200 or 201 and otherwise 404, and keeps every list under its own id |
| `ListStore.ReplaceThenRead` | backend/src/index.js:57-59 | after a replace, reading the list gives exactly the supplied items, and repeating the same replace changes nothing more |
| `ListStore.RemoveExamples` | backend/src/index.js:44-50 | removing index 1 of three items leaves the outer two in order; index 5 of three items gives 404 and leaves the table as it was |
| `ListStore.Store.constructor` | backend/src/index.js:11-22 | the store starts as the seeded table and satisfies its invariant |
| `ListStore.Store.GetAll` | backend/src/index.js:25-27 | returns the whole table; it modifies nothing, so two reads with no mutation in between agree |
| `ListStore.Store.AppendItem` | backend/src/index.js:30-39 | updates the table in place exactly as `Append` and answers as it does; the key set stays the two seeded ids |
| `ListStore.Store.RemoveItemAt` | backend/src/index.js:42-51 | updates the table in place exactly as `RemoveAt` and answers as it does; the key set stays the two seeded ids |
| `ListStore.Store.ReplaceItems` | backend/src/index.js:54-63 | updates the table in place exactly as `Replace` and answers as it does; the key set stays the two seeded ids |
| `SyncController.Initial` | frontend/src/todos/components/TodoLists.jsx:21-23 | the first state has no lists, the remembered active id and no error, and renders nothing |
| `SyncController.AllCompleted` | frontend/src/todos/components/TodoLists.jsx:130 | the element-by-element `every` holds iff every item is completed |
| `SyncController.MapAt` | frontend/src/todos/components/TodoLists.jsx:76 | the mapped sequence has the same length, the updater's result at `index` and the same item everywhere else |
| `SyncController.UpdateTodoAtIndex` | frontend/src/todos/components/TodoLists.jsx:74-85 | same length; the item at `index` becomes `f` of the old one and every other item is identical; an out-of-range index changes nothing; only the active list's items change, with its id and title, the other lists, the active id and the error kept |
| `SyncController.UpdateTodoText` | frontend/src/todos/components/TodoLists.jsx:46-49 | the item at `index` gets the new text and keeps its completed flag, no other item changes; the key set, the other lists, the active list's id and title and the message stay the same; the updated items of the active list are what is handed to the delayed save |
| `SyncController.ToggleTodoCompletion` | frontend/src/todos/components/TodoLists.jsx:51-57 | the item at `index` has its flag flipped and its text kept, no other item or list changes, and the save request carries exactly the updated items of the active list |
| `SyncController.ShowsForm` | frontend/src/todos/components/TodoLists.jsx:164 | the form gate: it holds only when an active id is set and is a key of the local lists, so the lists are non-empty and the page itself renders |
| `SyncController.IsCompleted` | frontend/src/todos/components/TodoLists.jsx:129-130 | a list counts as completed iff it has at least one item and every item is completed |
| `SyncController.WithText` | frontend/src/todos/components/TodoLists.jsx:47 | the text updater gives the item the new text and keeps its completed flag |
| `SyncController.Toggle` | frontend/src/todos/components/TodoLists.jsx:52-55 | the toggle updater flips the completed flag and keeps the text, so the item always changes |
| `SyncController.AddTodoRequest` | frontend/src/todos/components/TodoLists.jsx:59-62 | the add handler sends an append of an empty, uncompleted item to the active list |
| `SyncController.DeleteTodoRequest` | frontend/src/todos/components/TodoLists.jsx:64-66 | the delete handler sends a removal of the given index from the active list |
| `SyncController.KeepLists` | frontend/src/todos/components/TodoLists.jsx:107 | the default updater leaves the lists exactly as they were |
| `ListStore.Defined` | backend/src/index.js:44-45 | a NaN index, and any index into an empty list, never names an element; a defined index lies within the bounds |
| `SyncController.ProcessApiResponse` | frontend/src/todos/components/TodoLists.jsx:107-118 | an error result or an exception sets the message and leaves the lists alone; a payload runs the updater on the lists and leaves the message alone; the active id never changes |
| `SyncController.Load` | frontend/src/todos/components/TodoLists.jsx:25-30 | a successful fetch makes the local lists the server's table; a failed one leaves them as they were and sets the message |
| `SyncController.SaveReply` | frontend/src/todos/components/TodoLists.jsx:56 | the reply to a save never touches the local lists, whatever the server returns; a failure only sets the message |
| `SyncController.HandleUpdatedListApiResponse` | frontend/src/todos/components/TodoLists.jsx:92-99 | a successful reply overwrites the entry of the id captured when the request was made with the server's list, and every other entry is unchanged; a failure only sets the message |
| `SyncController.SelectList` | frontend/src/todos/components/TodoLists.jsx:134 | selecting a key makes it active and changes nothing else; the form shows iff the key is one of the local lists |
| `SyncController.DismissError` | frontend/src/todos/components/TodoLists.jsx:175-176 | closing the banner sets the message to none, so no banner is rendered; the lists and active id are kept |
| `SyncController.Render` | frontend/src/todos/components/TodoLists.jsx:120-180 | nothing is rendered iff there are no lists; the side bar has one entry per list with its title, its completed mark iff the list is completed and its highlight iff it is active; the form shows exactly when the active id is a key and then shows that list; the banner shows iff the message is set and non-empty, and then it shows that message |
| `SyncController.EmptyNeverCompleted` | frontend/src/todos/components/TodoLists.jsx:129-130 | a list with no items is never shown as completed |
| `SyncController.MapAtToggleTwice` | frontend/src/todos/components/TodoLists.jsx:52-55 | toggling the same index twice gives back the original items, for any index |
| `SyncController.ToggleTwiceRestores` | frontend/src/todos/components/TodoLists.jsx:51-57 | two toggles of the same item give back exactly the starting state |
| `SyncController.ToggleUncompletes` | frontend/src/todos/components/TodoLists.jsx:129-130 | toggling any item of a completed list makes it not completed |
| `SyncController.ToggleLastOpenCompletes` | frontend/src/todos/components/TodoLists.jsx:129-130 | toggling the only open item of a list makes the list completed |
| `Reconcile.Transport` | frontend/src/api/todos-server-calls.js:81-98 | a 2xx reply yields the list it carries as a payload; a 404 yields an error result with the default "Error 404: Not Found" message |
| `Reconcile.ToggleRoundTrip` | frontend/src/todos/components/TodoLists.jsx:51-57 | when the view's copy matches the server's, a toggle and its save leave the two equal, and the reply changes nothing in the view |
| `Reconcile.ToggleOnUnknownListKeepsLocalCopy` | frontend/src/todos/components/TodoLists.jsx:56 | a save to a list the server lacks is answered 404; the optimistic copy is not rolled back and only the message changes |
| `Reconcile.AddRoundTrip` | frontend/src/todos/components/TodoLists.jsx:59-62 | the add handler asks to append an empty, open item to the active list; after the reply, both copies hold the old items plus one empty, open item; other lists and the message are unchanged |
| `Reconcile.DeleteRoundTrip` | frontend/src/todos/components/TodoLists.jsx:64-66 | the delete handler asks to remove the given index of the active list; for an existing index, after the reply both copies hold the old items without that one, in order |
| `Reconcile.DeletePastEndOnlySetsError` | backend/src/index.js:45-50 | deleting past the end leaves the server table unchanged, and in the view only the message changes |
| `Reconcile.LoadSeed` | frontend/src/todos/components/TodoLists.jsx:25-30 | loading the seeded table shows both lists, neither completed, and the form exactly when the remembered id is one of them |

## Left out

- The Express bootstrap, the CORS and JSON middleware, `app.listen` and the HTTP transport (backend/src/index.js:1-9, 65). Status codes are kept as values in `Reply`.
- Prototype keys of the plain JavaScript object. The model's table is a `map` that holds only own keys. On the server, an inherited key such as `constructor` passes the `todoLists[id]` check. POST then throws at `push` (backend/src/index.js:34), and DELETE throws when it indexes `todos` (backend/src/index.js:45). PUT does not throw (backend/src/index.js:57-59). On an inherited key it assigns `todos` to the inherited object and answers 200, where the model answers 404. With `__proto__`, that assignment sets `Object.prototype.todos`, and later POST and DELETE calls on other inherited keys then succeed instead of throwing.
- Items that are not `{text, completed}` values. A POST without `todo` pushes `undefined`, and the server's "element is defined" check then differs from a bounds check. The model has only well-formed items, so `Defined` is a bounds check on the parsed index.
- A PUT body whose `todos` is missing or is not an array. The server stores it as it is and still answers 200 (backend/src/index.js:56-59). When `todos` is then missing, null or a string, a later POST or DELETE on that list throws inside the handler (backend/src/index.js:34, 45), and Express answers 500. When it is a number or a plain object, POST still throws, but DELETE answers 404 because `typeof todos[index]` is `'undefined'`. `Reply` has no 500 outcome, and `Replace` accepts only a sequence of items, so this path is not modelled.
- `parseInt` on the index path segment is not modelled. Its result enters as `Option<int>`, with `None` standing for NaN.
- The lodash debounce timer and how it coalesces calls (frontend/src/todos/components/TodoLists.jsx:38-44). This is a foreign library and its behaviour is timing. `UpdateTodoText` returns the request handed to it. The reply to that save behaves as `SaveReply`.
- `localStorage` persistence of the active id (frontend/src/todos/components/TodoLists.jsx:22, 32-36). The remembered id is a parameter of `Initial`. The JSX markup and styling are left out too, beyond what `Render` records.
- A null active id is an `Option`. JavaScript would look up the key "null", and the model does not reproduce that. The seeded ids never equal "null".
- The fetch wrappers in frontend/src/api/todos-server-calls.js. `Transport` models only what `handleResponse` makes of this server's replies. Network exceptions enter the view as `Thrown`.
- frontend/src/todos/components/TodoListForm.jsx is not part of this model. The view's handlers are modelled directly. As written, the form does not reach two of them. It expects props `updateTodo` and `saveTodoList` (TodoListForm.jsx:6). The view passes `updateTodoText` and `toggleTodoCompletion` instead (TodoLists.jsx:168-169). So typing in an item or pressing Save calls an undefined prop and throws (TodoListForm.jsx:14, 27), and no control calls the toggle. `UpdateTodoText` and `ToggleTodoCompletion` model the handlers as defined, not anything the page can trigger today. Add and delete are wired correctly.
- Render: the side bar is a `map`, so the order in which `Object.keys` lists the entries (TodoLists.jsx:127) is not kept.
- ShowsForm: the client's form gate `todoLists[activeList]` (TodoLists.jsx:164) is also truthy for a prototype key such as "constructor" remembered in localStorage. The model's lists hold only own keys, so the gate is plain map membership.
- Async ordering and concurrent requests are not modelled. Each handler and each reply is one atomic step. Interleavings come only from the order in which a caller applies the steps.
