/** Values shared by the list store on the server and the sync controller in the browser. */
module TodoTypes {

  datatype Option<+T> = None | Some(value: T)

  /** One entry of a list. It has no identity of its own: it is addressed by its position. */
  datatype TodoItem = TodoItem(text: string, completed: bool)

  /** A named list; `id` is also the key under which the list is stored. */
  datatype TodoList = TodoList(id: string, title: string, todos: seq<TodoItem>)

  /** The mapping from list id to list, as the server keeps it and as the client mirrors it. */
  type Lists = map<string, TodoList>
}
