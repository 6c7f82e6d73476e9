/** Values exchanged between the UI thread (`App`) and the logic task (`AppTask`)
    of src/app.rs. The channels themselves are not modelled: whatever one side sends
    is appended to a log on that side, and whatever it receives is an input. */
module Protocol {

  datatype Option<T> = None | Some(value: T)

  /** A node identity handed out by the view context. */
  type Id = nat

  /** Identities from the root to one node. */
  type IdPath = seq<Id>

  /** The type-erased body of a message (`Box<dyn Any>`); only its identity matters here. */
  type Payload = nat

  /** A message produced by a widget during event dispatch, addressed to the view at `idPath`. */
  datatype Message = Message(idPath: IdPath, body: Payload)

  /** The message argument `View::message` receives: a widget's payload, or the
      synthetic "asynchronous operation completed" marker. */
  datatype Body = User(payload: Payload) | AsyncWake

  /** One call of `View::message` on the root view: the path with the root element
      stripped, and the body. */
  datatype Delivery = Delivery(path: IdPath, body: Body)

  /** Requests the logic task receives on its request channel. */
  datatype AppMessage =
    | Events(events: seq<Message>)
    | Wake(idPath: IdPath)
    | Render(delay: bool)

  /** What the task hands to the UI thread when it renders: the previous view
      (moved out), the freshly produced view, and the view state (moved out). */
  datatype RenderResponse<V, S> = RenderResponse(prev: Option<V>, view: V, state: Option<S>)

  /** What the UI thread hands back after reconciling: the now-current view, its
      state, and the identities that registered pending asynchronous work. */
  datatype Reply<V, S> = Reply(view: V, state: S, pending: set<Id>)

  /** The last identity of a non-empty path: the node the path addresses. */
  function LastId(path: IdPath): (id: Id)
    requires |path| > 0
    ensures id in path
  {
    path[|path| - 1]
  }
}
