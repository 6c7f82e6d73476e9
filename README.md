# trui render coordination, modelled in Dafny

trui is a terminal UI runtime. Its coordination logic lives in `src/app.rs`. Two sides take part:

- The **logic task** (`AppTask`) owns the application data and the current view. It routes messages and asynchronous completions into the view. It decides when a fresh view goes to the UI thread: at once, after a short debounce deadline, or when the last pending asynchronous operation completes.
- The **UI thread** (`App`) owns the terminal and the root widget pod. It batches input notifications and dispatches them into the pod. It forwards the messages that dispatch and the previous frame's passes produced to the task, and then renders. Rendering means one or two render handshakes with the task, a build or rebuild of the root, and gated layout, lifecycle and paint passes.

The request channel into the task and the event channel into the UI thread are deep queues (1000 entries each), and `Wake` requests come from a separate relay thread. Only the render handshake goes over channels of capacity one (the render response and the reply), so only the handshake strictly alternates. The model replaces each channel by a log on the sending side and an input on the receiving side. The deep queues become arbitrary sequences of task requests (`Run`) and batches of UI notifications (`RunCycle`):

- `Protocol` (protocol.dfy) holds the messages they exchange.
- `AppTaskModel` (app_task.dfy) gives the logic task twice:
  - as a specification: `Step`, one turn of its loop, as a function of the state, the request and the answers of the collaborators it cannot see;
  - as a class, `AppTask`, whose methods update the same fields in place and are proved equal to `Step`.
- `AppTaskProperties` (app_task_props.dfy) proves what the loop promises about `Step`. This covers the render-request rule, the deadline, waking the UI thread, pending-set bookkeeping and debouncing.
- `AppModel` (app.dfy) is the UI thread: the class `App` and the pure frame-gating function `PlanFrame`.

Modelling choices:

- A panic inside the spawned logic task ends only that task. The task's panics are therefore a status, `Panicked`. This covers `unwrap` on a missing view or state, and slicing an empty id path.
- A panic on the UI thread ends the program. The UI side's panics are therefore preconditions (`PassAllowed`, `BuiltRoot(..).Some?`). These are the `unwrap`s, the root downcast and the two id-path balance assertions.
- The 5 ms debounce deadline is a boolean. Its expiry is the request `DeadlineElapsed`, which can only arrive while the deadline is armed. The model proves that a deadline is armed exactly while the task is in `Delayed` (`Consistent`).
- The event the task sends to wake the UI thread (`Event::Wake`) is counted in `wakesSent`.

## Model

| member | source | states |
|---|---|---|
| AppTaskModel.Initial | src/app.rs:182-193 | the task starts in `Start` with no view, state, pending ids or deadline, and running |
| AppTaskModel.Route | src/app.rs:410-416 | a message is delivered to the root view with the root element of its path stripped and every other element kept in order |
| AppTaskModel.RenderStep | src/app.rs:475-491 | a render hands out exactly one response carrying the previous view, the new view and the previous state; it installs the returned view, state and pending set, keeps the old pending set if the return channel is closed, and always ends in `Start` |
| AppTaskModel.DeliverAll | src/app.rs:408-418 | a batch routes every message in order; it panics iff the batch is non-empty and the view or state is missing or some path is empty; the view state afterwards is what `View::message` made of it handling the routed messages in order, each at its position in the delivery log; nothing but the delivery log, the view state and the status changes |
| AppTaskModel.WakeStep | src/app.rs:419-449 | a completion panics iff its path is empty or the view or state is missing; the loop breaks off iff a rebuild-requesting completion finds the task in `Start` and the event channel closed; otherwise the completion is routed with the root stripped and the view state is the one `View::message` left, which a render triggered by the completion hands out |
| Protocol.LastId | src/app.rs:441 | the identity a completion addresses is an element of its path (its last) |
| AppTaskModel.Step | src/app.rs:398-473 | one turn keeps "deadline armed iff `Delayed`", renders at most once and sends at most one wake event; a stopped task does not change |
| AppTaskModel.Run | src/app.rs:400-472 | any run of turns keeps "deadline armed iff `Delayed`" and only appends render responses |
| AppTaskModel.AppTask.constructor | src/app.rs:182-193 | the fields start as `Initial` |
| AppTaskModel.AppTask.Render | src/app.rs:475-491 | the in-place render moves view and state out, logs the response, installs the reply and resets `ui_state`, as `RenderStep` says |
| AppTaskModel.AppTask.DeliverEvents | src/app.rs:408-418 | the loop over a batch ends in exactly the state `DeliverAll` gives |
| AppTaskModel.AppTask.HandleWake | src/app.rs:419-449 | the `Wake` branch updates the fields as the specification's wake step says |
| AppTaskModel.AppTask.Handle | src/app.rs:400-471 | one loop turn updates the fields exactly as `Step` and keeps the deadline/`Delayed` invariant |
| AppTaskProperties.RenderRequestRule | src/app.rs:450-463 | `Render(delay)` renders iff `!delay` or nothing is pending, and then clears the deadline; otherwise it renders nothing, arms the deadline, enters `Delayed` and keeps view, state and pending set |
| AppTaskProperties.DeadlineRendersUnconditionally | src/app.rs:466-470 | an elapsed deadline renders even with work pending, clears the deadline and returns to `Start` |
| AppTaskProperties.WakeWakesUiOnlyFromStart | src/app.rs:432-440 | a rebuild-requesting completion sends exactly one wake event and enters `WokeUI` from `Start`; from `Delayed` or `WokeUI` it sends none |
| AppTaskProperties.WakePendingBookkeeping | src/app.rs:419-448 | a rebuild-requesting completion removes exactly the last id of its path and keeps every other pending id; a completion with no rebuild changes neither pending set nor UI state; the completion is routed with the root stripped |
| AppTaskProperties.LastCompletionRendersDelayed | src/app.rs:441-447 | in `Delayed`, the completion that empties the pending set renders exactly once, clears the deadline and sends no wake event; the render hands out the view state as the completion left it |
| AppTaskProperties.EventsOnlyRoute | src/app.rs:408-418 | a message batch never renders and leaves UI state, deadline, pending set and view as they were; a well-formed batch routes every message in order and leaves the view state that handling them in order produced |
| AppTaskProperties.StoppedTaskStaysStopped | src/app.rs:437-439 | once the loop has broken off or panicked, no later request changes anything |
| AppTaskProperties.FirstRenderIsImmediate | src/app.rs:450-454 | the first render request renders at once, delayable or not, handing out no previous view or state |
| AppTaskProperties.HandshakeDefersSecondPass | src/app.rs:225-227 | when the first pass hands back pending ids, the UI thread's second `Render(true)` is held back: the task arms the deadline and enters `Delayed` |
| AppTaskProperties.LateCompletionRendersSeparately | src/app.rs:432-440 | a completion after the deadline fired is not folded into that render; it wakes the UI thread, whose request renders a second time |
| AppTaskProperties.DebounceCoalescesCompletions | src/app.rs:441-447 | completions for distinct ids that make up the whole pending set, arriving while delayed, produce exactly one render, which hands out the view current when the delay began |
| AppModel.PlanFrame | src/app.rs:243-295 | layout runs iff the root asks for layout, its tree changed or the terminal size differs from the stored one; the stored size then equals the terminal size; the lifecycle notice is sent iff the flags after layout (if it ran) hold `VIEW_CONTEXT_CHANGED`; paint runs iff the flags after the earlier passes request it or layout ran; the flags afterwards are those the last pass that ran left; the frame produces exactly the messages of the passes that ran, in pass order; a frame with nothing to do runs no pass and produces nothing |
| AppModel.SettledFrameIsQuiet | src/app.rs:243-251 | after a frame whose passes clear every flag, the next frame at the same size runs nothing |
| AppModel.RootAfter | src/app.rs:305-327 | a response builds the root pod from the built widget (its type and initial flags) if there is none, or else marks the rebuild's changes on it, keeping its widget type; a closed channel leaves it alone |
| AppModel.Returned | src/app.rs:328-332 | a handshake hands back the current view and exactly the ids registered during the pass, or nothing if the channel is closed |
| AppModel.RenderRequests | src/app.rs:225-227 | `render` always sends `Render(false)` first and sends a second `Render(true)` iff the first pass handed back pending ids |
| AppModel.HasQuit | src/app.rs:361 | a batch asks to quit iff one of its notifications is `Quit` |
| AppModel.Batch | src/app.rs:355-359 | a batch is the received notification followed by every waiting one, in arrival order |
| AppModel.App.constructor | src/app.rs:199-212 | the UI thread starts with the default size, no root pod and empty logs |
| AppModel.App.SendEvents | src/app.rs:215-220 | collected messages go to the task as one `Events` batch only if there are any, and the buffer is emptied |
| AppModel.App.BuildWidgetTree | src/app.rs:302-337 | one handshake sends `Render(delay)`, builds or rebuilds the root, hands back the ids registered in a cleared pending set, and returns whether that set is non-empty (false on a closed channel) |
| AppModel.App.Render | src/app.rs:224-297 | the requests are `RenderRequests`, the replies handed back are those of the passes that ran, the root identity is `BuiltId`, the root after the passes is `BuiltRoot`, the frame, stored size and flags are those of `PlanFrame`, and the messages the passes produced are appended to the buffer |
| AppModel.App.RunPasses | src/app.rs:243-295 | the in-place layout, lifecycle and paint passes run exactly the frame `PlanFrame` decides, store its size, leave its flags on the root pod and append the messages it produced |
| AppModel.App.RunCycle | src/app.rs:354-382 | one loop turn dispatches the whole batch in order when a root exists; it sends the buffered and the dispatch-produced messages before the render requests, hands back the replies of the render handshakes, leaves the root identity `BuiltId` gives, renders once with the frame `PlanFrame` gives, leaves only that frame's messages in the buffer, and reports quit iff the batch held `Quit` |

## Left out

- src/view/style.rs is not part of this model. Its style index is never filled and its lookup always returns nothing.
- src/view.rs is not part of this model. Its `ViewExt` methods only copy fields into wrapper views.
- src/widget.rs is not part of this model. It holds only module declarations and re-exports.
- Terminal I/O and logging are not modelled. This covers raw mode, the alternate screen, cursor, autoresize, clear, synchronized update, flush and `setup_logging`. The errors these report through `?` are not modelled either. The terminal size is an input of `App.Render`.
- `App::new` is modelled only by the two constructors. The runtime, the channels, the wake-relay thread, the input-polling thread and its decoding of terminal events are not modelled. A failed send of a render response is only logged by the source; the model records the response as handed out.
- The outer `while let` loop of `App::run` is not modelled as a loop. Each of its turns is `App.RunCycle`, and the loop stops after a turn that reports quit or when the event channel closes.
- The debounce deadline has no duration. It is armed or not, and it elapses only as the `DeadlineElapsed` request.
- `View` and `Widget` implementations are not modelled. Their effects are inputs to the model:
  - the view state `View::message` leaves behind for each delivery (`Env.stateAfter`, keyed by the delivery's position in the log, so it may depend on everything handled before), and whether it asks for a rebuild;
  - what the application logic returns;
  - what `build` and `rebuild` produce and register;
  - the root pod's flags after event dispatch and after each of the layout, lifecycle and paint passes;
  - the messages widgets produce during dispatch and during each of the layout, lifecycle and paint passes.
- The application data that `View::message` changes in place is not tracked as a value. Its effects reach the model through the position-keyed view state `View::message` leaves and through the next view the application logic returns, both inputs.
- Only the four pod flags the render loop reads are modelled. The mapping from a rebuild's change flags to pod flags is part of the input.
- `cursor_pos` is never assigned in src/app.rs. The lifecycle notice it feeds is not modelled beyond whether the notice is sent.
- Sizes are pairs of naturals. The source builds them as `f64` from `u16` cells and only compares them for equality.
