/** The logic task of src/app.rs (`AppTask::run` and `AppTask::render`).

    `Step` is the specification of one turn of the task's loop, as a function of the
    task's state, the request that arrived and the answers of the collaborators the
    task cannot see (`Env`). The class `AppTask` holds the same state in fields and
    its methods update them in place; each is proved to agree with `Step`. */
module AppTaskModel {
  import opened Protocol

  /** Why the task is holding back, or has woken, the UI thread. */
  datatype UiState = Start | Delayed | WokeUI

  /** Whether the task's loop is still running. A panic inside the spawned task ends
      that task only, so it is a way of stopping like any other. */
  datatype Status = Running | Exited | Panicked

  /** What the loop's `select` returns: a request, the closed channel, or the
      elapsed debounce deadline. */
  datatype Request = Received(msg: AppMessage) | ChannelClosed | DeadlineElapsed

  /** Answers of the collaborators during one turn:
      - `stateAfter`: the view state `View::message` leaves behind when it handles the
        delivery at a given position of the delivery log in a given view state (it
        receives the state, and the application data, by mutable reference; keying
        the answer by position lets it depend on everything handled before);
      - `rebuildRequested`: whether `View::message` answered a wake with `RequestRebuild`;
      - `eventChannelOpen`: whether sending `Event::Wake` to the UI thread succeeds;
      - `nextView`: the view the application logic produces when the task renders;
      - `reply`: what the UI thread hands back after a render (`None`: channel closed). */
  datatype Env<V, !S> = Env(
    stateAfter: (nat, Delivery, S) -> S,
    rebuildRequested: bool,
    eventChannelOpen: bool,
    nextView: V,
    reply: Option<Reply<V, S>>)

  /** The task's state plus the logs of what it has done:
      `delivered` the calls of `View::message`, `responses` the render responses
      handed out, `wakesSent` the number of `Event::Wake` sent to the UI thread.
      `deadline` is the loop's local debounce deadline (armed or not). */
  datatype TaskState<V, S> = TaskState(
    view: Option<V>,
    state: Option<S>,
    pending: set<Id>,
    ui: UiState,
    deadline: bool,
    status: Status,
    delivered: seq<Delivery>,
    responses: seq<RenderResponse<V, S>>,
    wakesSent: nat)

  /** The state the task starts in. */
  function Initial<V, S>(): (s: TaskState<V, S>)
    ensures Consistent(s) && s.status == Running
    ensures s.ui == Start && s.view.None? && s.state.None? && s.pending == {} && !s.deadline
    ensures s.delivered == [] && s.responses == [] && s.wakesSent == 0
  {
    TaskState(None, None, {}, Start, false, Running, [], [], 0)
  }

  /** A deadline is armed exactly while the task is delaying a render. */
  ghost predicate Consistent<V, S>(s: TaskState<V, S>) {
    s.deadline <==> s.ui == Delayed
  }

  /** A request reaches the loop only while it runs, and the deadline can elapse
      only when one is armed. */
  predicate CanOccur<V, S>(s: TaskState<V, S>, req: Request) {
    s.status == Running && (req.DeadlineElapsed? ==> s.deadline)
  }

  /** The call of `View::message` a message turns into: its path loses the root element. */
  function Route(m: Message): (d: Delivery)
    requires |m.idPath| > 0
    ensures |d.path| + 1 == |m.idPath| && d.body == User(m.body)
    ensures forall k :: 0 <= k < |d.path| ==> d.path[k] == m.idPath[k + 1]
  {
    Delivery(m.idPath[1..], User(m.body))
  }

  /** The view state after `View::message` has handled each delivery of `ds` in turn,
      starting from `st`, the first of them at log position `at`. */
  function Apply<S>(stateAfter: (nat, Delivery, S) -> S, st: S, at: nat, ds: seq<Delivery>): S
    decreases |ds|
  {
    if ds == [] then st else Apply(stateAfter, stateAfter(at, ds[0], st), at + 1, ds[1..])
  }

  /** `AppTask::render`: hand out the previous view and state together with the new
      view, then install what the UI thread hands back, and return to `Start`. */
  function RenderStep<V, S>(s: TaskState<V, S>, env: Env<V, S>): (r: TaskState<V, S>)
    ensures |r.responses| == |s.responses| + 1 && r.responses[..|s.responses|] == s.responses
    ensures r.responses[|s.responses|] == RenderResponse(s.view, env.nextView, s.state)
    ensures r.ui == Start
    ensures env.reply.Some? ==>
      r.view == Some(env.reply.value.view) && r.state == Some(env.reply.value.state) &&
      r.pending == env.reply.value.pending
    ensures env.reply.None? ==> r.view.None? && r.state.None? && r.pending == s.pending
    ensures r.deadline == s.deadline && r.status == s.status
    ensures r.delivered == s.delivered && r.wakesSent == s.wakesSent
  {
    var handedOut := s.(view := None, state := None,
                        responses := s.responses + [RenderResponse(s.view, env.nextView, s.state)]);
    var installed :=
      match env.reply
      case Some(rep) => handedOut.(view := Some(rep.view), state := Some(rep.state), pending := rep.pending)
      case None => handedOut;
    installed.(ui := Start)
  }

  /** The `Events` branch: every message is routed to the root view in order, and
      each call of `View::message` updates the view state in place; the task panics
      at the first message whose path is empty, or when there is no view or state to
      route it to. */
  function DeliverAll<V, S>(s: TaskState<V, S>, events: seq<Message>, stateAfter: (nat, Delivery, S) -> S): (r: TaskState<V, S>)
    requires s.status == Running
    ensures r.status == Running || r.status == Panicked
    ensures r.status == Panicked <==>
      events != [] && (s.view.None? || s.state.None? || exists k :: 0 <= k < |events| && events[k].idPath == [])
    ensures r.status == Running ==>
      |r.delivered| == |s.delivered| + |events| && r.delivered[..|s.delivered|] == s.delivered &&
      forall k :: 0 <= k < |events| ==> |events[k].idPath| > 0 && r.delivered[|s.delivered| + k] == Route(events[k])
    ensures r.status == Running && s.state.Some? ==>
      r.state == Some(Apply(stateAfter, s.state.value, |s.delivered|, r.delivered[|s.delivered|..]))
    ensures |s.delivered| <= |r.delivered| && r.delivered[..|s.delivered|] == s.delivered
    ensures r.state.Some? == s.state.Some?
    ensures r.(delivered := s.delivered, status := s.status, state := s.state) == s
    decreases |events|
  {
    if events == [] then s
    else if events[0].idPath == [] || s.view.None? || s.state.None? then s.(status := Panicked)
    else
      var d := Route(events[0]);
      var r := DeliverAll(s.(delivered := s.delivered + [d], state := Some(stateAfter(|s.delivered|, d, s.state.value))),
                          events[1..], stateAfter);
      assert forall k :: 1 <= k < |events| ==> events[k] == events[1..][k - 1];
      assert r.status == Running ==> r.delivered[|s.delivered|..] == [d] + r.delivered[|s.delivered| + 1..] by {
        if r.status == Running {
          var n := |s.delivered|;
          assert |r.delivered| >= n + 1;
          assert r.delivered[n] == (s.delivered + [d])[n];
          assert forall i :: 0 <= i < |r.delivered| - n ==> r.delivered[n..][i] == ([d] + r.delivered[n + 1..])[i];
        }
      }
      r
  }

  /** The `Wake` branch: the completion is routed to the root view like a message;
      when the view asks for a rebuild, the UI thread is woken from `Start`, the
      addressed identity leaves the pending set, and the task renders if that
      emptied the set while a render was delayed. */
  function WakeStep<V, S>(s: TaskState<V, S>, path: IdPath, env: Env<V, S>): (r: TaskState<V, S>)
    requires s.status == Running
    ensures r.status == Panicked <==> path == [] || s.view.None? || s.state.None?
    ensures r.status == Exited <==>
      path != [] && s.view.Some? && s.state.Some? && env.rebuildRequested && s.ui == Start && !env.eventChannelOpen
    ensures r.status != Panicked ==>
      path != [] && s.state.Some? && r.delivered == s.delivered + [Delivery(path[1..], AsyncWake)]
    ensures r.status != Panicked && |r.responses| == |s.responses| ==>
      r.view == s.view && r.state == Some(env.stateAfter(|s.delivered|, Delivery(path[1..], AsyncWake), s.state.value))
    ensures |r.responses| != |s.responses| ==>
      path != [] && s.state.Some? && |r.responses| == |s.responses| + 1 &&
      r.responses[|s.responses|] ==
        RenderResponse(s.view, env.nextView, Some(env.stateAfter(|s.delivered|, Delivery(path[1..], AsyncWake), s.state.value)))
  {
    if path == [] || s.view.None? || s.state.None? then s.(status := Panicked)
    else
      var d := Delivery(path[1..], AsyncWake);
      var routed := s.(delivered := s.delivered + [d], state := Some(env.stateAfter(|s.delivered|, d, s.state.value)));
      if !env.rebuildRequested then routed
      else if routed.ui == Start && !env.eventChannelOpen then routed.(ui := WokeUI, status := Exited)
      else
        var woken := if routed.ui == Start then routed.(ui := WokeUI, wakesSent := routed.wakesSent + 1) else routed;
        var removed := woken.(pending := woken.pending - {LastId(path)});
        if removed.pending == {} && removed.ui == Delayed then RenderStep(removed, env).(deadline := false)
        else removed
  }

  /** One turn of `AppTask::run`'s loop. A request that cannot reach the loop leaves
      the state as it is. */
  function Step<V, S>(s: TaskState<V, S>, req: Request, env: Env<V, S>): (r: TaskState<V, S>)
    ensures Consistent(s) ==> Consistent(r)
    ensures s.status != Running ==> r == s
    ensures |s.responses| <= |r.responses| <= |s.responses| + 1
    ensures r.responses[..|s.responses|] == s.responses
    ensures r.wakesSent <= s.wakesSent + 1
  {
    if !CanOccur(s, req) then s
    else
      match req
      case ChannelClosed => s.(status := Exited)
      case DeadlineElapsed => RenderStep(s, env).(deadline := false)
      case Received(msg) =>
        match msg
        case Events(events) => DeliverAll(s, events, env.stateAfter)
        case Wake(path) => WakeStep(s, path, env)
        case Render(delay) =>
          if !delay || s.pending == {} then RenderStep(s, env).(deadline := false)
          else s.(deadline := true, ui := Delayed)
  }

  /** Several turns of the loop, one per (request, answers) pair. */
  function Run<V, S>(s: TaskState<V, S>, steps: seq<(Request, Env<V, S>)>): (r: TaskState<V, S>)
    ensures Consistent(s) ==> Consistent(r)
    ensures |s.responses| <= |r.responses| && r.responses[..|s.responses|] == s.responses
    decreases |steps|
  {
    if steps == [] then s else Run(Step(s, steps[0].0, steps[0].1), steps[1..])
  }

  /** The logic task, with the fields `AppTask` updates in place. The loop's local
      deadline is the field `deadlineArmed`. */
  class AppTask<V, S> {
    var view: Option<V>
    var state: Option<S>
    var pendingAsync: set<Id>
    var uiState: UiState
    var deadlineArmed: bool
    var status: Status
    var delivered: seq<Delivery>
    var responses: seq<RenderResponse<V, S>>
    var wakesSent: nat

    /** The fields as a value of the specification's state type. */
    function Snapshot(): TaskState<V, S>
      reads this
    {
      TaskState(view, state, pendingAsync, uiState, deadlineArmed, status, delivered, responses, wakesSent)
    }

    ghost predicate Valid()
      reads this
    {
      Consistent(Snapshot())
    }

    constructor ()
      ensures Valid() && Snapshot() == Initial()
    {
      view, state, pendingAsync := None, None, {};
      uiState, deadlineArmed, status := Start, false, Running;
      delivered, responses, wakesSent := [], [], 0;
    }

    /** `AppTask::render`. */
    method Render(env: Env<V, S>)
      modifies this
      ensures Snapshot() == RenderStep(old(Snapshot()), env)
    {
      var prev := view;
      var taken := state;
      view, state := None, None;
      responses := responses + [RenderResponse(prev, env.nextView, taken)];
      match env.reply {
        case Some(rep) =>
          view, state, pendingAsync := Some(rep.view), Some(rep.state), rep.pending;
        case None =>
      }
      uiState := Start;
    }

    /** The `Events` branch of the loop. */
    method DeliverEvents(events: seq<Message>, stateAfter: (nat, Delivery, S) -> S)
      requires status == Running
      modifies this
      ensures Snapshot() == DeliverAll(old(Snapshot()), events, stateAfter)
    {
      var i := 0;
      while i < |events|
        invariant 0 <= i <= |events| && status == Running
        invariant DeliverAll(Snapshot(), events[i..], stateAfter) == DeliverAll(old(Snapshot()), events, stateAfter)
      {
        var event := events[i];
        if event.idPath == [] || view.None? || state.None? {
          status := Panicked;
          return;
        }
        var d := Delivery(event.idPath[1..], User(event.body));
        state := Some(stateAfter(|delivered|, d, state.value));
        delivered := delivered + [d];
        i := i + 1;
      }
    }

    /** The `Wake` branch of the loop. */
    method HandleWake(path: IdPath, env: Env<V, S>)
      requires status == Running
      modifies this
      ensures Snapshot() == WakeStep(old(Snapshot()), path, env)
    {
      if path == [] || view.None? || state.None? {
        status := Panicked;
        return;
      }
      var d := Delivery(path[1..], AsyncWake);
      state := Some(env.stateAfter(|delivered|, d, state.value));
      delivered := delivered + [d];
      if env.rebuildRequested {
        if uiState == Start {
          uiState := WokeUI;
          if !env.eventChannelOpen {
            status := Exited;
            return;
          }
          wakesSent := wakesSent + 1;
        }
        pendingAsync := pendingAsync - {path[|path| - 1]};
        if pendingAsync == {} && uiState == Delayed {
          Render(env);
          deadlineArmed := false;
        }
      }
    }

    /** One turn of `AppTask::run`'s loop. */
    method Handle(req: Request, env: Env<V, S>)
      requires Valid() && CanOccur(Snapshot(), req)
      modifies this
      ensures Valid()
      ensures Snapshot() == Step(old(Snapshot()), req, env)
    {
      match req {
        case ChannelClosed =>
          status := Exited;
        case DeadlineElapsed =>
          Render(env);
          deadlineArmed := false;
        case Received(msg) =>
          match msg {
            case Events(events) =>
              DeliverEvents(events, env.stateAfter);
            case Wake(path) =>
              HandleWake(path, env);
            case Render(delay) =>
              if !delay || pendingAsync == {} {
                Render(env);
                deadlineArmed := false;
              } else {
                deadlineArmed := true;
                uiState := Delayed;
              }
          }
      }
    }
  }
}
