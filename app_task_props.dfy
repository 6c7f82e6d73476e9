/** What the logic task's loop promises, stated over the specification `Step` of
    src/app.rs:397-491. */
module AppTaskProperties {
  import opened Protocol
  import opened AppTaskModel

  /** The number of renders a turn (or a run of turns) performed. */
  function Renders<V, S>(before: TaskState<V, S>, after: TaskState<V, S>): int {
    |after.responses| - |before.responses|
  }

  /** A render request: without `delay`, or with nothing pending, the task renders at
      once and drops the deadline; otherwise it renders nothing, arms the deadline and
      moves to `Delayed`, keeping its view, state and pending set. */
  lemma RenderRequestRule<V, S>(s: TaskState<V, S>, delay: bool, env: Env<V, S>)
    requires s.status == Running
    ensures var r := Step(s, Received(Render(delay)), env);
      (Renders(s, r) == 1 <==> !delay || s.pending == {}) &&
      ((!delay || s.pending == {}) ==>
         !r.deadline && r.ui == Start &&
         r.responses[|s.responses|] == RenderResponse(s.view, env.nextView, s.state)) &&
      ((delay && s.pending != {}) ==>
         Renders(s, r) == 0 && r.deadline && r.ui == Delayed &&
         r.pending == s.pending && r.view == s.view && r.state == s.state)
  {
  }

  /** The elapsed deadline renders whatever is still pending, and clears the deadline. */
  lemma DeadlineRendersUnconditionally<V, S>(s: TaskState<V, S>, env: Env<V, S>)
    requires s.status == Running && s.deadline
    ensures var r := Step(s, DeadlineElapsed, env);
      Renders(s, r) == 1 && !r.deadline && r.ui == Start && r.status == Running
  {
  }

  /** A completion that asks for a rebuild wakes the UI thread only from `Start`:
      exactly one `Event::Wake` is sent then and the state becomes `WokeUI`; from
      `Delayed` or `WokeUI` nothing is sent and the state is kept. */
  lemma WakeWakesUiOnlyFromStart<V, S>(s: TaskState<V, S>, path: IdPath, env: Env<V, S>)
    requires s.status == Running && s.view.Some? && s.state.Some? && path != []
    requires env.rebuildRequested && env.eventChannelOpen
    ensures var r := Step(s, Received(Wake(path)), env);
      (s.ui == Start ==> r.ui == WokeUI && r.wakesSent == s.wakesSent + 1 && Renders(s, r) == 0) &&
      (s.ui != Start ==> r.wakesSent == s.wakesSent && (Renders(s, r) == 0 ==> r.ui == s.ui))
  {
  }

  /** A completion that asks for a rebuild removes exactly the addressed identity from
      the pending set (unless that emptied the set and a render replaced it); one that
      asks for none changes neither the pending set nor the UI state, and renders
      nothing. The completion is always routed with the root element stripped. */
  lemma WakePendingBookkeeping<V, S>(s: TaskState<V, S>, path: IdPath, env: Env<V, S>)
    requires s.status == Running && s.view.Some? && s.state.Some? && path != []
    ensures var r := Step(s, Received(Wake(path)), env);
      r.delivered == s.delivered + [Delivery(path[1..], AsyncWake)] &&
      (env.rebuildRequested && r.status == Running && Renders(s, r) == 0 ==>
        r.pending == s.pending - {LastId(path)} &&
        forall id :: id in s.pending && id != LastId(path) ==> id in r.pending) &&
      (env.rebuildRequested && Renders(s, r) == 1 ==>
        s.pending - {LastId(path)} == {} && s.ui == Delayed) &&
      (!env.rebuildRequested ==>
        r.pending == s.pending && r.ui == s.ui && Renders(s, r) == 0 && r.wakesSent == s.wakesSent)
  {
  }

  /** While a render is delayed, the completion that empties the pending set renders
      exactly once and clears the deadline; the state it hands out is the one the
      completion left behind. */
  lemma LastCompletionRendersDelayed<V, S>(s: TaskState<V, S>, path: IdPath, env: Env<V, S>)
    requires s.status == Running && s.view.Some? && s.state.Some? && path != []
    requires Consistent(s) && s.ui == Delayed && env.rebuildRequested
    requires s.pending - {LastId(path)} == {}
    ensures var r := Step(s, Received(Wake(path)), env);
      Renders(s, r) == 1 && !r.deadline && r.ui == Start && r.wakesSent == s.wakesSent &&
      r.responses[|s.responses|] ==
        RenderResponse(s.view, env.nextView, Some(env.stateAfter(|s.delivered|, Delivery(path[1..], AsyncWake), s.state.value)))
  {
  }

  /** A message batch only routes messages: no render, no change to the UI state, the
      deadline, the pending set or the view; the view state is what handling the
      routed messages in order made of it. */
  lemma EventsOnlyRoute<V, S>(s: TaskState<V, S>, events: seq<Message>, env: Env<V, S>)
    requires s.status == Running
    ensures var r := Step(s, Received(Events(events)), env);
      Renders(s, r) == 0 && r.ui == s.ui && r.deadline == s.deadline && r.pending == s.pending &&
      r.view == s.view &&
      (s.view.Some? && s.state.Some? && (forall k :: 0 <= k < |events| ==> events[k].idPath != []) ==>
        r.status == Running && |r.delivered| == |s.delivered| + |events| &&
        r.state == Some(Apply(env.stateAfter, s.state.value, |s.delivered|, r.delivered[|s.delivered|..])) &&
        forall k :: 0 <= k < |events| ==> r.delivered[|s.delivered| + k] == Route(events[k]))
  {
  }

  /** Once the loop has stopped, no later turn changes anything. */
  lemma {:induction false} StoppedTaskStaysStopped<V, S>(s: TaskState<V, S>, steps: seq<(Request, Env<V, S>)>)
    requires s.status != Running
    ensures Run(s, steps) == s
    decreases |steps|
  {
    if steps != [] {
      StoppedTaskStaysStopped(Step(s, steps[0].0, steps[0].1), steps[1..]);
    }
  }

  /** The first render request renders at once, whether or not it may be delayed,
      because nothing is pending yet. */
  lemma FirstRenderIsImmediate<V, S>(delay: bool, env: Env<V, S>)
    ensures var s := Initial<V, S>(); var r := Step(s, Received(Render(delay)), env);
      Renders(s, r) == 1 && r.responses[0] == RenderResponse(None, env.nextView, None)
  {
  }

  /** The two-pass handshake of the UI thread: when the first pass hands back a
      non-empty pending set, the second pass (`Render(true)`) is held back. */
  lemma HandshakeDefersSecondPass<V, S>(s: TaskState<V, S>, first: Env<V, S>, second: Env<V, S>)
    requires s.status == Running
    requires first.reply.Some? && first.reply.value.pending != {}
    ensures var s1 := Step(s, Received(Render(false)), first);
      var s2 := Step(s1, Received(Render(true)), second);
      Renders(s, s1) == 1 && Renders(s1, s2) == 0 && s2.ui == Delayed && s2.deadline &&
      s2.pending == first.reply.value.pending
  {
  }

  /** A completion that arrives after the deadline has fired is not folded into the
      render the deadline caused: it wakes the UI thread, whose render request
      produces a second, separate render. */
  lemma LateCompletionRendersSeparately<V, S>(
    s: TaskState<V, S>, path: IdPath, fired: Env<V, S>, woken: Env<V, S>, again: Env<V, S>)
    requires s.status == Running && s.deadline
    requires fired.reply.Some? && path != []
    requires woken.rebuildRequested && woken.eventChannelOpen
    ensures var s1 := Step(s, DeadlineElapsed, fired);
      var s2 := Step(s1, Received(Wake(path)), woken);
      var s3 := Step(s2, Received(Render(false)), again);
      Renders(s, s1) == 1 && Renders(s1, s2) == 0 && s2.ui == WokeUI && s2.wakesSent == s.wakesSent + 1 &&
      Renders(s2, s3) == 1 && s3.ui == Start && !s3.deadline
  {
  }

  // The debounce scenario: completions for distinct pending identities.

  /** A turn that delivers an asynchronous completion asking for a rebuild. */
  predicate IsCompletion<V, S>(step: (Request, Env<V, S>)) {
    step.0.Received? && step.0.msg.Wake? && step.0.msg.idPath != [] && step.1.rebuildRequested
  }

  function CompletionId<V, S>(step: (Request, Env<V, S>)): Id
    requires IsCompletion(step)
  {
    LastId(step.0.msg.idPath)
  }

  ghost predicate AllCompletions<V, S>(steps: seq<(Request, Env<V, S>)>) {
    forall i :: 0 <= i < |steps| ==> IsCompletion(steps[i])
  }

  /** The identities a run of completions addresses. */
  ghost function CompletedIds<V, S>(steps: seq<(Request, Env<V, S>)>): set<Id>
    requires AllCompletions(steps)
    decreases |steps|
  {
    if steps == [] then {} else {CompletionId(steps[0])} + CompletedIds(steps[1..])
  }

  ghost predicate DistinctIds<V, S>(steps: seq<(Request, Env<V, S>)>)
    requires AllCompletions(steps)
  {
    forall i, j :: 0 <= i < j < |steps| ==> CompletionId(steps[i]) != CompletionId(steps[j])
  }

  lemma {:induction false} CompletedIdsAreAddressed<V, S>(steps: seq<(Request, Env<V, S>)>, id: Id)
    requires AllCompletions(steps)
    ensures id in CompletedIds(steps) ==> exists i :: 0 <= i < |steps| && CompletionId(steps[i]) == id
    decreases |steps|
  {
    if steps != [] && id in CompletedIds(steps) && id != CompletionId(steps[0]) {
      CompletedIdsAreAddressed(steps[1..], id);
      var i :| 0 <= i < |steps[1..]| && CompletionId(steps[1..][i]) == id;
      assert steps[1..][i] == steps[i + 1];
    }
  }

  /** Completions for distinct identities that together are everything pending, all
      arriving while a render is delayed, produce exactly one render, at the last of
      them; it hands out the view that was current when the delay began, and no
      `Event::Wake` is sent. */
  lemma {:induction false} DebounceCoalescesCompletions<V, S>(s: TaskState<V, S>, steps: seq<(Request, Env<V, S>)>)
    requires s.status == Running && Consistent(s) && s.ui == Delayed
    requires s.view.Some? && s.state.Some?
    requires steps != [] && AllCompletions(steps) && DistinctIds(steps)
    requires s.pending == CompletedIds(steps)
    ensures var r := Run(s, steps);
      Renders(s, r) == 1 && r.responses[|s.responses|].prev == s.view &&
      r.ui == Start && !r.deadline && r.wakesSent == s.wakesSent && r.status == Running
    decreases |steps|
  {
    var s1 := Step(s, steps[0].0, steps[0].1);
    var rest := steps[1..];
    assert AllCompletions(rest) by {
      forall i | 0 <= i < |rest| ensures IsCompletion(rest[i]) { assert rest[i] == steps[i + 1]; }
    }
    assert CompletionId(steps[0]) !in CompletedIds(rest) by {
      CompletedIdsAreAddressed(rest, CompletionId(steps[0]));
    }
    assert s.pending - {CompletionId(steps[0])} == CompletedIds(rest);
    if rest == [] {
      assert Run(s, steps) == Run(s1, rest);
    } else {
      assert DistinctIds(rest) by {
        forall i, j | 0 <= i < j < |rest| ensures CompletionId(rest[i]) != CompletionId(rest[j]) {
          assert rest[i] == steps[i + 1] && rest[j] == steps[j + 1];
        }
      }
      assert CompletionId(rest[0]) in CompletedIds(rest);
      assert s1.pending == CompletedIds(rest);
      assert s1 == s.(delivered := s1.delivered, pending := s1.pending, state := s1.state) && s1.state.Some?;
      DebounceCoalescesCompletions(s1, rest);
      assert Run(s, steps) == Run(s1, rest);
    }
  }
}
