/** The UI thread of src/app.rs (`App`): the render handshake with the logic task,
    the reconciliation of the returned view into the root pod, and the frame gating
    that decides which of layout, lifecycle notification and paint run.

    The views, widgets and pods are opaque here: what a build, rebuild, event
    dispatch or pod pass does is an input of the operation that triggers it. */
module AppModel {
  import opened Protocol

  /** Notifications the UI thread receives on its event channel. Key and mouse
      details are opaque. */
  datatype Event =
    | Key(code: nat)
    | Mouse(column: nat, row: nat)
    | FocusGained
    | FocusLost
    | Resize(width: nat, height: nat)
    | Start
    | Wake
    | Quit

  /** The pod flags the render loop reads. */
  datatype PodFlag = RequestLayout | RequestPaint | TreeChanged | ViewContextChanged

  /** The concrete widget type behind a type-erased pod. */
  type WidgetKind = nat

  /** The root pod: its widget's type and its flags. */
  datatype Pod = Pod(kind: WidgetKind, flags: set<PodFlag>)

  /** A terminal size in cells. */
  datatype Size = Size(width: nat, height: nat)

  /** What the root view's build or rebuild did:
      - `id`, `state`: the root identity and view state afterwards;
      - `kind`: the widget type the view builds, which a rebuild downcasts the root to;
      - `initFlags`: the flags a freshly built pod starts with;
      - `changes`: the flags the rebuild's change summary marks on the root pod;
      - `registered`: the identities that registered pending asynchronous work;
      - `balanced`: whether the context's id-path stack is empty afterwards. */
  datatype ViewPass<S> = ViewPass(
    id: Id,
    state: S,
    kind: WidgetKind,
    initFlags: set<PodFlag>,
    changes: set<PodFlag>,
    registered: set<Id>,
    balanced: bool)

  /** One render handshake: the task's response (`None`: the channel is closed) and
      what reconciling it did. */
  datatype Handshake<V, S> = Handshake(response: Option<RenderResponse<V, S>>, pass: ViewPass<S>)

  /** What each pod pass does if it runs: the root pod's flags afterwards, and the
      messages widgets push into the shared context's buffer during it, in order. */
  datatype PodPasses = PodPasses(
    afterLayout: set<PodFlag>,
    afterLifecycle: set<PodFlag>,
    afterPaint: set<PodFlag>,
    layoutProduced: seq<Message>,
    lifecycleProduced: seq<Message>,
    paintProduced: seq<Message>)

  /** What event dispatch into the root pod did: the messages widgets produced, in
      order, and the root pod's flags afterwards. */
  datatype Dispatch = Dispatch(produced: seq<Message>, flags: set<PodFlag>)

  /** Which passes one frame ran. */
  datatype Frame = Frame(layout: bool, lifecycle: bool, paint: bool)

  /** A frame's decisions, the stored size, the root flags afterwards and the messages
      its passes produced. */
  datatype FramePlan = FramePlan(frame: Frame, size: Size, flags: set<PodFlag>, produced: seq<Message>)

  /** Layout is needed when the root asks for it, its tree changed, or the terminal
      size differs from the size the last layout used. */
  predicate NeedsLayout(flags: set<PodFlag>, term: Size, stored: Size) {
    RequestLayout in flags || TreeChanged in flags || term != stored
  }

  /** Paint is needed when the root asks for it or layout just ran. */
  predicate NeedsPaint(flags: set<PodFlag>, layoutRan: bool) {
    RequestPaint in flags || layoutRan
  }

  /** The gating of `App::render` after the build passes, for root flags `flags`,
      terminal size `term` and the size of the last layout `stored`. */
  function PlanFrame(flags: set<PodFlag>, term: Size, stored: Size, passes: PodPasses): (p: FramePlan)
    ensures p.frame.layout <==> RequestLayout in flags || TreeChanged in flags || term != stored
    ensures p.frame.layout ==> p.frame.paint
    ensures var afterLayout := if p.frame.layout then passes.afterLayout else flags;
      p.frame.lifecycle <==> ViewContextChanged in afterLayout
    ensures var afterLayout := if p.frame.layout then passes.afterLayout else flags;
      var afterLifecycle := if p.frame.lifecycle then passes.afterLifecycle else afterLayout;
      (p.frame.paint <==> RequestPaint in afterLifecycle || p.frame.layout) &&
      p.flags == if p.frame.paint then passes.afterPaint else afterLifecycle
    ensures p.size == term
    ensures p.frame == Frame(false, false, false) <==>
      RequestLayout !in flags && TreeChanged !in flags && ViewContextChanged !in flags &&
      RequestPaint !in flags && term == stored
    ensures p.frame == Frame(false, false, false) ==> p.flags == flags && p.produced == []
    ensures p.produced ==
      (if p.frame.layout then passes.layoutProduced else []) +
      (if p.frame.lifecycle then passes.lifecycleProduced else []) +
      (if p.frame.paint then passes.paintProduced else [])
  {
    var layout := NeedsLayout(flags, term, stored);
    var size := if layout then term else stored;
    var afterLayout := if layout then passes.afterLayout else flags;
    var lifecycle := ViewContextChanged in afterLayout;
    var afterLifecycle := if lifecycle then passes.afterLifecycle else afterLayout;
    var paint := NeedsPaint(afterLifecycle, layout);
    var afterPaint := if paint then passes.afterPaint else afterLifecycle;
    var produced :=
      (if layout then passes.layoutProduced else []) +
      (if lifecycle then passes.lifecycleProduced else []) +
      (if paint then passes.paintProduced else []);
    FramePlan(Frame(layout, lifecycle, paint), size, afterPaint, produced)
  }

  /** A frame whose passes leave no flag behind is followed, at the same terminal
      size and with no new flag, by a frame that runs nothing. */
  lemma SettledFrameIsQuiet(flags: set<PodFlag>, term: Size, stored: Size, passes: PodPasses, next: PodPasses)
    requires passes.afterLayout == passes.afterLifecycle == passes.afterPaint == {}
    ensures var p := PlanFrame(flags, term, stored, passes);
      p.frame != Frame(false, false, false) ==>
        PlanFrame(p.flags, term, p.size, next).frame == Frame(false, false, false)
  {
  }

  /** Whether a build pass hands back a non-empty pending set. */
  predicate HasPending<V, S>(h: Handshake<V, S>) {
    h.response.Some? && h.pass.registered != {}
  }

  /** What the source demands of a handshake: the id-path stack is balanced after the
      pass, and a rebuild gets the previous view and state back and builds a widget of
      the root's type (the source aborts otherwise). */
  predicate PassAllowed<V, S>(root: Option<Pod>, h: Handshake<V, S>) {
    h.response.Some? ==>
      h.pass.balanced &&
      (root.Some? ==>
         h.response.value.prev.Some? && h.response.value.state.Some? && h.pass.kind == root.value.kind)
  }

  /** The root pod after one handshake: built on the first response, marked with the
      rebuild's changes afterwards, untouched when the channel is closed. */
  function RootAfter<V, S>(root: Option<Pod>, h: Handshake<V, S>): (r: Option<Pod>)
    ensures h.response.None? ==> r == root
    ensures h.response.Some? ==> r.Some? && (root.Some? ==> r.value.kind == root.value.kind)
    ensures h.response.Some? && root.Some? ==> r.value.flags == root.value.flags + h.pass.changes
    ensures h.response.Some? && root.None? ==> r == Some(Pod(h.pass.kind, h.pass.initFlags))
  {
    match h.response
    case None => root
    case Some(_) =>
      match root
      case None => Some(Pod(h.pass.kind, h.pass.initFlags))
      case Some(pod) => Some(pod.(flags := pod.flags + h.pass.changes))
  }

  /** What the UI thread hands back for one handshake. */
  function Returned<V, S>(h: Handshake<V, S>): (r: seq<Reply<V, S>>)
    ensures |r| <= 1 && (r != [] <==> h.response.Some?)
    ensures h.response.Some? ==> r[0].pending == h.pass.registered && r[0].view == h.response.value.view
  {
    match h.response
    case None => []
    case Some(response) => [Reply(response.view, h.pass.state, h.pass.registered)]
  }

  /** The root pod after `App::render`'s build passes: the second pass runs only when
      the first hands back pending work. */
  function BuiltRoot<V, S>(root: Option<Pod>, first: Handshake<V, S>, second: Handshake<V, S>): Option<Pod> {
    if HasPending(first) then RootAfter(RootAfter(root, first), second) else RootAfter(root, first)
  }

  /** The root identity after one handshake: the one the build or rebuild left, or
      the old one when the channel is closed. */
  function IdAfter<V, S>(id: Option<Id>, h: Handshake<V, S>): Option<Id> {
    if h.response.Some? then Some(h.pass.id) else id
  }

  /** The root identity after `App::render`'s build passes. */
  function BuiltId<V, S>(id: Option<Id>, first: Handshake<V, S>, second: Handshake<V, S>): Option<Id> {
    if HasPending(first) then IdAfter(IdAfter(id, first), second) else IdAfter(id, first)
  }

  /** The root pod after event dispatch, if there is one: the flags dispatch left. */
  function AfterDispatch(root: Option<Pod>, dispatch: Dispatch): Option<Pod> {
    if root.Some? then Some(root.value.(flags := dispatch.flags)) else None
  }

  /** The render requests one `App::render` sends: a second, delayable one only when
      the first pass left work pending. */
  function RenderRequests<V, S>(first: Handshake<V, S>): (r: seq<AppMessage>)
    ensures 1 <= |r| <= 2 && r[0] == AppMessage.Render(false)
    ensures |r| == 2 <==> first.response.Some? && first.pass.registered != {}
    ensures |r| == 2 ==> r[1] == AppMessage.Render(true)
  {
    if HasPending(first) then [AppMessage.Render(false), AppMessage.Render(true)] else [AppMessage.Render(false)]
  }

  /** Whether a batch of notifications contains `Quit`. */
  function HasQuit(batch: seq<Event>): (r: bool)
    ensures r <==> exists k :: 0 <= k < |batch| && batch[k].Quit?
  {
    if batch == [] then false
    else
      assert forall k :: 1 <= k < |batch| ==> batch[k] == batch[1..][k - 1];
      batch[0].Quit? || HasQuit(batch[1..])
  }

  /** Coalesce a burst: the notification that ended the blocking receive, followed by
      every notification already waiting, in arrival order. */
  method Batch(first: Event, waiting: seq<Event>) returns (batch: seq<Event>)
    ensures |batch| == |waiting| + 1 && batch[0] == first
    ensures forall k :: 0 <= k < |waiting| ==> batch[k + 1] == waiting[k]
  {
    batch := [first];
    var i := 0;
    while i < |waiting|
      invariant 0 <= i <= |waiting|
      invariant |batch| == i + 1 && batch[0] == first
      invariant forall k :: 0 <= k < i ==> batch[k + 1] == waiting[k]
    {
      batch := batch + [waiting[i]];
      i := i + 1;
    }
  }

  /** The UI thread's state. `requests` logs what it sends to the logic task,
      `returned` what it hands back after reconciling, `dispatched` the notifications
      dispatched into the root pod, `frames` the passes each render ran. */
  class App<V, S> {
    var size: Size
    var rootPod: Option<Pod>
    var id: Option<Id>
    var events: seq<Message>
    var cxPending: set<Id>
    var requests: seq<AppMessage>
    var returned: seq<Reply<V, S>>
    var dispatched: seq<Event>
    var frames: seq<Frame>

    /** The root identity exists exactly when the root pod does, and the context's
        pending set is empty between handshakes. */
    ghost predicate Valid()
      reads this
    {
      rootPod.Some? == id.Some? && cxPending == {}
    }

    constructor ()
      ensures Valid()
      ensures size == Size(0, 0) && rootPod.None? && events == []
      ensures requests == [] && returned == [] && dispatched == [] && frames == []
    {
      size := Size(0, 0);
      rootPod, id := None, None;
      events, cxPending := [], {};
      requests, returned, dispatched, frames := [], [], [], [];
    }

    /** `App::send_events`: hand the collected messages to the logic task in one
        batch, if there are any. */
    method SendEvents()
      modifies this`events, this`requests
      ensures events == []
      ensures requests == old(requests) + (if old(events) == [] then [] else [Events(old(events))])
    {
      if events != [] {
        var batch := events;
        events := [];
        requests := requests + [Events(batch)];
      }
    }

    /** `App::build_widget_tree`: one render handshake. */
    method BuildWidgetTree(delay: bool, h: Handshake<V, S>) returns (hasPending: bool)
      requires Valid() && PassAllowed(rootPod, h)
      modifies this`rootPod, this`id, this`cxPending, this`requests, this`returned
      ensures Valid()
      ensures hasPending == HasPending(h)
      ensures requests == old(requests) + [AppMessage.Render(delay)]
      ensures rootPod == RootAfter(old(rootPod), h)
      ensures returned == old(returned) + Returned(h)
      ensures id == IdAfter(old(id), h)
    {
      cxPending := {};
      requests := requests + [AppMessage.Render(delay)];
      match h.response {
        case None =>
          hasPending := false;
          assert Returned(h) == [];
          assert returned + Returned(h) == returned;
        case Some(response) =>
          if rootPod.Some? {
            rootPod := Some(rootPod.value.(flags := rootPod.value.flags + h.pass.changes));
          } else {
            rootPod := Some(Pod(h.pass.kind, h.pass.initFlags));
          }
          id := Some(h.pass.id);
          cxPending := cxPending + h.pass.registered;
          var pending := cxPending;
          cxPending := {};
          hasPending := pending != {};
          assert pending == h.pass.registered;
          assert Returned(h) == [Reply(response.view, h.pass.state, pending)];
          returned := returned + [Reply(response.view, h.pass.state, pending)];
      }
    }

    /** `App::render`: a first build pass without delay, a second one that may be
        delayed only when the first left work pending, then the gated passes. */
    method Render(first: Handshake<V, S>, second: Handshake<V, S>, term: Size, passes: PodPasses)
      requires Valid() && PassAllowed(rootPod, first)
      requires HasPending(first) ==> PassAllowed(RootAfter(rootPod, first), second)
      requires BuiltRoot(rootPod, first, second).Some?
      modifies this`rootPod, this`id, this`cxPending, this`requests, this`returned, this`size, this`frames
      modifies this`events
      ensures Valid()
      ensures requests == old(requests) + RenderRequests(first)
      ensures returned == old(returned) + Returned(first) + if HasPending(first) then Returned(second) else []
      ensures id == BuiltId(old(id), first, second)
      ensures var root := BuiltRoot(old(rootPod), first, second).value;
        var plan := PlanFrame(root.flags, term, old(size), passes);
        frames == old(frames) + [plan.frame] && size == plan.size && rootPod == Some(root.(flags := plan.flags)) &&
        events == old(events) + plan.produced
    {
      var more := BuildWidgetTree(false, first);
      if more {
        var _ := BuildWidgetTree(true, second);
      }
      RunPasses(term, passes);
    }

    /** The gated part of `App::render`: layout, lifecycle notification and paint on
        the root pod, each only when the flags (or the terminal size) call for it. */
    method RunPasses(term: Size, passes: PodPasses)
      requires rootPod.Some?
      modifies this`rootPod, this`size, this`frames, this`events
      ensures var plan := PlanFrame(old(rootPod).value.flags, term, old(size), passes);
        frames == old(frames) + [plan.frame] && size == plan.size &&
        rootPod == Some(old(rootPod).value.(flags := plan.flags)) &&
        events == old(events) + plan.produced
    {
      var root := rootPod.value;
      var layout := NeedsLayout(root.flags, term, size);
      ghost var before := events;
      if layout {
        size := term;
        root := root.(flags := passes.afterLayout);
        events := events + passes.layoutProduced;
      }
      var lifecycle := ViewContextChanged in root.flags;
      if lifecycle {
        root := root.(flags := passes.afterLifecycle);
        events := events + passes.lifecycleProduced;
      }
      var paint := NeedsPaint(root.flags, layout);
      if paint {
        root := root.(flags := passes.afterPaint);
        events := events + passes.paintProduced;
      }
      assert events == before +
        ((if layout then passes.layoutProduced else []) +
         (if lifecycle then passes.lifecycleProduced else []) +
         (if paint then passes.paintProduced else []));
      rootPod := Some(root);
      frames := frames + [Frame(layout, lifecycle, paint)];
    }

    /** One turn of `App::run`'s loop: batch the waiting notifications, dispatch them
        into the root pod (if there is one) in arrival order, send the messages
        collected so far, render, and report whether the batch asked to quit. The
        messages the render passes produce stay in the buffer for the next turn. */
    method RunCycle(first: Event, waiting: seq<Event>, dispatch: Dispatch,
                    h1: Handshake<V, S>, h2: Handshake<V, S>, term: Size, passes: PodPasses)
      returns (quit: bool)
      requires Valid()
      requires var root := AfterDispatch(rootPod, dispatch);
        PassAllowed(root, h1) && (HasPending(h1) ==> PassAllowed(RootAfter(root, h1), h2)) &&
        BuiltRoot(root, h1, h2).Some?
      modifies this
      ensures Valid()
      ensures quit <==> first.Quit? || exists k :: 0 <= k < |waiting| && waiting[k].Quit?
      ensures dispatched == old(dispatched) + if old(rootPod).Some? then [first] + waiting else []
      ensures var sent := old(events) + if old(rootPod).Some? then dispatch.produced else [];
        requests == old(requests) + (if sent == [] then [] else [Events(sent)]) + RenderRequests(h1)
      ensures returned == old(returned) + Returned(h1) + if HasPending(h1) then Returned(h2) else []
      ensures id == BuiltId(old(id), h1, h2)
      ensures var root := BuiltRoot(AfterDispatch(old(rootPod), dispatch), h1, h2).value;
        var plan := PlanFrame(root.flags, term, old(size), passes);
        frames == old(frames) + [plan.frame] && size == plan.size && rootPod == Some(root.(flags := plan.flags)) &&
        events == plan.produced
    {
      var batch := Batch(first, waiting);
      quit := HasQuit(batch);
      assert batch == [first] + waiting;
      if rootPod.Some? {
        for i := 0 to |batch|
          modifies this`dispatched
          invariant dispatched == old(dispatched) + batch[..i]
        {
          dispatched := dispatched + [batch[i]];
        }
        events := events + dispatch.produced;
        rootPod := Some(rootPod.value.(flags := dispatch.flags));
      }
      ghost var sent := events;
      assert sent == old(events) + if old(rootPod).Some? then dispatch.produced else [];
      SendEvents();
      ghost var afterSend := requests;
      assert rootPod == AfterDispatch(old(rootPod), dispatch) && size == old(size);
      Render(h1, h2, term, passes);
      assert requests == afterSend + RenderRequests(h1);
    }
  }
}
