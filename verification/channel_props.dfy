/**
 * Properties of the channel over every interleaving of public calls and
 * asynchronous events: the well-formedness every reachable channel keeps,
 * the subscription discipline when create is synchronous, and the order
 * in which close releases the backend.
 */
module ChannelProps {
  import opened Common
  import opened Listeners
  import opened MethodChooser
  import opened BroadcastChannel
  import opened Scheduler

  // ---------------------------------------------------------------------
  // Views of the trace and of the task queue
  // ---------------------------------------------------------------------

  /** The subscription calls in a trace: true for `onMessage(fn)`, false for `onMessage(null)`. */
  function Toggles(t: seq<Effect>): seq<bool> {
    if t == [] then []
    else
      (match t[0]
       case Subscribe(_, _) => [true]
       case Unsubscribe(_, _) => [false]
       case _ => []) + Toggles(t[1..])
  }

  lemma {:induction false} TogglesAppend(a: seq<Effect>, b: seq<Effect>)
    ensures Toggles(a + b) == Toggles(a) + Toggles(b)
  {
    if a == [] {
      assert a + b == b;
    } else {
      assert (a + b)[1..] == a[1..] + b;
      TogglesAppend(a[1..], b);
    }
  }

  /** The number of backend `close` calls in a trace. */
  function CloseCalls(t: seq<Effect>): nat {
    if t == [] then 0
    else (if t[0].CloseBackend? then 1 else 0) + CloseCalls(t[1..])
  }

  lemma {:induction false} CloseCallsAppend(a: seq<Effect>, b: seq<Effect>)
    ensures CloseCalls(a + b) == CloseCalls(a) + CloseCalls(b)
  {
    if a == [] {
      assert a + b == b;
    } else {
      assert (a + b)[1..] == a[1..] + b;
      CloseCallsAppend(a[1..], b);
    }
  }

  /** A backend call that uses `_state` is made with the state `st`, which exists. */
  predicate CarriesHandle(e: Effect, st: Option<Handle>) {
    match e
    case Send(s, _) => s.Some? && s == st
    case Subscribe(s, _) => s.Some? && s == st
    case Unsubscribe(s, _) => s.Some? && s == st
    case CloseBackend(s) => s.Some? && s == st
    case _ => true
  }

  /** Every call in `t` that uses `_state` is made with the state `st`, which exists. */
  predicate HandlesPresent(t: seq<Effect>, st: Option<Handle>) {
    forall k :: 0 <= k < |t| ==> CarriesHandle(t[k], st)
  }

  /** Subscribe and unsubscribe calls alternate, starting with a subscribe. */
  predicate Alternates(bs: seq<bool>) {
    forall i :: 0 <= i < |bs| ==> bs[i] == (i % 2 == 0)
  }

  /** One effect appended to a trace: how the three trace views change. */
  lemma AppendEffect(t: seq<Effect>, e: Effect)
    ensures Toggles(t + [e]) == Toggles(t) + (if e.Subscribe? then [true] else if e.Unsubscribe? then [false] else [])
    ensures CloseCalls(t + [e]) == CloseCalls(t) + (if e.CloseBackend? then 1 else 0)
    ensures forall st :: HandlesPresent(t, st) && CarriesHandle(e, st) ==> HandlesPresent(t + [e], st)
  {
    TogglesAppend(t, [e]);
    CloseCallsAppend(t, [e]);
    assert [e][1..] == [];
  }

  /** Running the before-close hooks makes no backend call. */
  lemma {:induction false} HookEffectsNoCalls(hooks: seq<nat>, st: Option<Handle>)
    ensures Toggles(HookEffects(hooks)) == [] && CloseCalls(HookEffects(hooks)) == 0
    ensures HandlesPresent(HookEffects(hooks), st)
    decreases |hooks|
  {
    if hooks != [] {
      var h := HookEffects(hooks);
      HookEffectsNoCalls(hooks[1..], st);
      assert h[1..] == HookEffects(hooks[1..]);
    }
  }

  /** Appending the hook invocations to a trace leaves its three views as they were. */
  lemma HookEffectsInert(t: seq<Effect>, hooks: seq<nat>, st: Option<Handle>)
    ensures Toggles(t + HookEffects(hooks)) == Toggles(t)
    ensures CloseCalls(t + HookEffects(hooks)) == CloseCalls(t)
    ensures HandlesPresent(t, st) ==> HandlesPresent(t + HookEffects(hooks), st)
  {
    HookEffectsNoCalls(hooks, st);
    TogglesAppend(t, HookEffects(hooks));
    CloseCallsAppend(t, HookEffects(hooks));
    assert Toggles(t) + [] == Toggles(t);
  }

  /** The number of close callbacks waiting in a queue. */
  function Closes(q: seq<Task>): nat {
    if q == [] then 0
    else (if q[0].CloseTask? then 1 else 0) + Closes(q[1..])
  }

  /** The number of sends queued ahead of the first close callback. */
  function SendsAhead(q: seq<Task>): nat {
    if q == [] || q[0].CloseTask? then 0
    else (if q[0].SendTask? then 1 else 0) + SendsAhead(q[1..])
  }

  lemma {:induction false} QueueAppend(q: seq<Task>, t: Task)
    ensures Closes(q + [t]) == Closes(q) + (if t.CloseTask? then 1 else 0)
    ensures Closes(q) > 0 ==> SendsAhead(q + [t]) == SendsAhead(q)
    ensures Closes(q) == 0 && t.CloseTask? ==> SendsAhead(q + [t]) == SendsAhead(q)
  {
    if q == [] {
      assert [t][1..] == [];
    } else {
      assert (q + [t])[1..] == q[1..] + [t];
      QueueAppend(q[1..], t);
    }
  }

  // ---------------------------------------------------------------------
  // Well-formedness of a reachable channel
  // ---------------------------------------------------------------------

  predicate ObjsBelow(ls: seq<Listener>, n: nat) {
    forall l :: l in ls ==> l.obj < n
  }

  /** Listener objects are distinct, allocated, and never in both lists. */
  predicate ListenersWf(ch: Channel) {
    && ObjsBelow(ch.message, ch.nextObj) && ObjsBelow(ch.internal, ch.nextObj)
    && UniqueObjs(ch.message) && UniqueObjs(ch.internal)
    && DisjointObjs(ch.message, ch.internal)
    && (ch.onML.Some? ==> ch.onML.value.obj < ch.nextObj)
  }

  /** `_uMP` holds exactly the issued sends not yet fulfilled; a close snapshot names issued sends. */
  predicate SendsWf(ch: Channel) {
    && (forall i :: i in ch.pending ==> i < |ch.sends| && ch.sends[i] != Fulfilled)
    && (forall i :: 0 <= i < |ch.sends| && ch.sends[i] != Fulfilled ==> i in ch.pending)
    && (ch.stage.AwaitSends? ==> forall i :: i in ch.stage.snapshot ==> i < |ch.sends|)
  }

  /**
   * Readiness and the close pipeline: nothing but `create` reaches the
   * backend before the state exists, and every later call uses that
   * state; the pipeline exists exactly when the channel is closed; at most
   * one backend close, issued on release.
   */
  predicate LifecycleWf(ch: Channel) {
    && (!ch.deferred ==> ch.state.Some?)
    && (ch.state.None? ==> !ch.listening && |ch.trace| == 1 && (ch.stage == Open || ch.stage == AwaitPrepare))
    && (ch.closed <==> ch.stage != Open)
    && Closes(ch.queue) == (if ch.stage == AwaitPrepare then 1 else 0)
    && CloseCalls(ch.trace) == (if ch.stage.Released? then 1 else 0)
    && HandlesPresent(ch.trace, ch.state)
  }

  /**
   * With a synchronous create (`_prepP == null`) no subscription is ever
   * queued, subscription calls alternate, and `_iL` says whether the last
   * one subscribed.
   */
  predicate SyncTrace(ch: Channel) {
    !ch.deferred ==>
      && (forall i :: 0 <= i < |ch.queue| ==> !ch.queue[i].SubscribeTask?)
      && Alternates(Toggles(ch.trace))
      && (ch.listening <==> |Toggles(ch.trace)| % 2 == 1)
  }

  /**
   * With a synchronous create, moreover, `_iL` agrees with "some listener
   * is registered" while the channel is open (close clears the message
   * list without unsubscribing).
   */
  predicate SyncListening(ch: Channel) {
    && SyncTrace(ch)
    && (!ch.deferred ==>
          && (HasMessageListeners(ch) ==> ch.listening)
          && (!ch.closed && ch.listening ==> HasMessageListeners(ch)))
  }

  /** The part of the invariant that does not look at the listener lists. */
  predicate CoreWf(ch: Channel) {
    SendsWf(ch) && LifecycleWf(ch) && SyncTrace(ch)
  }

  predicate Wf(ch: Channel) {
    ListenersWf(ch) && CoreWf(ch) && SyncListening(ch)
  }

  /** A freshly constructed channel is well formed. */
  lemma NewIsWellFormed(w: World, name: string, options: Options, env: Env, fill: Options -> Options, creation: Creation)
    ensures New(w, name, options, env, fill, creation).1.Ok? ==> Wf(New(w, name, options, env, fill, creation).1.value)
  {
    var r := New(w, name, options, env, fill, creation);
    if r.1.Ok? {
      var ch := r.1.value;
      assert ch.trace == [Create(name, ch.options)];
      assert Toggles(ch.trace) == [] && CloseCalls(ch.trace) == 0 by {
        assert ch.trace[1..] == [];
        assert CloseCalls(ch.trace) == (if ch.trace[0].CloseBackend? then 1 else 0) + CloseCalls(ch.trace[1..]);
      }
    }
  }

  // ---------------------------------------------------------------------
  // Listener operations keep a channel well formed
  // ---------------------------------------------------------------------

  lemma UniqueAppendFresh(ls: seq<Listener>, l: Listener)
    requires UniqueObjs(ls) && forall x :: x in ls ==> x.obj != l.obj
    ensures UniqueObjs(ls + [l])
  {
    var r := ls + [l];
    forall i, j | 0 <= i < j < |r| ensures r[i].obj != r[j].obj {
      assert r[i] == ls[i] && ls[i] in ls;
      if j < |ls| {
        assert r[j] == ls[j];
      }
    }
  }

  /** Changing only listener bookkeeping keeps the part of the invariant that does not look at it. */
  lemma ListsFrame(a: Channel, b: Channel)
    requires CoreWf(a)
    requires b == a.(message := b.message, internal := b.internal, onML := b.onML, nextObj := b.nextObj)
    ensures CoreWf(b)
  {
  }

  /** A fresh object appended to one list keeps the listener bookkeeping well formed. */
  lemma AppendListenerWf(ch: Channel, cat: Category, l: Listener)
    requires ListenersWf(ch) && l.obj < ch.nextObj
    requires forall x :: x in ch.message ==> x.obj != l.obj
    requires forall x :: x in ch.internal ==> x.obj != l.obj
    ensures ListenersWf(WithList(ch, cat, ListOf(ch, cat) + [l]))
  {
    UniqueAppendFresh(ListOf(ch, cat), l);
  }

  /** Removing an object from one list keeps the listener bookkeeping well formed and adds nothing. */
  lemma RemoveListenerWf(ch: Channel, cat: Category, obj: Option<Listener>)
    requires ListenersWf(ch)
    ensures var c := WithList(ch, cat, Without(ListOf(ch, cat), obj));
            && ListenersWf(c)
            && (forall x :: x in c.message ==> x in ch.message)
            && (forall x :: x in c.internal ==> x in ch.internal)
            && (HasMessageListeners(c) ==> HasMessageListeners(ch))
  {
    var c := WithList(ch, cat, Without(ListOf(ch, cat), obj));
    if obj.Some? {
      RemoveObjectUnique(ListOf(ch, cat), obj.value.obj);
    }
    if |c.message| > 0 {
      assert c.message[0] in ch.message;
    }
    if |c.internal| > 0 {
      assert c.internal[0] in ch.internal;
    }
  }

  /** `_startListening` once a listener is registered restores the whole invariant. */
  lemma StartListeningWf(c: Channel, now: int)
    requires ListenersWf(c) && CoreWf(c) && HasMessageListeners(c)
    ensures Wf(StartListening(c, now))
  {
    if !c.listening {
      if c.deferred {
        QueueAppend(c.queue, SubscribeTask(now));
      } else {
        AppendEffect(c.trace, Subscribe(c.state, now));
      }
    }
  }

  /** `_stopListening` after a removal restores the whole invariant. */
  lemma StopListeningWf(c: Channel, now: int)
    requires ListenersWf(c) && CoreWf(c)
    requires !c.deferred ==> (HasMessageListeners(c) ==> c.listening)
    ensures Wf(StopListening(c, now))
  {
    if c.listening && !HasMessageListeners(c) {
      AppendEffect(c.trace, Unsubscribe(c.state, now));
    }
  }

  lemma AddListenerObjectWf(ch: Channel, cat: Category, l: Listener, now: int)
    requires ListenersWf(ch) && CoreWf(ch) && l.obj < ch.nextObj
    requires forall x :: x in ch.message ==> x.obj != l.obj
    requires forall x :: x in ch.internal ==> x.obj != l.obj
    ensures Wf(AddListenerObject(ch, cat, l, now))
  {
    var c := WithList(ch, cat, ListOf(ch, cat) + [l]);
    AppendListenerWf(ch, cat, l);
    WithListFrame(ch, cat, ListOf(ch, cat) + [l]);
    ListsFrame(ch, c);
    StartListeningWf(c, now);
  }

  lemma RemoveListenerObjectWf(ch: Channel, cat: Category, obj: Option<Listener>, now: int)
    requires Wf(ch)
    ensures Wf(RemoveListenerObject(ch, cat, obj, now))
    ensures forall x :: x in RemoveListenerObject(ch, cat, obj, now).message ==> x in ch.message
    ensures forall x :: x in RemoveListenerObject(ch, cat, obj, now).internal ==> x in ch.internal
  {
    var c := WithList(ch, cat, Without(ListOf(ch, cat), obj));
    RemoveListenerWf(ch, cat, obj);
    WithListFrame(ch, cat, Without(ListOf(ch, cat), obj));
    ListsFrame(ch, c);
    StopListeningWf(c, now);
  }

  lemma AddEventListenerWf(ch: Channel, cat: Category, fn: Fn, now: int)
    requires Wf(ch)
    ensures Wf(AddEventListener(ch, cat, fn, now))
  {
    BumpWf(ch);
    AddListenerObjectWf(ch.(nextObj := ch.nextObj + 1), cat, Listener(ch.nextObj, now, fn), now);
  }

  lemma RemoveEventListenerWf(ch: Channel, cat: Category, fn: Fn, now: int)
    requires Wf(ch)
    ensures Wf(RemoveEventListener(ch, cat, fn, now))
  {
    var ls := ListOf(ch, cat);
    assert RemoveEventListener(ch, cat, fn, now) == RemoveListenerObject(ch, cat, FindByFn(ls, fn), now);
    RemoveListenerObjectWf(ch, cat, FindByFn(ls, fn), now);
  }

  lemma SetOnMessageWf(ch: Channel, fn: Option<Fn>, now: int)
    requires Wf(ch)
    ensures Wf(SetOnMessage(ch, fn, now))
  {
    DropSlotWf(ch, now);
    var c := DropSlot(ch, now);
    match fn
    case Some(f) => InstallSlotWf(ch, c, Listener(ch.nextObj, now, f), now);
    case None => ClearSlotWf(c);
  }

  lemma DropSlotWf(ch: Channel, now: int)
    requires Wf(ch)
    ensures var c := DropSlot(ch, now);
            && Wf(c) && c.nextObj == ch.nextObj + 1
            && (forall x :: x in c.message ==> x in ch.message)
            && (forall x :: x in c.internal ==> x in ch.internal)
  {
    RemoveListenerObjectWf(ch, Message, ch.onML, now);
    BumpWf(RemoveListenerObject(ch, Message, ch.onML, now));
  }

  /** Allocating a listener identity keeps a channel well formed. */
  lemma BumpWf(ch: Channel)
    requires Wf(ch)
    ensures Wf(ch.(nextObj := ch.nextObj + 1))
  {
    ListsFrame(ch, ch.(nextObj := ch.nextObj + 1));
  }

  lemma ClearSlotWf(c: Channel)
    requires Wf(c)
    ensures Wf(c.(onML := None))
  {
    ListsFrame(c, c.(onML := None));
  }

  /** Installing a fresh onmessage listener after the old one was removed. */
  lemma InstallSlotWf(ch: Channel, c: Channel, slot: Listener, now: int)
    requires ListenersWf(ch) && Wf(c) && c.nextObj == ch.nextObj + 1 && slot.obj == ch.nextObj
    requires forall x :: x in c.message ==> x in ch.message
    requires forall x :: x in c.internal ==> x in ch.internal
    ensures Wf(InstallSlot(c, slot, now))
  {
    var c3 := c.(onML := Some(slot));
    ListsFrame(c, c3);
    AddListenerObjectWf(c3, Message, slot, now);
  }

  // ---------------------------------------------------------------------
  // Every other step keeps a channel well formed
  // ---------------------------------------------------------------------

  lemma PostWf(ch: Channel, cat: Category, data: Data, now: int)
    requires Wf(ch)
    ensures Wf(Post(ch, cat, data, now))
  {
    QueueAppend(ch.queue, SendTask(Envelope(now, cat, data)));
  }

  lemma CloseChannelWf(ch: Channel)
    requires Wf(ch)
    ensures Wf(CloseChannel(ch))
  {
    if !ch.closed {
      QueueAppend(ch.queue, CloseTask);
    }
  }

  lemma RunTaskWf(ch: Channel)
    requires Wf(ch) && ch.state.Some? && |ch.queue| > 0
    ensures Wf(RunTask(ch))
  {
    var q := ch.queue;
    assert Closes(q) == (if q[0].CloseTask? then 1 else 0) + Closes(q[1..]);
    match q[0]
    case SendTask(msg) => RunSendTaskWf(ch);
    case SubscribeTask(time) => RunSubscribeTaskWf(ch);
    case CloseTask => RunCloseTaskWf(ch);
  }

  lemma RunSendTaskWf(ch: Channel)
    requires Wf(ch) && ch.state.Some? && |ch.queue| > 0 && ch.queue[0].SendTask?
    requires Closes(ch.queue[1..]) == Closes(ch.queue)
    ensures Wf(RunTask(ch))
  {
    AppendEffect(ch.trace, Send(ch.state, ch.queue[0].msg));
    var r := RunTask(ch);
    assert SendsWf(r);
    assert LifecycleWf(r);
  }

  lemma RunSubscribeTaskWf(ch: Channel)
    requires Wf(ch) && ch.state.Some? && |ch.queue| > 0 && ch.queue[0].SubscribeTask?
    requires Closes(ch.queue[1..]) == Closes(ch.queue)
    ensures Wf(RunTask(ch))
  {
    AppendEffect(ch.trace, Subscribe(ch.state, ch.queue[0].time));
    assert ch.deferred;
  }

  lemma RunCloseTaskWf(ch: Channel)
    requires Wf(ch) && ch.state.Some? && |ch.queue| > 0 && ch.queue[0].CloseTask?
    requires Closes(ch.queue) == 1 + Closes(ch.queue[1..])
    ensures Wf(RunTask(ch))
  {
    assert ch.stage == AwaitPrepare;
  }

  lemma SettleSendWf(ch: Channel, i: nat, ok: bool)
    requires Wf(ch) && i < |ch.sends| && ch.sends[i] == InFlight
    ensures Wf(SettleSend(ch, i, ok))
  {
  }

  lemma FinishSendsWf(ch: Channel)
    requires Wf(ch) && ch.stage.AwaitSends? && (SnapshotFulfilled(ch) || SnapshotRejected(ch))
    ensures Wf(FinishSends(ch))
  {
    HookEffectsInert(ch.trace, ch.beforeClose, ch.state);
  }

  lemma FinishHooksWf(ch: Channel, ok: bool)
    requires Wf(ch) && ch.stage.AwaitHooks? && (ok || |ch.stage.invoked| > 0)
    ensures Wf(FinishHooks(ch, ok))
  {
    AppendEffect(ch.trace, CloseBackend(ch.state));
  }

  lemma InvokePreservesWf(ch: Channel, s: Step)
    requires Wf(ch) && IsCall(s)
    ensures Wf(Invoke(ch, s))
  {
    match s
    case PostMessageStep(d, now) =>
      if !ch.closed {
        PostWf(ch, Message, d, now);
      }
    case PostInternalStep(d, now) => PostWf(ch, Internal, d, now);
    case SetOnMessageStep(fn, now) => SetOnMessageWf(ch, fn, now);
    case AddStep(cat, fn, now) => AddEventListenerWf(ch, cat, fn, now);
    case RemoveStep(cat, fn, now) => RemoveEventListenerWf(ch, cat, fn, now);
    case CloseStep => CloseChannelWf(ch);
    case PushHookStep(h) =>
  }

  lemma ReactPreservesWf(ch: Channel, s: Step)
    requires Wf(ch) && !IsCall(s)
    ensures Wf(React(ch, s))
  {
    match s
    case ResolveStep(h) =>
    case RunTaskStep =>
      if ch.state.Some? && |ch.queue| > 0 {
        RunTaskWf(ch);
      }
    case SettleSendStep(i, ok) =>
      if i < |ch.sends| && ch.sends[i] == InFlight {
        SettleSendWf(ch, i, ok);
      }
    case FinishSendsStep =>
      if ch.stage.AwaitSends? && (SnapshotFulfilled(ch) || SnapshotRejected(ch)) {
        FinishSendsWf(ch);
      }
    case FinishHooksStep(ok) =>
      if ch.stage.AwaitHooks? && (ok || |ch.stage.invoked| > 0) {
        FinishHooksWf(ch, ok);
      }
  }

  /** Every step, public call or event, keeps a channel well formed. */
  lemma NextPreservesWf(ch: Channel, s: Step)
    requires Wf(ch)
    ensures Wf(Next(ch, s))
  {
    if IsCall(s) {
      InvokePreservesWf(ch, s);
    } else {
      ReactPreservesWf(ch, s);
    }
  }

  /**
   * Every channel reachable from a well-formed one is well formed: in
   * particular the backend is closed at most once, and every backend call
   * after create uses one and the same state, the one readiness produced.
   */
  lemma {:induction false} RunPreservesWf(ch: Channel, steps: seq<Step>)
    requires Wf(ch)
    ensures Wf(Run(ch, steps))
    ensures CloseCalls(Run(ch, steps).trace) <= 1
    ensures HandlesPresent(Run(ch, steps).trace, Run(ch, steps).state)
    decreases |steps|
  {
    if steps != [] {
      NextPreservesWf(ch, steps[0]);
      RunPreservesWf(Next(ch, steps[0]), steps[1..]);
    }
  }

  // ---------------------------------------------------------------------
  // The close pipeline
  // ---------------------------------------------------------------------

  /**
   * After the first close(), bookkeeping of the sends numbered below
   * `mark`: those issued, or queued behind readiness, when close was called.
   * Before the snapshot they are exactly the sends issued so far plus those
   * queued ahead of the close callback; the snapshot holds every one of
   * them not yet fulfilled; the hooks run only once all are fulfilled.
   */
  predicate DrainsBefore(ch: Channel, mark: nat) {
    match ch.stage
    case Open => false
    case AwaitPrepare => |ch.sends| + SendsAhead(ch.queue) == mark
    case AwaitSends(snap) =>
      mark <= |ch.sends| && forall i :: 0 <= i < mark ==> ch.sends[i] == Fulfilled || i in snap
    case AwaitHooks(_) => mark <= |ch.sends| && forall i :: 0 <= i < mark ==> ch.sends[i] == Fulfilled
    case Released(_) => mark <= |ch.sends| && forall i :: 0 <= i < mark ==> ch.sends[i] == Fulfilled
    case Failed => true
  }

  lemma RunTaskKeepsDrains(ch: Channel, mark: nat)
    requires Wf(ch) && DrainsBefore(ch, mark) && ch.state.Some? && |ch.queue| > 0
    ensures DrainsBefore(RunTask(ch), mark)
  {
    var q := ch.queue;
    assert Closes(q) == (if q[0].CloseTask? then 1 else 0) + Closes(q[1..]);
    if q[0].CloseTask? {
      assert ch.stage == AwaitPrepare;
      assert SendsAhead(q) == 0;
    } else if q[0].SendTask? {
      var r := RunTask(ch);
      assert forall i :: 0 <= i < |ch.sends| ==> r.sends[i] == ch.sends[i];
    }
  }

  lemma SettleSendKeepsDrains(ch: Channel, i: nat, ok: bool, mark: nat)
    requires Wf(ch) && DrainsBefore(ch, mark) && i < |ch.sends| && ch.sends[i] == InFlight
    ensures DrainsBefore(SettleSend(ch, i, ok), mark)
  {
  }

  lemma FinishSendsKeepsDrains(ch: Channel, mark: nat)
    requires Wf(ch) && DrainsBefore(ch, mark)
    requires ch.stage.AwaitSends? && (SnapshotFulfilled(ch) || SnapshotRejected(ch))
    ensures DrainsBefore(FinishSends(ch), mark)
  {
  }

  lemma InvokeKeepsDrains(ch: Channel, s: Step, mark: nat)
    requires Wf(ch) && DrainsBefore(ch, mark) && IsCall(s)
    ensures DrainsBefore(Invoke(ch, s), mark)
  {
    match s
    case PostMessageStep(d, now) =>
      QueueAppend(ch.queue, SendTask(Envelope(now, Message, d)));
    case PostInternalStep(d, now) =>
      QueueAppend(ch.queue, SendTask(Envelope(now, Internal, d)));
    case SetOnMessageStep(fn, now) =>
      QueueAppend(ch.queue, SubscribeTask(now));
    case AddStep(cat, fn, now) =>
      QueueAppend(ch.queue, SubscribeTask(now));
    case RemoveStep(cat, fn, now) =>
    case CloseStep =>
    case PushHookStep(h) =>
  }

  lemma ReactKeepsDrains(ch: Channel, s: Step, mark: nat)
    requires Wf(ch) && DrainsBefore(ch, mark) && !IsCall(s)
    ensures DrainsBefore(React(ch, s), mark)
  {
    match s
    case ResolveStep(h) =>
    case RunTaskStep =>
      if ch.state.Some? && |ch.queue| > 0 {
        RunTaskKeepsDrains(ch, mark);
      }
    case SettleSendStep(i, ok) =>
      if i < |ch.sends| && ch.sends[i] == InFlight {
        SettleSendKeepsDrains(ch, i, ok, mark);
      }
    case FinishSendsStep =>
      if ch.stage.AwaitSends? && (SnapshotFulfilled(ch) || SnapshotRejected(ch)) {
        FinishSendsKeepsDrains(ch, mark);
      }
    case FinishHooksStep(ok) =>
  }

  lemma NextKeepsDrains(ch: Channel, s: Step, mark: nat)
    requires Wf(ch) && DrainsBefore(ch, mark)
    ensures DrainsBefore(Next(ch, s), mark)
  {
    if IsCall(s) {
      InvokeKeepsDrains(ch, s, mark);
    } else {
      ReactKeepsDrains(ch, s, mark);
    }
  }

  lemma {:induction false} RunKeepsDrains(ch: Channel, steps: seq<Step>, mark: nat)
    requires Wf(ch) && DrainsBefore(ch, mark)
    ensures DrainsBefore(Run(ch, steps), mark)
    decreases |steps|
  {
    if steps != [] {
      NextPreservesWf(ch, steps[0]);
      NextKeepsDrains(ch, steps[0], mark);
      RunKeepsDrains(Next(ch, steps[0]), steps[1..], mark);
    }
  }

  /**
   * Whatever happens after the first close(), the backend's `close` is
   * called only with the resolved state, and only once every send issued
   * before that close() (already in flight, or still waiting for
   * readiness) has been fulfilled.
   */
  lemma CloseWaitsForEarlierSends(ch: Channel, steps: seq<Step>)
    requires Wf(ch) && !ch.closed
    ensures var mark := |ch.sends| + SendsAhead(ch.queue);
            var f := Run(CloseChannel(ch), steps);
            CloseCalls(f.trace) > 0 ==>
              && f.state.Some?
              && (forall k :: 0 <= k < |f.trace| && f.trace[k].CloseBackend? ==> f.trace[k] == CloseBackend(f.state))
              && mark <= |f.sends| && forall i :: 0 <= i < mark ==> f.sends[i] == Fulfilled
  {
    var mark := |ch.sends| + SendsAhead(ch.queue);
    QueueAppend(ch.queue, CloseTask);
    var c := CloseChannel(ch);
    CloseChannelWf(ch);
    assert DrainsBefore(c, mark);
    RunKeepsDrains(c, steps, mark);
    RunPreservesWf(c, steps);
    var f := Run(c, steps);
    forall k | 0 <= k < |f.trace| && f.trace[k].CloseBackend?
      ensures f.trace[k] == CloseBackend(f.state)
    {
      assert CarriesHandle(f.trace[k], f.state);
    }
  }

  /** The invocations of `hooks`, in order, form the block of `t` starting at position `p`. */
  predicate HooksAt(t: seq<Effect>, hooks: seq<nat>, p: nat) {
    p + |hooks| <= |t| && t[p..p + |hooks|] == HookEffects(hooks)
  }

  lemma HooksAtExtend(t: seq<Effect>, u: seq<Effect>, hooks: seq<nat>, p: nat)
    requires HooksAt(t, hooks, p) && t <= u
    ensures HooksAt(u, hooks, p)
  {
    assert u[p..p + |hooks|] == t[p..p + |hooks|];
  }

  /**
   * After the first close(), with `hooks0` the before-close hooks registered
   * by then: the pipeline will invoke every one of them (the hooks it reads
   * are the list as it stands once the sends are drained, which only grows);
   * once it has, their invocations form one block of the trace; and on
   * release the backend's `close` comes after that block.
   */
  ghost predicate HooksFirst(ch: Channel, hooks0: seq<nat>) {
    match ch.stage
    case Open => false
    case AwaitPrepare => hooks0 <= ch.beforeClose
    case AwaitSends(_) => hooks0 <= ch.beforeClose
    case AwaitHooks(inv) => hooks0 <= inv && exists p: nat :: HooksAt(ch.trace, inv, p)
    case Released(inv) =>
      && hooks0 <= inv && ch.state.Some?
      && exists p: nat, q: nat ::
           HooksAt(ch.trace, inv, p) && p + |inv| <= q < |ch.trace| && ch.trace[q] == CloseBackend(ch.state)
    case Failed => true
  }

  /** A step that keeps the stage and only extends the trace and the hook list keeps `HooksFirst`. */
  lemma HooksFirstExtend(a: Channel, b: Channel, hooks0: seq<nat>)
    requires HooksFirst(a, hooks0) && b.stage == a.stage && a.trace <= b.trace && a.beforeClose <= b.beforeClose
    requires a.stage.Released? ==> b.state == a.state
    ensures HooksFirst(b, hooks0)
  {
    match a.stage
    case AwaitHooks(inv) =>
      var p: nat :| HooksAt(a.trace, inv, p);
      HooksAtExtend(a.trace, b.trace, inv, p);
    case Released(inv) =>
      var p: nat, q: nat :| HooksAt(a.trace, inv, p) && p + |inv| <= q < |a.trace| && a.trace[q] == CloseBackend(a.state);
      HooksAtExtend(a.trace, b.trace, inv, p);
      assert b.trace[q] == a.trace[q];
    case _ =>
  }

  lemma InvokeKeepsHooksFirst(ch: Channel, s: Step, hooks0: seq<nat>)
    requires Wf(ch) && HooksFirst(ch, hooks0) && IsCall(s)
    ensures HooksFirst(Invoke(ch, s), hooks0)
  {
    var r := Invoke(ch, s);
    assert r.stage == ch.stage && r.state == ch.state && ch.trace <= r.trace by {
      match s
      case AddStep(cat, fn, now) =>
      case RemoveStep(cat, fn, now) =>
      case SetOnMessageStep(fn, now) =>
      case _ =>
    }
    assert ch.beforeClose <= r.beforeClose;
    HooksFirstExtend(ch, r, hooks0);
  }

  /** Running the queued callback, or settling a send, keeps `HooksFirst`. */
  lemma RunTaskKeepsHooksFirst(ch: Channel, hooks0: seq<nat>)
    requires Wf(ch) && HooksFirst(ch, hooks0) && ch.state.Some? && |ch.queue| > 0
    ensures HooksFirst(RunTask(ch), hooks0)
  {
    if !ch.queue[0].CloseTask? {
      HooksFirstExtend(ch, RunTask(ch), hooks0);
    }
  }

  lemma FinishSendsKeepsHooksFirst(ch: Channel, hooks0: seq<nat>)
    requires HooksFirst(ch, hooks0) && ch.stage.AwaitSends? && (SnapshotFulfilled(ch) || SnapshotRejected(ch))
    ensures HooksFirst(FinishSends(ch), hooks0)
  {
    var r := FinishSends(ch);
    if r.stage.AwaitHooks? {
      assert r.trace[|ch.trace|..|ch.trace| + |ch.beforeClose|] == HookEffects(ch.beforeClose);
      assert HooksAt(r.trace, ch.beforeClose, |ch.trace|);
    }
  }

  lemma FinishHooksKeepsHooksFirst(ch: Channel, ok: bool, hooks0: seq<nat>)
    requires Wf(ch) && HooksFirst(ch, hooks0) && ch.stage.AwaitHooks? && (ok || |ch.stage.invoked| > 0)
    ensures HooksFirst(FinishHooks(ch, ok), hooks0)
  {
    if ok {
      var inv := ch.stage.invoked;
      var r := FinishHooks(ch, ok);
      var p: nat :| HooksAt(ch.trace, inv, p);
      HooksAtExtend(ch.trace, r.trace, inv, p);
      assert r.trace[|ch.trace|] == CloseBackend(r.state);
    }
  }

  lemma ReactKeepsHooksFirst(ch: Channel, s: Step, hooks0: seq<nat>)
    requires Wf(ch) && HooksFirst(ch, hooks0) && !IsCall(s)
    ensures HooksFirst(React(ch, s), hooks0)
  {
    match s
    case ResolveStep(h) =>
      HooksFirstExtend(ch, React(ch, s), hooks0);
    case RunTaskStep =>
      if ch.state.Some? && |ch.queue| > 0 {
        RunTaskKeepsHooksFirst(ch, hooks0);
      }
    case SettleSendStep(i, ok) =>
      HooksFirstExtend(ch, React(ch, s), hooks0);
    case FinishSendsStep =>
      if ch.stage.AwaitSends? && (SnapshotFulfilled(ch) || SnapshotRejected(ch)) {
        FinishSendsKeepsHooksFirst(ch, hooks0);
      }
    case FinishHooksStep(ok) =>
      if ch.stage.AwaitHooks? && (ok || |ch.stage.invoked| > 0) {
        FinishHooksKeepsHooksFirst(ch, ok, hooks0);
      }
  }

  lemma {:induction false} RunKeepsHooksFirst(ch: Channel, steps: seq<Step>, hooks0: seq<nat>)
    requires Wf(ch) && HooksFirst(ch, hooks0)
    ensures HooksFirst(Run(ch, steps), hooks0)
    decreases |steps|
  {
    if steps != [] {
      NextPreservesWf(ch, steps[0]);
      if IsCall(steps[0]) {
        InvokeKeepsHooksFirst(ch, steps[0], hooks0);
      } else {
        ReactKeepsHooksFirst(ch, steps[0], hooks0);
      }
      RunKeepsHooksFirst(Next(ch, steps[0]), steps[1..], hooks0);
    }
  }

  /**
   * Whatever happens after the first close(), once the backend's `close` is
   * called the pipeline has invoked every before-close hook registered
   * before that close(), in registration order, and those invocations all
   * come before the backend call in the trace.
   */
  lemma CloseRunsHooksFirst(ch: Channel, steps: seq<Step>)
    requires Wf(ch) && !ch.closed
    ensures var f := Run(CloseChannel(ch), steps);
            CloseCalls(f.trace) > 0 ==>
              && f.stage.Released? && ch.beforeClose <= f.stage.invoked
              && exists p: nat, q: nat ::
                   && HooksAt(f.trace, f.stage.invoked, p) && p + |f.stage.invoked| <= q < |f.trace|
                   && f.trace[q] == CloseBackend(f.state)
  {
    var c := CloseChannel(ch);
    CloseChannelWf(ch);
    assert HooksFirst(c, ch.beforeClose);
    RunKeepsHooksFirst(c, steps, ch.beforeClose);
    RunPreservesWf(c, steps);
  }

  /** A rejected send in the close snapshot, or a failed pipeline: the backend will never be closed. */
  predicate Doomed(ch: Channel) {
    ch.stage == Failed ||
    (ch.stage.AwaitSends? && exists i :: i in ch.stage.snapshot && i < |ch.sends| && ch.sends[i] == Rejected)
  }

  lemma InvokeKeepsDoomed(ch: Channel, s: Step)
    requires Wf(ch) && Doomed(ch) && IsCall(s)
    ensures Doomed(Invoke(ch, s)) && Invoke(ch, s).stage == ch.stage && Invoke(ch, s).sends == ch.sends
  {
  }

  lemma ReactKeepsDoomed(ch: Channel, s: Step)
    requires Wf(ch) && Doomed(ch) && !IsCall(s)
    ensures Doomed(React(ch, s))
    ensures ch.stage == Failed ==> React(ch, s).stage == Failed
  {
    match s
    case RunTaskStep =>
      if ch.state.Some? && |ch.queue| > 0 {
        assert Closes(ch.queue) == (if ch.queue[0].CloseTask? then 1 else 0) + Closes(ch.queue[1..]);
      }
    case SettleSendStep(j, ok) =>
      if j < |ch.sends| && ch.sends[j] == InFlight && ch.stage.AwaitSends? {
        var i :| i in ch.stage.snapshot && i < |ch.sends| && ch.sends[i] == Rejected;
        assert SettleSend(ch, j, ok).sends[i] == Rejected;
      }
    case _ =>
  }

  lemma NextKeepsDoomed(ch: Channel, s: Step)
    requires Wf(ch) && Doomed(ch)
    ensures Doomed(Next(ch, s))
    ensures ch.stage == Failed ==> Next(ch, s).stage == Failed
  {
    if IsCall(s) {
      InvokeKeepsDoomed(ch, s);
    } else {
      ReactKeepsDoomed(ch, s);
    }
  }

  /**
   * A send that rejects is never removed from `_uMP`, so once such a send is
   * in the snapshot close waits for, the backend's `close` is never called,
   * whatever happens next.
   */
  lemma {:induction false} RejectedSendPreventsRelease(ch: Channel, steps: seq<Step>)
    requires Wf(ch) && Doomed(ch)
    ensures CloseCalls(Run(ch, steps).trace) == 0
    ensures Run(ch, steps).stage == Failed || Run(ch, steps).stage.AwaitSends?
    ensures ch.stage == Failed ==> Run(ch, steps).stage == Failed
    decreases |steps|
  {
    if steps != [] {
      NextPreservesWf(ch, steps[0]);
      NextKeepsDoomed(ch, steps[0]);
      RejectedSendPreventsRelease(Next(ch, steps[0]), steps[1..]);
    }
  }

  // ---------------------------------------------------------------------
  // What never changes, and the subscription discipline
  // ---------------------------------------------------------------------

  /**
   * The parts fixed at construction (name, options, chosen backend,
   * readiness mode, id) and the backend state once it exists.
   */
  predicate SameIdentity(a: Channel, b: Channel) {
    && b.id == a.id && b.name == a.name && b.options == a.options && b.backend == a.backend && b.deferred == a.deferred
    && (a.state.Some? ==> b.state == a.state)
  }

  lemma InvokeKeepsIdentity(ch: Channel, s: Step)
    requires IsCall(s)
    ensures SameIdentity(ch, Invoke(ch, s)) && (ch.closed ==> Invoke(ch, s).closed)
  {
    match s
    case PostMessageStep(d, now) =>
    case PostInternalStep(d, now) =>
    case SetOnMessageStep(fn, now) =>
    case AddStep(cat, fn, now) =>
    case RemoveStep(cat, fn, now) =>
    case CloseStep =>
    case PushHookStep(h) =>
  }

  lemma ReactKeepsIdentity(ch: Channel, s: Step)
    requires !IsCall(s)
    ensures SameIdentity(ch, React(ch, s)) && (ch.closed ==> React(ch, s).closed)
  {
    match s
    case ResolveStep(h) =>
    case RunTaskStep =>
    case SettleSendStep(i, ok) =>
    case FinishSendsStep =>
    case FinishHooksStep(ok) =>
  }

  lemma NextKeepsIdentity(ch: Channel, s: Step)
    ensures SameIdentity(ch, Next(ch, s))
    ensures ch.closed ==> Next(ch, s).closed
  {
    if IsCall(s) {
      InvokeKeepsIdentity(ch, s);
    } else {
      ReactKeepsIdentity(ch, s);
    }
  }

  /**
   * Nothing a channel goes through changes its name, options or backend, so
   * the `type` getter keeps answering the chosen backend's type; the backend
   * state never changes once it exists; and a closed channel stays closed.
   */
  lemma {:induction false} RunKeepsIdentity(ch: Channel, steps: seq<Step>)
    ensures SameIdentity(ch, Run(ch, steps)) && Type(Run(ch, steps)) == ch.backend.kind
    ensures ch.closed ==> IsClosed(Run(ch, steps))
    decreases |steps|
  {
    if steps != [] {
      NextKeepsIdentity(ch, steps[0]);
      RunKeepsIdentity(Next(ch, steps[0]), steps[1..]);
    }
  }

  /**
   * With a synchronous create, on every path: the backend sees subscribe
   * and unsubscribe calls strictly alternating, starting with a subscribe,
   * `_iL` is set exactly after a subscribe, and while the channel is open a
   * subscription is active exactly when some listener is registered.
   */
  lemma SyncSubscriptionDiscipline(ch: Channel, steps: seq<Step>)
    requires Wf(ch) && !ch.deferred
    ensures var f := Run(ch, steps);
            && Alternates(Toggles(f.trace))
            && (f.listening <==> |Toggles(f.trace)| % 2 == 1)
            && (!f.closed ==> (f.listening <==> HasMessageListeners(f)))
  {
    RunPreservesWf(ch, steps);
    RunKeepsIdentity(ch, steps);
  }

  /** Replaying two step sequences one after the other. */
  lemma {:induction false} RunAppend(ch: Channel, a: seq<Step>, b: seq<Step>)
    ensures Run(ch, a + b) == Run(Run(ch, a), b)
    decreases |a|
  {
    if a == [] {
      assert a + b == b;
    } else {
      assert (a + b)[0] == a[0] && (a + b)[1..] == a[1..] + b;
      RunAppend(Next(ch, a[0]), a[1..], b);
    }
  }

  /**
   * With an asynchronous create the subscription flag is only set once
   * readiness is reached, so two listeners added before that each queue a
   * subscription: the backend receives two subscribe calls in a row.
   */
  lemma DeferredCanDoubleSubscribe(ch: Channel, f1: Fn, f2: Fn, h: Handle, t1: int, t2: int)
    requires Wf(ch) && ch.deferred && ch.state.None? && ch.queue == []
    ensures Toggles(Run(ch, [AddStep(Message, f1, t1), AddStep(Message, f2, t2),
                             ResolveStep(h), RunTaskStep, RunTaskStep]).trace)
            == Toggles(ch.trace) + [true, true]
  {
    var early := [AddStep(Message, f1, t1), AddStep(Message, f2, t2)];
    var late := [ResolveStep(h), RunTaskStep, RunTaskStep];
    TwoEarlyAdds(ch, f1, f2, t1, t2);
    ResolveThenSubscribeTwice(Run(ch, early), h, t1, t2);
    RunAppend(ch, early, late);
    assert early + late == [AddStep(Message, f1, t1), AddStep(Message, f2, t2), ResolveStep(h), RunTaskStep, RunTaskStep];
  }

  /** Before readiness, each of two listeners queues its own subscription. */
  lemma TwoEarlyAdds(ch: Channel, f1: Fn, f2: Fn, t1: int, t2: int)
    requires Wf(ch) && ch.deferred && ch.state.None? && ch.queue == []
    ensures var c := Run(ch, [AddStep(Message, f1, t1), AddStep(Message, f2, t2)]);
            c.queue == [SubscribeTask(t1), SubscribeTask(t2)] && c.trace == ch.trace && c.deferred && c.state.None?
  {
    var c1 := Next(ch, AddStep(Message, f1, t1));
    assert c1.queue == [SubscribeTask(t1)] && !c1.listening;
    var c2 := Next(c1, AddStep(Message, f2, t2));
    assert Run(ch, [AddStep(Message, f1, t1), AddStep(Message, f2, t2)]) == Run(c1, [AddStep(Message, f2, t2)]);
    assert Run(c1, [AddStep(Message, f2, t2)]) == Run(c2, []);
  }

  /** Once readiness is reached, the two queued subscriptions both reach the backend. */
  lemma ResolveThenSubscribeTwice(c: Channel, h: Handle, t1: int, t2: int)
    requires c.queue == [SubscribeTask(t1), SubscribeTask(t2)] && c.deferred && c.state.None?
    ensures Toggles(Run(c, [ResolveStep(h), RunTaskStep, RunTaskStep]).trace) == Toggles(c.trace) + [true, true]
  {
    var c3 := Next(c, ResolveStep(h));
    var c4 := Next(c3, RunTaskStep);
    assert c4.trace == c.trace + [Subscribe(Some(h), t1)] && c4.queue == [SubscribeTask(t2)] && c4.state == Some(h);
    var c5 := Next(c4, RunTaskStep);
    assert Run(c, [ResolveStep(h), RunTaskStep, RunTaskStep]) == Run(c3, [RunTaskStep, RunTaskStep]);
    assert Run(c3, [RunTaskStep, RunTaskStep]) == Run(c4, [RunTaskStep]);
    assert Run(c4, [RunTaskStep]) == Run(c5, []);
    assert c5.trace == c4.trace + [Subscribe(Some(h), t2)];
    AppendEffect(c.trace, Subscribe(Some(h), t1));
    AppendEffect(c4.trace, Subscribe(Some(h), t2));
  }

  // ---------------------------------------------------------------------
  // close() and enforced options
  // ---------------------------------------------------------------------

  /** A second close() changes neither the channel nor the registry. */
  lemma CloseIsIdempotent(w: World, ch: Channel)
    ensures var (w1, c1) := Close(w, ch);
            Close(w1, c1) == (w1, c1) && !(ch.id in w1.open && !ch.closed)
  {
  }

  /**
   * `enforceOptions(e)` touches neither the registry nor the id counter;
   * afterwards a channel is built from `e` whatever it is passed, and after
   * `enforceOptions(undefined)` from the options it is passed again.
   */
  lemma EnforceOptionsGoverns(w: World, e: Option<Options>, name: string, o: Options, env: Env, fill: Options -> Options, creation: Creation)
    ensures EnforceOptions(w, e).open == w.open && EnforceOptions(w, e).lastId == w.lastId
    ensures var made := New(EnforceOptions(w, e), name, o, env, fill, creation).1;
            made.Ok? ==> made.value.options == fill(if e.Some? then e.value else o)
  {
  }

  /** The `type` getter answers the type of the backend chosen at construction, whatever happens afterwards. */
  lemma TypeIsChosenBackend(w: World, name: string, o: Options, env: Env, fill: Options -> Options, creation: Creation, steps: seq<Step>)
    ensures var made := New(w, name, o, env, fill, creation).1;
            made.Ok? ==> Type(Run(made.value, steps)) == ChooseMethod(EffectiveOptions(w, o, fill), env).value.kind
  {
    var made := New(w, name, o, env, fill, creation).1;
    if made.Ok? {
      RunKeepsIdentity(made.value, steps);
    }
  }

  /**
   * The `isClosed` getter: true from the first close() on, whatever happens
   * next; on a well-formed channel it holds exactly when the close pipeline
   * has started.
   */
  lemma IsClosedReflectsClose(ch: Channel, steps: seq<Step>)
    ensures IsClosed(Run(CloseChannel(ch), steps))
    ensures Wf(ch) ==> (IsClosed(ch) <==> !ch.stage.Open?)
  {
    RunKeepsIdentity(CloseChannel(ch), steps);
  }

  /** While options are enforced, the options passed to the constructor make no difference. */
  lemma EnforcedOptionsWin(w: World, name: string, o1: Options, o2: Options, env: Env, fill: Options -> Options, creation: Creation)
    requires w.enforced.Some?
    ensures New(w, name, o1, env, fill, creation) == New(w, name, o2, env, fill, creation)
  {
  }

  /**
   * Enforcing a 'simulate' type makes every channel constructed afterwards
   * use the simulate backend, whatever it asked for, provided filling in
   * defaults keeps the requested type.
   */
  lemma EnforcedSimulate(w: World, name: string, o: Options, e: Options, env: Env, fill: Options -> Options, creation: Creation)
    requires e.requestedType == Some(SIMULATE) && fill(e).requestedType == Some(SIMULATE)
    ensures var made := New(EnforceOptions(w, Some(e)), name, o, env, fill, creation).1;
            made.Ok? && Type(made.value) == SIMULATE
  {
  }
}

