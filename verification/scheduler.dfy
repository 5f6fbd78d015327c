/**
 * The asynchronous side of a channel: what happens when the readiness
 * promise resolves, when a queued callback runs, when a backend send
 * promise settles, and how the close pipeline advances. Every public
 * operation and every such event is one Step; `Run` replays a sequence of
 * them, so properties of all interleavings can be stated over `Run`.
 */
module Scheduler {
  import opened Common
  import opened Listeners
  import opened BroadcastChannel

  /** `_prepP` resolves with the backend state (`channel._state = s`). */
  function Resolve(ch: Channel, h: Handle): (r: Channel)
    requires ch.state.None?
    ensures r.state == Some(h) && r.trace == ch.trace && r.queue == ch.queue
  {
    ch.(state := Some(h))
  }

  /**
   * The oldest callback waiting on readiness runs. A send calls the
   * backend's `postMessage` and its promise joins `_uMP`; a deferred
   * subscription sets `_iL` and calls `onMessage`; the close callback takes
   * the snapshot of `_uMP` that close waits for.
   */
  function RunTask(ch: Channel): (r: Channel)
    requires ch.state.Some? && |ch.queue| > 0
    ensures r.queue == ch.queue[1..]
    ensures ch.queue[0].SendTask? ==>
              && r.trace == ch.trace + [Send(ch.state, ch.queue[0].msg)]
              && r.sends == ch.sends + [InFlight] && r.pending == ch.pending + {|ch.sends|}
    ensures ch.queue[0].SubscribeTask? ==>
              r.listening && r.trace == ch.trace + [Subscribe(ch.state, ch.queue[0].time)]
    ensures ch.queue[0].CloseTask? ==> r.stage == AwaitSends(ch.pending) && r.trace == ch.trace
    // nothing else changes
    ensures r == ch.(queue := r.queue, trace := r.trace, sends := r.sends, pending := r.pending,
                     listening := r.listening, stage := r.stage)
  {
    var rest := ch.(queue := ch.queue[1..]);
    match ch.queue[0]
    case SendTask(msg) =>
      rest.(trace := ch.trace + [Send(ch.state, msg)],
            sends := ch.sends + [InFlight],
            pending := ch.pending + {|ch.sends|})
    case SubscribeTask(time) =>
      rest.(listening := true, trace := ch.trace + [Subscribe(ch.state, time)])
    case CloseTask =>
      rest.(stage := AwaitSends(ch.pending))
  }

  /**
   * A backend send promise settles. Only fulfilment reaches the
   * `_uMP.delete`: `.catch()` without a handler passes a rejection on, so a
   * rejected send stays pending for good.
   */
  function SettleSend(ch: Channel, i: nat, ok: bool): (r: Channel)
    requires i < |ch.sends| && ch.sends[i] == InFlight
    ensures ok ==> r.sends == ch.sends[i := Fulfilled] && r.pending == ch.pending - {i}
    ensures !ok ==> r.sends == ch.sends[i := Rejected] && r.pending == ch.pending
    ensures r == ch.(sends := r.sends, pending := r.pending)
  {
    if ok then ch.(sends := ch.sends[i := Fulfilled], pending := ch.pending - {i})
    else ch.(sends := ch.sends[i := Rejected])
  }

  predicate SnapshotFulfilled(ch: Channel)
    requires ch.stage.AwaitSends?
  {
    forall i :: i in ch.stage.snapshot ==> i < |ch.sends| && ch.sends[i] == Fulfilled
  }

  predicate SnapshotRejected(ch: Channel)
    requires ch.stage.AwaitSends?
  {
    exists i :: i in ch.stage.snapshot && i < |ch.sends| && ch.sends[i] == Rejected
  }

  /** The before-close hooks as invoked, in registration order. */
  function HookEffects(hooks: seq<nat>): (r: seq<Effect>)
    ensures |r| == |hooks|
    ensures forall i :: 0 <= i < |hooks| ==> r[i] == RunHook(hooks[i])
  {
    if hooks == [] then [] else [RunHook(hooks[0])] + HookEffects(hooks[1..])
  }

  /**
   * `Promise.all` over the snapshot settles: it rejects as soon as one send
   * in it was rejected, which ends the pipeline; once every send in it is
   * fulfilled, the `_befC` hooks registered by then are invoked, in order,
   * and the pipeline awaits exactly their promises.
   */
  function FinishSends(ch: Channel): (r: Channel)
    requires ch.stage.AwaitSends? && (SnapshotFulfilled(ch) || SnapshotRejected(ch))
    ensures SnapshotRejected(ch) ==> r.stage == Failed && r.trace == ch.trace
    ensures !SnapshotRejected(ch) ==>
              r.stage == AwaitHooks(ch.beforeClose) && r.trace == ch.trace + HookEffects(ch.beforeClose)
    ensures r == ch.(stage := r.stage, trace := r.trace)
  {
    if SnapshotRejected(ch) then ch.(stage := Failed)
    else ch.(stage := AwaitHooks(ch.beforeClose), trace := ch.trace + HookEffects(ch.beforeClose))
  }

  /**
   * `Promise.all` over the hooks' promises settles: on success the backend's
   * `close(_state)` is called, last. Only a hook can reject, so with no hook
   * invoked the pipeline always succeeds.
   */
  function FinishHooks(ch: Channel, ok: bool): (r: Channel)
    requires ch.stage.AwaitHooks? && (ok || |ch.stage.invoked| > 0)
    ensures ok ==> r.stage == Released(ch.stage.invoked) && r.trace == ch.trace + [CloseBackend(ch.state)]
    ensures !ok ==> r.stage == Failed && r.trace == ch.trace
    ensures r == ch.(stage := r.stage, trace := r.trace)
  {
    if ok then ch.(stage := Released(ch.stage.invoked), trace := ch.trace + [CloseBackend(ch.state)])
    else ch.(stage := Failed)
  }

  /** One public call on the channel, or one event from its surroundings. */
  datatype Step =
    | PostMessageStep(data: Data, now: int)
    | PostInternalStep(data: Data, now: int)
    | SetOnMessageStep(slot: Option<Fn>, now: int)
    | AddStep(cat: Category, fn: Fn, now: int)
    | RemoveStep(cat: Category, fn: Fn, now: int)
    | CloseStep
    | PushHookStep(hook: nat)
    | ResolveStep(handle: Handle)
    | RunTaskStep
    | SettleSendStep(index: nat, ok: bool)
    | FinishSendsStep
    | FinishHooksStep(ok: bool)

  /** Public calls on the channel, and code outside it registering a before-close hook. */
  predicate IsCall(s: Step) {
    s.PostMessageStep? || s.PostInternalStep? || s.SetOnMessageStep? || s.AddStep? ||
    s.RemoveStep? || s.CloseStep? || s.PushHookStep?
  }

  /** The channel after one call; a call that throws leaves it unchanged. */
  function Invoke(ch: Channel, s: Step): Channel
    requires IsCall(s)
  {
    match s
    case PostMessageStep(d, now) =>
      (match PostMessage(ch, d, now) case Ok(c) => c case Err(_) => ch)
    case PostInternalStep(d, now) => PostInternal(ch, d, now)
    case SetOnMessageStep(fn, now) => SetOnMessage(ch, fn, now)
    case AddStep(cat, fn, now) => AddEventListener(ch, cat, fn, now)
    case RemoveStep(cat, fn, now) => RemoveEventListener(ch, cat, fn, now)
    case CloseStep => CloseChannel(ch)
    case PushHookStep(h) => PushBeforeClose(ch, h)
  }

  /** The channel after one asynchronous event; an event that cannot happen in this state leaves it unchanged. */
  function React(ch: Channel, s: Step): Channel
    requires !IsCall(s)
  {
    match s
    case ResolveStep(h) => if ch.deferred && ch.state.None? then Resolve(ch, h) else ch
    case RunTaskStep => if ch.state.Some? && |ch.queue| > 0 then RunTask(ch) else ch
    case SettleSendStep(i, ok) =>
      if i < |ch.sends| && ch.sends[i] == InFlight then SettleSend(ch, i, ok) else ch
    case FinishSendsStep =>
      if ch.stage.AwaitSends? && (SnapshotFulfilled(ch) || SnapshotRejected(ch)) then FinishSends(ch) else ch
    case FinishHooksStep(ok) =>
      if ch.stage.AwaitHooks? && (ok || |ch.stage.invoked| > 0) then FinishHooks(ch, ok) else ch
  }

  /** The channel after one step. */
  function Next(ch: Channel, s: Step): Channel {
    if IsCall(s) then Invoke(ch, s) else React(ch, s)
  }

  /** The channel after a sequence of steps. */
  function Run(ch: Channel, steps: seq<Step>): Channel
    decreases |steps|
  {
    if steps == [] then ch else Run(Next(ch, steps[0]), steps[1..])
  }
}
