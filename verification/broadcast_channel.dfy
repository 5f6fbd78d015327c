/**
 * The BroadcastChannel object of src/broadcast-channel.js: its record of
 * state, the process-wide registry and enforced options, and the
 * synchronous part of every public operation.
 *
 * The backend is abstract: every call the channel makes on it (create,
 * postMessage, onMessage, close) and every before-close hook it runs is
 * appended to `trace`. Work the source defers behind a promise (sends,
 * subscriptions awaiting `_prepP`, the close pipeline) is queued as a Task
 * and carried out by the Scheduler module.
 */
module BroadcastChannel {
  import opened Common
  import opened Listeners
  import opened MethodChooser

  /** A message payload; the channel never inspects it. */
  type Data = int

  /** The opaque backend state `_state` produced by `method.create`. */
  datatype Handle = Handle(token: nat)

  /** `msgObj`: the envelope handed to the backend's `postMessage`. */
  datatype Envelope = Envelope(time: int, category: Category, data: Data)

  /** A call the channel makes on its backend, or a before-close hook it runs. */
  datatype Effect =
    | Create(name: string, options: Options)
    | Send(state: Option<Handle>, msg: Envelope)
    | Subscribe(state: Option<Handle>, time: int)
    | Unsubscribe(state: Option<Handle>, time: int)
    | RunHook(hook: nat)
    | CloseBackend(state: Option<Handle>)

  /** A callback waiting on readiness (`_prepP`, or the already resolved promise when create was synchronous). */
  datatype Task = SendTask(msg: Envelope) | SubscribeTask(time: int) | CloseTask

  /** How a backend send promise has settled so far. */
  datatype SendState = InFlight | Fulfilled | Rejected

  /** Progress of the promise chain the first close() returns. */
  datatype CloseStage =
    | Open
    | AwaitPrepare
    | AwaitSends(snapshot: set<nat>)
    | AwaitHooks(invoked: seq<nat>)   // the hooks invoked, in order, whose promises are awaited
    | Released(invoked: seq<nat>)
    | Failed

  /** What `method.create` returned: the state itself, or a promise of it. */
  datatype Creation = Immediate(handle: Handle) | Deferred

  datatype Channel = Channel(
    id: nat,
    name: string,
    options: Options,
    backend: Method,             // this.method
    closed: bool,
    listening: bool,              // _iL
    onML: Option<Listener>,       // _onML
    message: seq<Listener>,       // _addEL.message
    internal: seq<Listener>,      // _addEL.internal
    pending: set<nat>,            // _uMP, holding send numbers
    sends: seq<SendState>,        // every send promise issued so far, by send number
    beforeClose: seq<nat>,        // _befC
    deferred: bool,               // _prepP is set
    state: Option<Handle>,        // _state, None until create has produced it
    queue: seq<Task>,             // callbacks waiting on readiness, in registration order
    stage: CloseStage,
    nextObj: nat,                 // identity of the next listener object allocated
    trace: seq<Effect>)

  /** Module-level state: `OPEN_BROADCAST_CHANNELS` (by id), `lastId`, `ENFORCED_OPTIONS`. */
  datatype World = World(open: set<nat>, lastId: nat, enforced: Option<Options>)

  datatype ChannelError = PostAfterClose(data: Data)

  /** `enforceOptions(options)`: every channel constructed afterwards uses `options` (None resets). */
  function EnforceOptions(w: World, options: Option<Options>): World {
    w.(enforced := options)
  }

  /** The options a new channel resolves: the enforced ones when set, then `fillOptionsWithDefaults`. */
  function EffectiveOptions(w: World, options: Options, fill: Options -> Options): Options {
    fill(if w.enforced.Some? then w.enforced.value else options)
  }

  /**
   * `new BroadcastChannel(name, options)`. The id is taken and the channel
   * registered as open before `chooseMethod` runs, so a constructor that
   * throws still consumes an id and leaves it in the open registry.
   */
  function New(w: World, name: string, options: Options, env: Env, fill: Options -> Options, creation: Creation)
    : (r: (World, Result<Channel, ChooseError>))
    ensures r.0.open == w.open + {w.lastId} && r.0.lastId == w.lastId + 1 && r.0.enforced == w.enforced
    ensures r.1.Ok? <==> ChooseMethod(EffectiveOptions(w, options, fill), env).Ok?
    ensures r.1.Err? ==> r.1.error == ChooseMethod(EffectiveOptions(w, options, fill), env).error
    ensures r.1.Ok? ==>
              var ch := r.1.value;
              && ch.id == w.lastId && ch.name == name
              && ch.options == EffectiveOptions(w, options, fill)
              && ch.backend == ChooseMethod(ch.options, env).value
              && !ch.closed && !ch.listening && ch.onML.None? && ch.message == [] && ch.internal == []
              && ch.pending == {} && ch.queue == [] && ch.stage == Open
              && ch.trace == [Create(name, ch.options)]
              && (ch.deferred <==> creation.Deferred?)
              && (creation.Immediate? ==> ch.state == Some(creation.handle))
              && (creation.Deferred? ==> ch.state.None?)
  {
    var id := w.lastId;
    var w' := w.(open := w.open + {id}, lastId := w.lastId + 1);
    var resolved := EffectiveOptions(w, options, fill);
    match ChooseMethod(resolved, env)
    case Err(e) => (w', Err(e))
    case Ok(m) =>
      var ch := Channel(
        id := id, name := name, options := resolved, backend := m,
        closed := false, listening := false, onML := None, message := [], internal := [],
        pending := {}, sends := [], beforeClose := [],
        deferred := false, state := None, queue := [], stage := Open,
        nextObj := 0, trace := []);
      (w', Ok(PrepareChannel(ch, creation)))
  }

  /**
   * `_prepareChannel`: `create` is called once, with the channel's name and
   * options. A state returned synchronously is kept and the channel needs
   * no readiness wait; a promise makes `_prepP` set and leaves the state to
   * its resolution. Nothing else changes.
   */
  function PrepareChannel(ch: Channel, creation: Creation): (r: Channel)
    ensures r.trace == ch.trace + [Create(ch.name, ch.options)]
    ensures creation.Immediate? ==> r.state == Some(creation.handle) && r.deferred == ch.deferred
    ensures creation.Deferred? ==> r.deferred && r.state == ch.state
    ensures r == ch.(trace := r.trace, state := r.state, deferred := r.deferred)
  {
    var ch' := ch.(trace := ch.trace + [Create(ch.name, ch.options)]);
    match creation
    case Immediate(h) => ch'.(state := Some(h))
    case Deferred => ch'.(deferred := true)
  }

  function ListOf(ch: Channel, cat: Category): seq<Listener> {
    match cat
    case Message => ch.message
    case Internal => ch.internal
  }

  function WithList(ch: Channel, cat: Category, ls: seq<Listener>): Channel {
    match cat
    case Message => ch.(message := ls)
    case Internal => ch.(internal := ls)
  }

  function Other(cat: Category): Category {
    match cat
    case Message => Internal
    case Internal => Message
  }

  /** `_hasMessageListeners`: some listener of either category is registered. */
  predicate HasMessageListeners(ch: Channel)
    ensures HasMessageListeners(ch) <==> exists l :: l in ch.message || l in ch.internal
  {
    assert |ch.message| > 0 ==> ch.message[0] in ch.message;
    assert |ch.internal| > 0 ==> ch.internal[0] in ch.internal;
    |ch.message| > 0 || |ch.internal| > 0
  }

  /**
   * `_startListening`: a subscription is requested exactly when someone
   * listens and none is active. With a synchronous create the flag is set
   * and `onMessage` is called at once; otherwise both wait behind `_prepP`.
   * The listener lists and the send and close bookkeeping are untouched.
   */
  function StartListening(ch: Channel, now: int): (r: Channel)
    ensures r.message == ch.message && r.internal == ch.internal && r.onML == ch.onML && r.nextObj == ch.nextObj
    ensures SameSendsAndLifecycle(ch, r)
    ensures !ch.listening && HasMessageListeners(ch) && !ch.deferred ==>
              r.listening && r.queue == ch.queue && r.trace == ch.trace + [Subscribe(ch.state, now)]
    ensures !ch.listening && HasMessageListeners(ch) && ch.deferred ==>
              r.listening == ch.listening && r.trace == ch.trace && r.queue == ch.queue + [SubscribeTask(now)]
    ensures ch.listening || !HasMessageListeners(ch) ==> r == ch
  {
    if !ch.listening && HasMessageListeners(ch) then
      if ch.deferred then ch.(queue := ch.queue + [SubscribeTask(now)])
      else ch.(listening := true, trace := ch.trace + [Subscribe(ch.state, now)])
    else ch
  }

  /**
   * `_stopListening`: the subscription is dropped, with one `onMessage(null)`
   * call, exactly when it is active and nobody listens; nothing waits for
   * readiness and nothing else changes.
   */
  function StopListening(ch: Channel, now: int): (r: Channel)
    ensures r.message == ch.message && r.internal == ch.internal && r.onML == ch.onML && r.nextObj == ch.nextObj
    ensures SameSendsAndLifecycle(ch, r) && r.queue == ch.queue
    ensures r.listening == (ch.listening && HasMessageListeners(ch))
    ensures r.trace == ch.trace + (if ch.listening && !HasMessageListeners(ch) then [Unsubscribe(ch.state, now)] else [])
  {
    if ch.listening && !HasMessageListeners(ch) then
      ch.(listening := false, trace := ch.trace + [Unsubscribe(ch.state, now)])
    else ch
  }

  /**
   * `_addListenerObject`: `l` joins the end of its category's list; then
   * someone listens, so a subscription is requested unless one is active.
   */
  function AddListenerObject(ch: Channel, cat: Category, l: Listener, now: int): (r: Channel)
    ensures ListOf(r, cat) == ListOf(ch, cat) + [l] && ListOf(r, Other(cat)) == ListOf(ch, Other(cat))
    ensures r.onML == ch.onML && r.nextObj == ch.nextObj && SameSendsAndLifecycle(ch, r)
    ensures !ch.deferred ==>
              r.listening && r.queue == ch.queue &&
              r.trace == ch.trace + (if ch.listening then [] else [Subscribe(ch.state, now)])
    ensures ch.deferred ==>
              r.listening == ch.listening && r.trace == ch.trace &&
              r.queue == ch.queue + (if ch.listening then [] else [SubscribeTask(now)])
  {
    WithListFrame(ch, cat, ListOf(ch, cat) + [l]);
    StartListening(WithList(ch, cat, ListOf(ch, cat) + [l]), now)
  }

  /** The list with the object `obj` removed (line 241); a null or undefined `obj` matches nothing. */
  function Without(ls: seq<Listener>, obj: Option<Listener>): seq<Listener> {
    match obj
    case None => ls
    case Some(l) => RemoveObject(ls, l.obj)
  }

  /**
   * `_removeListenerObject`: `obj` leaves its category's list (the other list
   * is untouched); the subscription is dropped, with one backend call,
   * exactly when it was active and nobody listens any more.
   */
  function RemoveListenerObject(ch: Channel, cat: Category, obj: Option<Listener>, now: int): (r: Channel)
    ensures ListOf(r, cat) == Without(ListOf(ch, cat), obj) && ListOf(r, Other(cat)) == ListOf(ch, Other(cat))
    ensures r.onML == ch.onML && r.nextObj == ch.nextObj && r.queue == ch.queue && SameSendsAndLifecycle(ch, r)
    ensures r.listening == (ch.listening && HasMessageListeners(r))
    ensures r.trace == ch.trace + (if ch.listening && !HasMessageListeners(r) then [Unsubscribe(ch.state, now)] else [])
  {
    WithListFrame(ch, cat, Without(ListOf(ch, cat), obj));
    StopListening(WithList(ch, cat, Without(ListOf(ch, cat), obj)), now)
  }

  /** The parts of a channel that registering or removing a listener never touches. */
  predicate SameSendsAndLifecycle(a: Channel, b: Channel) {
    && b.id == a.id && b.name == a.name && b.options == a.options && b.backend == a.backend
    && b.closed == a.closed && b.pending == a.pending && b.sends == a.sends
    && b.beforeClose == a.beforeClose && b.deferred == a.deferred && b.state == a.state && b.stage == a.stage
  }

  /**
   * `addEventListener(type, fn)`: a fresh listener stamped with the current
   * clock joins the end of its category's list. With a synchronous create
   * the subscription is active afterwards, and a backend subscribe call is
   * issued exactly when none was active before.
   */
  function AddEventListener(ch: Channel, cat: Category, fn: Fn, now: int): (r: Channel)
    ensures ListOf(r, cat) == ListOf(ch, cat) + [Listener(ch.nextObj, now, fn)]
    ensures ListOf(r, Other(cat)) == ListOf(ch, Other(cat))
    ensures r.nextObj == ch.nextObj + 1 && r.onML == ch.onML && SameSendsAndLifecycle(ch, r)
    ensures !ch.deferred ==>
              r.listening && r.queue == ch.queue &&
              r.trace == ch.trace + (if ch.listening then [] else [Subscribe(ch.state, now)])
    ensures ch.deferred ==>
              r.listening == ch.listening && r.trace == ch.trace &&
              r.queue == ch.queue + (if ch.listening then [] else [SubscribeTask(now)])
  {
    AddListenerObject(ch.(nextObj := ch.nextObj + 1), cat, Listener(ch.nextObj, now, fn), now)
  }

  /**
   * `removeEventListener(type, fn)`: the first registration of `fn` in that
   * category goes and nothing else does; an unregistered `fn` changes no
   * list. The subscription is dropped, with one backend unsubscribe call,
   * exactly when it was active and no listener of either category remains.
   */
  function RemoveEventListener(ch: Channel, cat: Category, fn: Fn, now: int): (r: Channel)
    ensures ListOf(r, cat) == Without(ListOf(ch, cat), FindByFn(ListOf(ch, cat), fn))
    ensures ListOf(r, Other(cat)) == ListOf(ch, Other(cat))
    ensures r.listening == (ch.listening && HasMessageListeners(r))
    ensures r.trace == ch.trace + (if ch.listening && !HasMessageListeners(r) then [Unsubscribe(ch.state, now)] else [])
    ensures r.queue == ch.queue && r.onML == ch.onML && r.nextObj == ch.nextObj && SameSendsAndLifecycle(ch, r)
  {
    RemoveListenerObject(ch, cat, FindByFn(ListOf(ch, cat), fn), now)
  }

  lemma WithListFrame(ch: Channel, cat: Category, ls: seq<Listener>)
    ensures ListOf(WithList(ch, cat, ls), cat) == ls
    ensures ListOf(WithList(ch, cat, ls), Other(cat)) == ListOf(ch, Other(cat))
    ensures WithList(ch, cat, ls) == ch.(message := WithList(ch, cat, ls).message, internal := WithList(ch, cat, ls).internal)
  {
  }

  /** The first listener of the list whose callback is `fn`, if any (line 150). */
  function FindByFn(ls: seq<Listener>, fn: Fn): Option<Listener> {
    match FirstIndex(ls, FnIs(fn))
    case Some(i) => Some(ls[i])
    case None => None
  }

  /**
   * `removeEventListener` removes exactly the first registration of `fn` in
   * its category, given that no object appears twice in that list; an
   * unregistered `fn` leaves the list as it was.
   */
  lemma RemoveEventListenerRemovesFirst(ch: Channel, cat: Category, fn: Fn, now: int)
    requires UniqueObjs(ListOf(ch, cat))
    ensures var ls := ListOf(ch, cat);
            var r := ListOf(RemoveEventListener(ch, cat, fn, now), cat);
            match FirstIndex(ls, FnIs(fn))
            case Some(i) => r == ls[..i] + ls[i + 1..] && ls[i].fn == fn && (forall j :: 0 <= j < i ==> ls[j].fn != fn)
            case None => r == ls && forall l :: l in ls ==> l.fn != fn
  {
    RemoveFirstByFn(ListOf(ch, cat), fn);
  }

  /**
   * The `onmessage` setter. A function replaces the previous slot listener:
   * the old slot object leaves the message list and a fresh one, the only
   * entry with its identity, joins the end. Anything else clears the slot.
   * Internal listeners are untouched either way.
   */
  function SetOnMessage(ch: Channel, fn: Option<Fn>, now: int): (r: Channel)
    ensures r.internal == ch.internal && r.nextObj == ch.nextObj + 1 && SameSendsAndLifecycle(ch, r)
    ensures r.queue == ch.queue || r.queue == ch.queue + [SubscribeTask(now)]
    ensures ch.trace <= r.trace
    ensures fn.None? ==> r.onML.None? && r.message == Without(ch.message, ch.onML)
    ensures fn.Some? ==>
              var slot := Listener(ch.nextObj, now, fn.value);
              && r.onML == Some(slot)
              && r.message == Without(ch.message, ch.onML) + [slot]
              && ((forall l :: l in ch.message ==> l.obj < ch.nextObj) ==>
                    forall i :: 0 <= i < |r.message| - 1 ==> r.message[i].obj != slot.obj)
    ensures forall l :: l in ch.message && (ch.onML.None? || l.obj != ch.onML.value.obj) ==> l in r.message
  {
    var c := DropSlot(ch, now);
    DropSlotFrame(ch, now);
    match fn
    case Some(f) =>
      InstallSlotFrame(c, Listener(ch.nextObj, now, f), now);
      InstallSlot(c, Listener(ch.nextObj, now, f), now)
    case None => c.(onML := None)
  }

  lemma DropSlotFrame(ch: Channel, now: int)
    ensures var c := DropSlot(ch, now);
            && c.message == Without(ch.message, ch.onML) && c.internal == ch.internal
            && c.nextObj == ch.nextObj + 1 && SameSendsAndLifecycle(ch, c) && c.queue == ch.queue
            && ch.trace <= c.trace
  {
  }

  lemma InstallSlotFrame(c: Channel, slot: Listener, now: int)
    ensures var r := InstallSlot(c, slot, now);
            && r.message == c.message + [slot] && r.internal == c.internal && r.onML == Some(slot)
            && r.nextObj == c.nextObj && SameSendsAndLifecycle(c, r)
            && (r.queue == c.queue || r.queue == c.queue + [SubscribeTask(now)])
            && c.trace <= r.trace
  {
  }

  /** The first half of the setter: remove the old slot listener; the new listener object is allocated too. */
  function DropSlot(ch: Channel, now: int): Channel {
    RemoveListenerObject(ch, Message, ch.onML, now).(nextObj := ch.nextObj + 1)
  }

  /** The second half when a function is set: it becomes the slot and joins the message list. */
  function InstallSlot(c: Channel, slot: Listener, now: int): Channel {
    AddListenerObject(c.(onML := Some(slot)), Message, slot, now)
  }

  /**
   * `_post`: the envelope is stamped now and its send queued behind
   * readiness; no backend call is made synchronously and nothing else changes.
   */
  function Post(ch: Channel, cat: Category, data: Data, now: int): (r: Channel)
    ensures r.queue == ch.queue + [SendTask(Envelope(now, cat, data))]
    ensures r.trace == ch.trace && r.pending == ch.pending && r.sends == ch.sends && r.stage == ch.stage
    ensures r.listening == ch.listening && r.message == ch.message && r.internal == ch.internal
  {
    ch.(queue := ch.queue + [SendTask(Envelope(now, cat, data))])
  }

  /**
   * `postMessage(msg)`: on a closed channel it throws, carrying the payload,
   * and touches nothing; otherwise it queues one send and makes no backend
   * call yet.
   */
  function PostMessage(ch: Channel, data: Data, now: int): (r: Result<Channel, ChannelError>)
    ensures r.Err? <==> ch.closed
    ensures r.Err? ==> r.error == PostAfterClose(data)
    ensures r.Ok? ==>
              && r.value.trace == ch.trace && r.value.pending == ch.pending && r.value.sends == ch.sends
              && r.value.queue == ch.queue + [SendTask(Envelope(now, Message, data))]
  {
    if ch.closed then Err(PostAfterClose(data))
    else Ok(Post(ch, Message, data, now))
  }

  /** `postInternal(msg)`: like postMessage in the internal category, and without the closed check. */
  function PostInternal(ch: Channel, data: Data, now: int): (r: Channel)
    ensures r.trace == ch.trace && r.pending == ch.pending && r.sends == ch.sends
    ensures r.queue == ch.queue + [SendTask(Envelope(now, Internal, data))]
  {
    Post(ch, Internal, data, now)
  }

  /**
   * The channel part of `close()`. A second call changes nothing. The first
   * marks the channel closed, clears the onmessage slot and the message
   * listeners (internal ones stay), leaves the subscription flag alone, and
   * queues the rest of the pipeline behind readiness; no backend call is
   * made synchronously.
   */
  function CloseChannel(ch: Channel): (r: Channel)
    ensures ch.closed ==> r == ch
    ensures !ch.closed ==>
              && r.closed && r.onML.None? && r.message == [] && r.internal == ch.internal
              && r.listening == ch.listening && r.trace == ch.trace && r.pending == ch.pending
              && r.queue == ch.queue + [CloseTask] && r.stage == AwaitPrepare
  {
    if ch.closed then ch
    else ch.(closed := true, onML := None, message := [], queue := ch.queue + [CloseTask], stage := AwaitPrepare)
  }

  /** `close()`: the first call also removes the channel from the open registry. */
  function Close(w: World, ch: Channel): (r: (World, Channel))
    ensures ch.closed ==> r == (w, ch)
    ensures !ch.closed ==> r.0 == w.(open := w.open - {ch.id}) && r.1 == CloseChannel(ch)
  {
    if ch.closed then (w, ch)
    else (w.(open := w.open - {ch.id}), CloseChannel(ch))
  }

  /** The `type` getter. */
  function Type(ch: Channel): string {
    ch.backend.kind
  }

  /** The `isClosed` getter. */
  predicate IsClosed(ch: Channel) {
    ch.closed
  }

  /** Code outside the channel appends a before-close hook to `_befC`. */
  function PushBeforeClose(ch: Channel, hook: nat): Channel {
    ch.(beforeClose := ch.beforeClose + [hook])
  }

  /**
   * `listenerFn(msgObj)`: the listeners of the message's category whose
   * replay window covers its timestamp, in list order. When no object is in
   * both lists, no listener of the other category is ever invoked.
   */
  function ListenerFn(ch: Channel, msg: Envelope): (r: seq<Listener>)
    ensures forall l :: l in r <==> l in ListOf(ch, msg.category) && Accepts(l, msg.time)
    ensures DisjointObjs(ch.message, ch.internal) ==> forall l :: l in r ==> l !in ListOf(ch, Other(msg.category))
  {
    Dispatch(ListOf(ch, msg.category), msg.time)
  }
}
