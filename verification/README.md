# BroadcastChannel core, modelled in Dafny

This project models the core of the `broadcast-channel` JavaScript library:

- the backend chooser `chooseMethod` with its default list `METHODS`;
- the `BroadcastChannel` object that sits on top of the chosen backend.

The channel object covers:

- construction: the id counter, the open-channel registry and enforced options;
- `postMessage` and `postInternal`;
- the `onmessage` setter;
- `addEventListener` and `removeEventListener`;
- `close` and its promise pipeline;
- the `type` and `isClosed` getters;
- the private helpers `_post`, `_prepareChannel`, `_hasMessageListeners`, `_addListenerObject`, `_removeListenerObject`, `_startListening` and `_stopListening`;
- `enforceOptions`.

Modules:

- `Common`: `Option`, `Result`, and `FirstIndex`, which models `Array.prototype.find`.
- `MethodChooser`: backends as the chooser sees them, i.e. a `type` plus the answer of `canBeUsed()`.
  - The runtime is a parameter `Env`. It holds `isNode` and each built-in backend's probe answer.
  - `ChooseMethod` states the whole decision procedure.
- `Listeners`: listener objects and what the channel does with them.
  - Each listener has an identity, a registration time and a callback.
  - Covered: removal by object identity, lookup by callback, and the 100 ms replay window of `listenerFn`.
- `BroadcastChannel`:
  - the channel record and the module-level `World` (registry, `lastId`, enforced options);
  - the synchronous part of every public operation.

  The backend is abstract. Every call the channel makes on it, except the clock reads `microSeconds()`, is appended to a trace of `Effect`s: `create`, `postMessage`, `onMessage(fn)`, `onMessage(null)`, `close`, and each before-close hook. Work the source defers behind a promise is put on a FIFO queue of `Task`s. That covers sends, subscriptions waiting for an asynchronous `create`, and the close callback.
- `Scheduler`: the asynchronous side, with one `Step` per public call or environment event. The events are:
  - the readiness promise resolving;
  - the oldest queued callback running;
  - a backend send promise fulfilling or rejecting;
  - the `Promise.all` over the close snapshot settling;
  - the before-close hooks settling.

  `Run` replays any sequence of steps. A step that cannot happen in the current state leaves the channel unchanged, and so does a call that throws. For example, the hooks' `Promise.all` can only reject when at least one hook was invoked, because over no promises it always fulfils. Properties over `Run` therefore hold for every interleaving.
- `ChannelProps`:
  - the well-formedness invariant `Wf`, kept by every step;
  - the close-ordering theorems: the backend's `close` comes after every earlier send is fulfilled and after the before-close hooks have run;
  - the subscription discipline for a synchronous `create`;
  - facts about enforced options, the getters and repeated `close`.

Where the behaviour in the code differs from the library's documented intent, the model follows the code:

- A construction whose backend choice throws has still taken an id. It also leaves that id in `OPEN_BROADCAST_CHANNELS` (src/broadcast-channel.js:22-32). `New` states this.
- A send whose backend promise rejects is never removed from `_uMP`. The cause is that `.catch()` has no handler (src/broadcast-channel.js:204-206). Such a send makes the `Promise.all` of any later `close` reject. The hooks then never run and the backend is never closed. `RejectedSendPreventsRelease` states this.
- `close` clears the message listeners without calling `_stopListening`. After `close`, the subscription flag can therefore stay set while no listener is registered.
- `postInternal` has no closed check, and listeners can still be added after `close`.
- When `create` is asynchronous, `_prepP` is set and never cleared. Every later subscription is therefore deferred behind it, even long after readiness, and `_iL` is only set when that deferred callback runs (src/broadcast-channel.js:271-279). Listeners added before it runs each queue their own subscription (`DeferredCanDoubleSubscribe`).

## Model

| member | source | states |
|---|---|---|
| Common.FirstIndex | src/broadcast-channel.js:150 | the index `find` stops at: an element satisfying the predicate with none before it, and None exactly when no element satisfies it |
| MethodChooser.Candidates | dist/esnode/method-chooser.mjs:9-14 | the candidate list is the caller's truthy backends, then native, idb, localstorage, then node last |
| MethodChooser.Remaining | dist/esnode/method-chooser.mjs:33-37 | without web-worker support outside Node, exactly the idb candidates are dropped; otherwise the list is kept whole |
| MethodChooser.WithoutKindMembers | dist/esnode/method-chooser.mjs:34-36 | the filter keeps exactly the backends of another type and never lengthens the list |
| MethodChooser.WithoutKindAppend | dist/esnode/method-chooser.mjs:34-36 | the filter keeps the survivors in their order: filtering a concatenation is concatenating the filtered parts |
| MethodChooser.RemainingOrder | dist/esnode/method-chooser.mjs:12-37 | without web-worker support outside Node the candidates are the caller's non-idb backends in their order, then native, localstorage and node |
| MethodChooser.ChooseMethod | dist/esnode/method-chooser.mjs:11-45 | 'simulate' yields the simulate backend; another explicit type yields the first candidate declaring it or a not-found error naming the type; with no type, the earliest candidate whose probe succeeds, or a no-usable-method error listing the default type names exactly when none does |
| MethodChooser.DefaultKindsListed | dist/esnode/method-chooser.mjs:42-44 | the type names the no-usable-method error lists, derived from `METHODS`, are "native", "idb", "localstorage" in that order, in every runtime |
| MethodChooser.NoIdbWithoutWebWorkerSupport | dist/esnode/method-chooser.mjs:33-41 | with web-worker support off outside Node, automatic selection never returns the idb backend |
| MethodChooser.SimulateNeverAutoSelected | dist/esnode/method-chooser.mjs:9-25 | the simulate backend is returned only when explicitly requested (or supplied by the caller) |
| MethodChooser.TypedChoiceIgnoresUsability | dist/esnode/method-chooser.mjs:22-25 | with an explicit type, what the probes answer does not change whether a backend is found or which position is picked |
| MethodChooser.TypedChoiceMayBeUnusable | dist/esnode/method-chooser.mjs:22-25 | an explicit type can select a backend whose `canBeUsed()` is false |
| Listeners.Dispatch | src/broadcast-channel.js:249-267 | while no callback throws, a message reaches exactly the listeners registered at most 100 000 µs after it was stamped, in list order, never more than are registered |
| Listeners.DispatchAppend | src/broadcast-channel.js:250-266 | listeners are invoked front to back in registration order |
| Listeners.DispatchWindowBoundary | src/broadcast-channel.js:261-265 | the replay window is inclusive at exactly 100 000 µs and closed one µs beyond |
| Listeners.RemoveObject | src/broadcast-channel.js:240-242 | removal by identity keeps exactly the other objects, and a missing object changes nothing |
| Listeners.RemoveFirstByFn | src/broadcast-channel.js:149-152 | with distinct objects, lookup-then-remove deletes exactly the first registration of the callback, and nothing when it is not registered |
| BroadcastChannel.New | src/broadcast-channel.js:20-71 | a new channel takes the next id and is registered open even when backend choice fails; its options are the enforced ones when set; it is open, unsubscribed, without listeners or pending sends, and `create` was its only backend call; `_prepP` is set exactly when `create` returned a promise, and otherwise the state is the value `create` returned |
| BroadcastChannel.PrepareChannel | src/broadcast-channel.js:212-226 | `create` is called once with the channel's name and options; a synchronous result becomes the state; a promise sets `_prepP` and leaves the state unset; nothing else changes |
| BroadcastChannel.HasMessageListeners | src/broadcast-channel.js:229-233 | true exactly when some listener of either category is registered |
| BroadcastChannel.StartListening | src/broadcast-channel.js:245-289 | a subscription is requested exactly when someone listens and none is active: at once, setting `_iL`, with a synchronous create, and queued behind readiness otherwise; listener lists and close bookkeeping are untouched |
| BroadcastChannel.StopListening | src/broadcast-channel.js:291-302 | the subscription is dropped, with one unsubscribe call, exactly when it is active and nobody listens; nothing is queued |
| BroadcastChannel.AddListenerObject | src/broadcast-channel.js:235-238 | the object joins the end of its category only, and a subscription is requested unless one is active |
| BroadcastChannel.RemoveListenerObject | src/broadcast-channel.js:240-243 | the object leaves its category only, and the subscription ends, with one unsubscribe call, exactly when it was active and nobody listens any more |
| BroadcastChannel.Post | src/broadcast-channel.js:186-195 | the envelope stamped now is queued behind readiness; no backend call, subscription change or close-stage change happens synchronously |
| BroadcastChannel.AddEventListener | src/broadcast-channel.js:141-148 | the new listener, stamped now with a fresh identity, joins the end of its category only; synchronously a subscribe call is issued exactly when none was active; with an asynchronous create the subscription is queued instead |
| BroadcastChannel.RemoveEventListener | src/broadcast-channel.js:149-152 | only the category named loses the found object; the subscription ends, with one unsubscribe call, exactly when it was active and no listener of either category remains |
| BroadcastChannel.RemoveEventListenerRemovesFirst | src/broadcast-channel.js:149-152 | removal deletes exactly the first registration of the callback in its category, and an unregistered callback leaves the list as it was |
| BroadcastChannel.SetOnMessage | src/broadcast-channel.js:126-139 | setting a function replaces the previous onmessage listener by a fresh one at the end of the message list, keeping every other listener; clearing removes it; internal listeners are untouched |
| BroadcastChannel.PostMessage | src/broadcast-channel.js:108-122 | posting on a closed channel throws, carrying the payload, and changes nothing; otherwise exactly one send stamped now is queued and no backend call happens yet |
| BroadcastChannel.PostInternal | src/broadcast-channel.js:123-125 | an internal send is queued whether or not the channel is closed, and no backend call happens yet |
| BroadcastChannel.CloseChannel | src/broadcast-channel.js:154-172 | a second close changes nothing; the first marks the channel closed, drops the onmessage slot and the message listeners but not internal ones or the subscription, and defers everything else behind readiness |
| BroadcastChannel.Close | src/broadcast-channel.js:154-158 | the first close also removes the channel from the open registry; later ones touch nothing |
| BroadcastChannel.ListenerFn | src/broadcast-channel.js:249-267 | an incoming message reaches only listeners of its own category inside the replay window, never one of the other category |
| Scheduler.Resolve | src/broadcast-channel.js:212-226 | an asynchronous create's resolution provides the state and makes no backend call |
| Scheduler.RunTask | src/broadcast-channel.js:186-210 | the oldest callback waiting on readiness runs: a send reaches the backend with the state and becomes pending; a queued subscription sets the flag and subscribes; the close callback snapshots the pending sends |
| Scheduler.SettleSend | src/broadcast-channel.js:201-206 | a fulfilled send leaves the pending set; a rejected one stays in it |
| Scheduler.HookEffects | src/broadcast-channel.js:169 | every before-close hook is invoked once, in registration order |
| Scheduler.FinishSends | src/broadcast-channel.js:165-169 | a rejected send in the snapshot ends the pipeline with no hook run; otherwise every hook registered by then is invoked, in order, and the pipeline awaits exactly those |
| Scheduler.FinishHooks | src/broadcast-channel.js:169-171 | the backend is closed, with the state, exactly when the hooks' promises all fulfil; failure needs at least one invoked hook |
| ChannelProps.NewIsWellFormed | src/broadcast-channel.js:20-71 | a freshly constructed channel satisfies the invariant |
| ChannelProps.NextPreservesWf | src/broadcast-channel.js:107-302 | every public call and every asynchronous event keeps listener identities distinct and allocated, `_uMP` equal to the unfulfilled sends, the subscription discipline, and the close bookkeeping |
| ChannelProps.RunPreservesWf | src/broadcast-channel.js:154-171 | on every path the backend is closed at most once, and every backend call after create carries one and the same state, the channel's current one |
| ChannelProps.CloseWaitsForEarlierSends | src/broadcast-channel.js:160-171 | the backend is closed only after every send issued or queued before the first close has been fulfilled, and only with the channel's resolved state |
| ChannelProps.CloseRunsHooksFirst | src/broadcast-channel.js:165-171 | once the backend is closed, every before-close hook registered before the first close has been invoked, in registration order, and all those invocations come before the backend call |
| ChannelProps.RejectedSendPreventsRelease | src/broadcast-channel.js:204-206 | once a rejected send is in the close snapshot, or the pipeline failed, the backend is never closed on any later path |
| ChannelProps.RunKeepsIdentity | src/broadcast-channel.js:173-178 | the `type` getter always answers the backend chosen at construction, the backend state never changes once it exists, and `isClosed` never goes back to false |
| ChannelProps.TypeIsChosenBackend | src/broadcast-channel.js:173-175 | the `type` getter answers the type of the backend `chooseMethod` picked at construction, on every later path |
| ChannelProps.IsClosedReflectsClose | src/broadcast-channel.js:176-178 | `isClosed` holds from the first close on, on every path, and on a well-formed channel exactly when the close pipeline has started |
| ChannelProps.EnforceOptionsGoverns | src/broadcast-channel.js:100-103 | enforcing options leaves the registry and id counter alone; later channels are built from the enforced options, or from their own once enforcement is reset |
| ChannelProps.SyncSubscriptionDiscipline | src/broadcast-channel.js:245-302 | with a synchronous create, subscribe and unsubscribe calls strictly alternate from a subscribe, `_iL` tells whether the last was a subscribe, and while open a subscription is active exactly when a listener is registered |
| ChannelProps.DeferredCanDoubleSubscribe | src/broadcast-channel.js:270-279 | with an asynchronous create, two listeners added before readiness produce two subscribe calls in a row |
| ChannelProps.CloseIsIdempotent | src/broadcast-channel.js:154-158 | closing a second time changes neither the channel nor the registry, and the channel is no longer registered |
| ChannelProps.EnforcedOptionsWin | src/broadcast-channel.js:27-30 | while options are enforced, the options passed to the constructor make no difference to the result |
| ChannelProps.EnforcedSimulate | src/broadcast-channel.js:100-103 | enforcing a 'simulate' type makes every later channel use the simulate backend |

## Left out

- The concrete backends (native, IndexedDB, localStorage, node, simulate) are not modelled. They are reduced to a type name and a `canBeUsed()` answer, and their calls are recorded as trace effects. Their own files are not part of this model.
- The type names "native", "localstorage" and "node" are the library's names for those backends. Only "idb" and "simulate" are fixed by the chooser's code.
- `isNode` and `fillOptionsWithDefaults` are parameters (`Env.isNode` and `fill`), because their code is not part of this model.
- `clearNodeFolder` and the `_pubkey` marker are not modelled. They are outside the channel's behaviour.
- Time is a parameter `now` of each operation. One value stands for every `microSeconds()` read within that operation.
- Messages carry an integer payload. The `JSON.stringify` text of the post-after-close error is represented by the payload itself.
- A listener category other than 'message' and 'internal' is not modelled. The source fails with a TypeError there.
- A rejected `create` promise is not modelled, because the source never handles it.
- The exact microtask timing is not modelled. Callbacks waiting on readiness run in FIFO order, and every other settlement is a nondeterministic environment step.
- `_uMP.delete` is modelled at the moment the send is fulfilled. The deletion really runs two promise reactions later: first `.catch()` passes the value on, then the `.then` callback deletes. A close snapshot taken in between still holds the fulfilled send, but a fulfilled promise does not delay `Promise.all`, so the difference is not observable.
- Scheduler.FinishSends: backend calls (`create`, `postMessage`, `onMessage`, `close`) and before-close hooks are assumed never to throw synchronously. In the source, a `postMessage` that throws rejects that send's promise and never joins `_uMP`; a hook that throws stops the later hooks and rejects the close pipeline; a `create` that throws makes the constructor throw after the channel was registered. None of these paths is modelled.
- BroadcastChannel.IsClosed: an open channel's `closed` field is never assigned before `close()`, so the `isClosed` getter answers `undefined` there. The model answers false, which is what the value means to a caller.
- The promise values returned by `postMessage`, `postInternal` and `close` are not modelled.
- `SyncSubscriptionDiscipline`: the alternation and flag agreement are proved only for a synchronous `create`. With an asynchronous one the source itself breaks them (see `DeferredCanDoubleSubscribe`).
- Listeners.Dispatch: it states which listeners are invoked, in order, assuming no listener callback throws. In the source a callback that throws ends the `forEach`, so the listeners after it in the window are not reached; that path is not modelled. Invoking the callbacks with the payload is outside the model too.
