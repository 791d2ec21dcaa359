# Observable queries and self-binding registrations, modelled in Dafny

This project models the client side of the observable-query feature and one rule of the
server-side container set-up, and proves properties of the models.

- `connection.dfy` (module `QueryConnection`) covers `ObservableQueryConnection`. This is the
  WebSocket connection behind an observable query.
  - `Connection` is a class whose fields are the source's `_socket`, `_disconnected` and
    `_cleanup`.
  - Each `connect()` call opens a closure holding `currentAttempt`, `timeToWait` and
    `reconnectTimeout`. Each such closure is a `ConnectEnv` value in the field `envs`.
  - The outside world is kept as logs: the sockets created, the timers scheduled (with their
    state), and the frames handed to `dataReceived`.
  - The socket callbacks (`onopen`, `onclose`, `onerror`, `onmessage`) and a timer firing are
    methods, called in any order the caller chooses.
  - The retry counters are specified by the pure `RetryStep` and `RetryRun`. Lemmas derive the
    closed form of the back-off: the k-th wait since the last open is `500 + 250·k·(k−1)` ms,
    and there are at most 100 waits.
- `hook.dfy` (module `ObservableQueryHook`) covers the current `useObservableQuery` hook.
  - `Hook` is a class whose fields are the hook's state (`result`, `isSubscribed`), its refs
    (`subscriptionRef`, `cleanupInProgressRef`) and one `isComponentMounted` flag per run of
    the effect (`generations`).
  - Every `subscribe` and `unsubscribe` call is appended to `calls`.
  - The invariant `Valid` says that no subscription is ever lost: each one is held, or it was
    passed to `unsubscribe`. It also says that a subscription is unsubscribed only once unless
    its `unsubscribe` throws. Every event preserves it.
  - The effect's `subscribe` call is split into the call and its return (`SubscribeReturns`).
    Deliveries may come between the two, which covers a `subscribe` that hands a result to its
    callback before it returns (`ObservableQueryHook.FailureBeforeSubscribeReturns`).
  - The scenarios of the hook's test file are replayed as methods.
- `legacy_hook.dfy` (module `LegacyObservableQueryHook`) covers the older variant in
  `ObservableQueryFor.ts`. This includes its pure `argumentsDependency` projection and the
  stale `isSubscribed` that its teardown closure captures.
- `self_binding.dfy` (module `SelfBinding`) covers `SelfBindingRegistrationSource`.
  - `RegistrationsFor` is a function over a descriptor of the requested type and the set of
    services that already have registrations.
  - It is specified by the declarative predicate `SelfBindable`.
  - `IsAdapterForIndividualComponents` (always `false`) and `ToString` (always
    `"SelfBindingRegistrationSource"`) are members of `Source`.
- `query_results.dfy` and `options.dfy` hold the shared envelope and state datatypes and
  `Option`.

Where the code and the documented design differ, the model follows the code:

- `disconnect` clears only the timer stored by the latest `connect` closure. It does not
  guarantee that no retry fires afterwards: an earlier timer of this closure, or of an earlier
  one, can still fire. Because of the `_disconnected` test, such a firing opens no socket
  (`QueryConnection.ErrorThenCloseThenDisconnect` exhibits an earlier timer still pending
  after `disconnect`).
- A connection can hold more than one open socket. `_socket` remembers only the socket made
  last, and `disconnect` closes only that one.
  - An error followed by a close runs `retry` twice and schedules two timers. If both fire
    before `disconnect`, each opens a socket.
  - A second `connect` also opens a socket without closing the first.
  - The earlier socket stays open after `disconnect` and still hands frames to
    `dataReceived` (`QueryConnection.ErrorThenCloseOrphansSocket`,
    `QueryConnection.ConnectTwiceOrphansSocket`).
- `connect` after `disconnect` is not a no-op. It still builds a closure and replaces
  `_cleanup`, but it creates no socket.
- In the current hook, a subscription whose `unsubscribe` throws stays held. The next cleanup
  then calls `unsubscribe` on it again. "Exactly once" therefore holds only for subscriptions
  whose `unsubscribe` returns.
- The mock query of the hook's test file pushes envelopes `{ data: ... }` that have no
  `isSuccess` flag. The current hook reads each of them as a failure: it shows the envelope,
  then tears the subscription down (`ObservableQueryHook.EnvelopeWithoutSuccessFlagTearsDown`).
  The test that receives data (use_effect.ts:105-120) expects the hook to be still subscribed
  after the first envelope (use_effect.ts:118). On the model that holds only when the
  subscription's `unsubscribe` throws (`ObservableQueryHook.ReceiveData`).
  The generation stays mounted after that cleanup. If the released subscription still
  delivers, the later envelopes are therefore still shown
  (`ObservableQueryHook.MockEnvelopesAfterTeardown` delivers the test's three envelopes).
  Whether the test's mock keeps sending after `unsubscribe` depends on code that is not part
  of this model. `ObservableQueryHook.EachResultReplacesTheLast`
  replays the same test with well-formed successful envelopes.

## Model

| member | source | states |
|---|---|---|
| QueryConnection.IndexOfFrom | Source/JavaScript/Applications/queries/ObservableQueryConnection.ts:26 | the result is -1 or a position at which the needle occurs, and the needle occurs nowhere earlier (`String.prototype.indexOf`) |
| QueryConnection.IsSecure | Source/JavaScript/Applications/queries/ObservableQueryConnection.ts:26 | `indexOf('https') === 0` holds exactly when the page protocol starts with `https` |
| QueryConnection.Url | Source/JavaScript/Applications/queries/ObservableQueryConnection.ts:27 | the URL is `wss://` + host + route when the protocol starts with `https`, and `ws://` + host + route otherwise |
| QueryConnection.DelayClosedForm | Source/JavaScript/Applications/queries/ObservableQueryConnection.ts:29-30 | the k-th wait of the `timeToWait += 500 * currentAttempt` recurrence is 500 + 250·k·(k−1) |
| QueryConnection.RetryStep | Source/JavaScript/Applications/queries/ObservableQueryConnection.ts:38-48 | one `retry()` increments the attempt counter, schedules a timer iff the counter was below 100, and that timer uses the current wait (the wait grows only afterwards) |
| QueryConnection.RetryStepOnSchedule | Source/JavaScript/Applications/queries/ObservableQueryConnection.ts:47-48 | from counters on the back-off schedule, a retry stays on it, and the timer it schedules waits Delay(attempt) |
| QueryConnection.RetryRunOnSchedule | Source/JavaScript/Applications/queries/ObservableQueryConnection.ts:38-48 | n retries from any counters on the schedule schedule exactly the waits of attempts up to 100, in order, and stay on the schedule |
| QueryConnection.RetriesSinceOpen | Source/JavaScript/Applications/queries/ObservableQueryConnection.ts:29-48 | after an open (or a fresh `connect`), n retries schedule min(n, 100) timers, and the k-th waits 500 + 250·k·(k−1) ms |
| QueryConnection.AfterRetry | Source/JavaScript/Applications/queries/ObservableQueryConnection.ts:39-48 | `retry()` of closure e changes only that closure (its counters become RetryStep's), keeps every existing timer, and below the ceiling appends one pending timer with the current wait and remembers it as `reconnectTimeout`; past the ceiling adds no timer and keeps `reconnectTimeout` |
| QueryConnection.ClearLatest | Source/JavaScript/Applications/queries/ObservableQueryConnection.ts:81-85 | the cleanup cancels the timer the closure stored last when it is pending and leaves it as it is otherwise; no other timer changes |
| QueryConnection.Connection.constructor | Source/JavaScript/Applications/queries/ObservableQueryConnection.ts:14-23 | a new connection has no socket, is not disconnected, has no cleanup and has created nothing |
| QueryConnection.Connection.Connect | Source/JavaScript/Applications/queries/ObservableQueryConnection.ts:25-35 | `connect` adds a closure with the URL and fresh counters, installs its cleanup, and creates one socket for it unless disconnected |
| QueryConnection.Connection.ConnectSocket | Source/JavaScript/Applications/queries/ObservableQueryConnection.ts:51-53 | a connect attempt creates a socket and makes it current only when not disconnected, and otherwise changes nothing |
| QueryConnection.Connection.Retry | Source/JavaScript/Applications/queries/ObservableQueryConnection.ts:38-49 | `retry()` changes the closure's counters and the timer log exactly as `AfterRetry` does (the `RetryStep` schedule) and touches no socket |
| QueryConnection.Connection.OnOpen | Source/JavaScript/Applications/queries/ObservableQueryConnection.ts:55-59 | an open resets the socket's closure to 500 ms and attempt 0, and nothing else changes |
| QueryConnection.Connection.OnClose | Source/JavaScript/Applications/queries/ObservableQueryConnection.ts:61-67 | a close retries (as `AfterRetry`) only when not disconnected |
| QueryConnection.Connection.OnError | Source/JavaScript/Applications/queries/ObservableQueryConnection.ts:69-72 | an error retries unconditionally, even after `disconnect` |
| QueryConnection.Connection.OnMessage | Source/JavaScript/Applications/queries/ObservableQueryConnection.ts:74-76 | a frame is handed to the closure's `dataReceived`, and nothing else changes |
| QueryConnection.Connection.TimerFires | Source/JavaScript/Applications/queries/ObservableQueryConnection.ts:47 | a cancelled or fired timer does nothing; a pending one fires and runs `connectSocket` for its closure, which opens no socket once disconnected |
| QueryConnection.Connection.Disconnect | Source/JavaScript/Applications/queries/ObservableQueryConnection.ts:90-108 | acts only when a socket exists and not yet disconnected: it sets disconnected, runs and drops the cleanup, closes the socket and forgets it; otherwise it is a no-op; afterwards there is never a current socket |
| QueryConnection.ErrorThenCloseThenDisconnect | Source/JavaScript/Applications/queries/ObservableQueryConnection.ts:61-108 | over `https`, an error then a close schedule waits of 500 and 1000 ms; `disconnect` cancels the second timer and leaves the first pending; when the first fires there is still only one socket |
| QueryConnection.ErrorThenCloseOrphansSocket | Source/JavaScript/Applications/queries/ObservableQueryConnection.ts:53-103 | when both timers of an error and a close fire before `disconnect`, there are three sockets of which `disconnect` closes one; the second stays open, and a frame it receives afterwards is still delivered |
| QueryConnection.ConnectTwiceOrphansSocket | Source/JavaScript/Applications/queries/ObservableQueryConnection.ts:25-103 | after two `connect` calls, `disconnect` closes the second socket and leaves the first open |
| ObservableQueryHook.Hook.Mount | Source/JavaScript/Applications/queries/useObservableQuery.ts:27-30 | the first render starts from the initial state, not subscribed, and its effect issues one `subscribe` |
| ObservableQueryHook.Hook.CleanupSubscription | Source/JavaScript/Applications/queries/useObservableQuery.ts:34-51 | a no-op while a cleanup runs or nothing is held; otherwise one `unsubscribe` of the held subscription, which is then forgotten with `isSubscribed` cleared unless `unsubscribe` throws; the flag is reset either way |
| ObservableQueryHook.Hook.RunEffect | Source/JavaScript/Applications/queries/useObservableQuery.ts:53-64 | a run of the effect adds a mounted generation, cleans up what is held, then issues `subscribe`, in that order |
| ObservableQueryHook.Hook.Teardown | Source/JavaScript/Applications/queries/useObservableQuery.ts:93-96 | the teardown unmounts its generation and then cleans up |
| ObservableQueryHook.Hook.SubscribeReturns | Source/JavaScript/Applications/queries/useObservableQuery.ts:64-88 | a mounted generation stores the new subscription and sets `isSubscribed`; an unmounted one unsubscribes it at once and stores nothing; a throw clears `isSubscribed` only when mounted |
| ObservableQueryHook.Hook.StoreNew | Source/JavaScript/Applications/queries/useObservableQuery.ts:76-78 | storing the new subscription keeps the no-leak invariant |
| ObservableQueryHook.Hook.ReleaseNew | Source/JavaScript/Applications/queries/useObservableQuery.ts:79-82 | unsubscribing a subscription that arrives after unmount keeps the no-leak invariant |
| ObservableQueryHook.Hook.Deliver | Source/JavaScript/Applications/queries/useObservableQuery.ts:64-72 | a mounted generation replaces the result in full; on a failure envelope it cleans up: nothing held stays nothing held, a held subscription is unsubscribed once and forgotten with `isSubscribed` cleared, or stays held with `isSubscribed` unchanged when its `unsubscribe` throws; a stale generation changes nothing |
| ObservableQueryHook.Hook.ManualUnsubscribe | Source/JavaScript/Applications/queries/useObservableQuery.ts:99 | the returned `unsubscribe` is the cleanup: nothing when nothing is held; otherwise one `unsubscribe` call, after which the subscription is forgotten with `isSubscribed` cleared, or stays held with `isSubscribed` unchanged when `unsubscribe` throws |
| ObservableQueryHook.Hook.Rerender | Source/JavaScript/Applications/queries/useObservableQuery.ts:25 | the same serialised arguments change nothing; new ones tear down, release the held subscription (twice when its `unsubscribe` throws, which leaves it held with `isSubscribed` unchanged) and issue exactly one new `subscribe` |
| ObservableQueryHook.Hook.Unmount | Source/JavaScript/Applications/queries/useObservableQuery.ts:93-96 | unmounting leaves no generation mounted and makes one `unsubscribe` of the held subscription, which is then forgotten, or stays held with `isSubscribed` unchanged when its `unsubscribe` throws |
| ObservableQueryHook.SubscribedWithDefault | Source/JavaScript/Applications/queries/for_ObservableQuery/when_useObservableQuery/use_effect.ts:95-103 | the default data is shown, and the hook is subscribed after one `subscribe` |
| ObservableQueryHook.EachResultReplacesTheLast | Source/JavaScript/Applications/queries/for_ObservableQuery/when_useObservableQuery/use_effect.ts:151-174 | three deliveries leave the last one shown, with one `subscribe` call |
| ObservableQueryHook.MockEnvelopesAfterTeardown | Source/JavaScript/Applications/queries/for_ObservableQuery/when_useObservableQuery/use_effect.ts:151-174 | if the released subscription still delivers the test's `{ data }` envelopes: the first tears the subscription down, the later ones are still shown because the generation stays mounted, and there is one `subscribe` and one `unsubscribe` |
| ObservableQueryHook.EnvelopeWithoutSuccessFlagTearsDown | Source/JavaScript/Applications/queries/useObservableQuery.ts:69-71 | an envelope without `isSuccess` is shown and the subscription is released |
| ObservableQueryHook.ReceiveData | Source/JavaScript/Applications/queries/for_ObservableQuery/when_useObservableQuery/use_effect.ts:105-120 | after the test's first `{ data }` envelope the data is shown, and the hook is still subscribed exactly when `unsubscribe` throws, so the assertion at line 118 needs a throwing `unsubscribe` |
| ObservableQueryHook.FailureBeforeSubscribeReturns | Source/JavaScript/Applications/queries/useObservableQuery.ts:64-78 | a failure handed to the callback while `subscribe` is still running is shown, but its cleanup finds nothing held, so the subscription returned afterwards is stored and the hook is subscribed |
| ObservableQueryHook.ManualUnsubscribeTwice | Source/JavaScript/Applications/queries/for_ObservableQuery/when_useObservableQuery/use_effect.ts:210-226 | two manual unsubscribes make one `unsubscribe` call and no new `subscribe` |
| ObservableQueryHook.UnmountReleases | Source/JavaScript/Applications/queries/for_ObservableQuery/when_useObservableQuery/use_effect.ts:135-149 | unmounting releases the subscription and clears `isSubscribed` |
| ObservableQueryHook.SameArgsKeepSubscription | Source/JavaScript/Applications/queries/useObservableQuery.ts:25 | a re-render with arguments that serialise the same keeps the subscription and makes no call |
| ObservableQueryHook.ResubscribeOnArgsChange | Source/JavaScript/Applications/queries/for_ObservableQuery/when_useObservableQuery/use_effect.ts:176-193 | new arguments release the first subscription before the second `subscribe`, and the second is held |
| ObservableQueryHook.SubscribeThrows | Source/JavaScript/Applications/queries/for_ObservableQuery/when_useObservableQuery/use_effect.ts:195-208 | a throwing `subscribe` leaves the hook not subscribed, holding nothing, with the default data |
| ObservableQueryHook.UnmountWhileSubscribing | Source/JavaScript/Applications/queries/useObservableQuery.ts:75-82 | a subscription that arrives after unmount is unsubscribed at once, never stored, and a late delivery writes nothing. `setupSubscription` never awaits, so this order cannot occur with the code as written: it exercises the defensive branch |
| LegacyObservableQueryHook.ArgumentsDependency | Source/JavaScript/Applications/queries/ObservableQueryFor.ts:29 | the dependency list has one entry per request argument, and entry i is the lookup of the i-th requested name, in order |
| LegacyObservableQueryHook.Lookup | Source/JavaScript/Applications/queries/ObservableQueryFor.ts:29 | `args?.[arg]` is present exactly when `args` is present and has the name, and is then its value |
| LegacyObservableQueryHook.ArgumentsDependencyIff | Source/JavaScript/Applications/queries/ObservableQueryFor.ts:29 | two argument objects give the same dependency list iff they agree on every request argument (absent or present with the same value) |
| LegacyObservableQueryHook.LegacyHook.Mount | Source/JavaScript/Applications/queries/ObservableQueryFor.ts:22-27 | the first render starts from the empty state, and its effect subscribes at once, storing the subscription unless `subscribe` throws |
| LegacyObservableQueryHook.LegacyHook.RunEffect | Source/JavaScript/Applications/queries/ObservableQueryFor.ts:43-70 | the effect captures the render's `isSubscribed`, subscribes, and stores the new subscription over whatever was held |
| LegacyObservableQueryHook.LegacyHook.CleanupSubscription | Source/JavaScript/Applications/queries/ObservableQueryFor.ts:32-41 | unsubscribes and clears only when the captured `isSubscribed` is true and something is held |
| LegacyObservableQueryHook.LegacyHook.Teardown | Source/JavaScript/Applications/queries/ObservableQueryFor.ts:73-77 | the teardown unmounts its effect and cleans up with the value its render captured |
| LegacyObservableQueryHook.LegacyHook.Render | Source/JavaScript/Applications/queries/ObservableQueryFor.ts:78 | the same dependency key changes no subscription; a new key tears down with the stale capture and then runs the effect again; when that `subscribe` throws, the old subscription stays held unless the teardown released it |
| LegacyObservableQueryHook.LegacyHook.Deliver | Source/JavaScript/Applications/queries/ObservableQueryFor.ts:52-57 | a mounted effect's delivery replaces the result; a stale one changes nothing; failures are not torn down |
| LegacyObservableQueryHook.LegacyHook.ManualUnsubscribe | Source/JavaScript/Applications/queries/ObservableQueryFor.ts:80-82 | the manual `unsubscribe` acts only if the last render saw `isSubscribed` |
| LegacyObservableQueryHook.LegacyHook.Unmount | Source/JavaScript/Applications/queries/ObservableQueryFor.ts:73-77 | unmounting runs the last effect's teardown with its captured value, and leaves what the last render saw unchanged |
| LegacyObservableQueryHook.UnlistedArgumentKeepsSubscription | Source/JavaScript/Applications/queries/ObservableQueryFor.ts:29-78 | adding an argument the query does not request leaves the dependency key equal, so the re-render makes no `subscribe` or `unsubscribe` call and the subscription stays held |
| LegacyObservableQueryHook.ArgsChangeLosesSubscription | Source/JavaScript/Applications/queries/ObservableQueryFor.ts:36 | after an argument change the first subscription is never unsubscribed and no longer held |
| LegacyObservableQueryHook.UnmountLeavesSubscription | Source/JavaScript/Applications/queries/ObservableQueryFor.ts:73-77 | unmounting right after the subscription makes no `unsubscribe` call, and the hook stays subscribed |
| LegacyObservableQueryHook.ManualUnsubscribeNeedsRender | Source/JavaScript/Applications/queries/ObservableQueryFor.ts:80-82 | the manual `unsubscribe` does nothing until a render has seen `isSubscribed`, and releases the subscription afterwards |
| LegacyObservableQueryHook.FailureKeepsSubscription | Source/JavaScript/Applications/queries/ObservableQueryFor.ts:52-57 | a failing envelope is shown and the subscription is kept |
| LegacyObservableQueryHook.SubscribeThrowsLegacy | Source/JavaScript/Applications/queries/ObservableQueryFor.ts:66-69 | a throwing `subscribe` leaves the empty state and not subscribed |
| SelfBinding.NewSource | Source/DotNET/Autofac/SelfBindingRegistrationSource.cs:41-44 | the parameterless constructor accepts every type |
| SelfBinding.NewSourceWith | Source/DotNET/Autofac/SelfBindingRegistrationSource.cs:50-54 | as written, the constructor taking a predicate builds a source that accepts every type, whatever is passed |
| SelfBinding.NewSourceWithCorrected | Source/DotNET/Autofac/SelfBindingRegistrationSource.cs:50-54 | with the null test on the argument, the source accepts exactly what the given predicate accepts, and everything for null |
| SelfBinding.Source.IsAdapterForIndividualComponents | Source/DotNET/Autofac/SelfBindingRegistrationSource.cs:27 | the registrations are never adapters over other components, whatever the predicate |
| SelfBinding.Source.ToString | Source/DotNET/Autofac/SelfBindingRegistrationSource.cs:112-115 | the text is always `SelfBindingRegistrationSource` |
| SelfBinding.FirstUnsupplied | Source/DotNET/Autofac/SelfBindingRegistrationSource.cs:87-94 | the scan finds a type argument that the predicate accepts and nothing registers, or shows that there is none |
| SelfBinding.RegistrationsFor | Source/DotNET/Autofac/SelfBindingRegistrationSource.cs:63-104 | at most one registration; one exactly when the service is self-bindable (typed, not `string`, a concrete non-delegate class that is not an open generic, accepted, unregistered, no accepted unregistered type argument); it registers the type itself, single-instance iff it carries `[Singleton]` |
| SelfBinding.OfferedOnce | Source/DotNET/Autofac/SelfBindingRegistrationSource.cs:80 | once the service is registered, the source offers nothing for it |
| SelfBinding.RejectedArgumentNotLookedUp | Source/DotNET/Autofac/SelfBindingRegistrationSource.cs:89-90 | whether a type argument the predicate rejects is registered makes no difference |
| SelfBinding.AcceptAllNeedsEveryArgument | Source/DotNET/Autofac/SelfBindingRegistrationSource.cs:85-95 | with an accept-all predicate, a bindable closed generic is bound iff every type argument is registered |
| SelfBinding.PredicateDiscarded | Source/DotNET/Autofac/SelfBindingRegistrationSource.cs:52 | a source built with a predicate that rejects everything still binds a concrete class |
| SelfBinding.PredicateKept | Source/DotNET/Autofac/SelfBindingRegistrationSource.cs:52 | with the corrected constructor, that source binds nothing |

## Left out

- The WebSocket transport, `setTimeout`/`clearTimeout`, `document.location` and `JSON.parse`
  are outside the model. Sockets and timers are log entries. Their events are method calls
  in any order. The page protocol and host are parameters. A message arrives already parsed.
- Console logging, in all four files.
- QueryConnection.Connection.Disconnect: `close()` throwing is not modelled. If it threw, the
  source would keep `_socket` set; the model always forgets the socket.
- React's render scheduler: renders, effects and teardowns are method calls. `setResult` and
  `setIsSubscribed` write the fields at once, without a re-render.
- `JSON.stringify(args)`: the effect key holds the serialised arguments as a string.
- `useMemo` of the query instance: the query is identified by a number in the key.
- ObservableQueryHook.Hook.CleanupSubscription: re-entrant cleanup is not modelled.
  `unsubscribe` runs no hook code, so the in-progress flag is always false between events.
  The early-return branch is kept, but no event reaches it.
- Whether a subscription's `unsubscribe` throws is a fixed set of subscription numbers
  (`failingUnsubscribes`), not a per-call outcome.
- LegacyObservableQueryHook.LegacyHook.Render: argument values are strings compared by value.
  React's memoisation of `argumentsDependency` on the identity of the `args` object, and its
  `Object.is` comparison of object-valued arguments, are not modelled. So an `args` object
  mutated in place, which never resubscribes, and an object argument rebuilt on every render,
  which always does, are outside the model.
- LegacyObservableQueryHook.LegacyHook.CleanupSubscription: a throwing `unsubscribe` is not
  modelled in the older variant, which has no guard for it.
- `QueryResultWithState.initial`, `empty` and `fromQueryResult` are datatype constructors.
  Their code is not part of this model.
- `RegistrationConfiguration` and the Autofac registration builder are left out. A
  registration is the type it activates plus its lifetime. `SingleRegistrationStyle`
  details and the configuration callback are not modelled.
- Reflection: a type is a descriptor (`ClrType`), and `typeof(string)` is recognised by its
  full name. `IsGenericType` is not a separate flag: a closed generic type is a descriptor with
  type arguments, and the loop over an empty argument list does nothing.
- The registration accessor is the set of services that already have registrations. Only
  `.Any()` of its result is used.

## Findings

| source | as written | input that shows it | evidently intended | confidence | as-written member | corrected member |
|---|---|---|---|---|---|---|
| Source/JavaScript/Applications/queries/ObservableQueryFor.ts:36 | the teardown registered by an effect calls the `cleanupSubscription` of the render that ran that effect, so it tests the `isSubscribed` of that render, which is `false` before the first subscription | mount, the subscription is stored, then re-render with new arguments: subscription 0 is never unsubscribed, and subscription 1 overwrites the ref | the teardown releases whatever subscription is held, as the current hook does through its ref | high (proved on the model); not executed | LegacyObservableQueryHook.ArgsChangeLosesSubscription | ObservableQueryHook.Hook.Rerender |
| Source/JavaScript/Applications/queries/ObservableQueryFor.ts:73-77 | same stale capture on unmount | mount, the subscription is stored, then unmount: no `unsubscribe` call, and the hook stays subscribed | unmount releases the held subscription | high (proved on the model); not executed | LegacyObservableQueryHook.UnmountLeavesSubscription | ObservableQueryHook.Hook.Unmount |
| Source/DotNET/Autofac/SelfBindingRegistrationSource.cs:52 | the null test reads the field `_predicate`, which is always null at that point, so the argument is always replaced by accept-all | `new SelfBindingRegistrationSource(_ => false)` then `RegistrationsFor` on an unregistered concrete class: one registration | test the parameter: keep a non-null predicate, and default only a null one | high (proved on the model); not executed | SelfBinding.PredicateDiscarded | SelfBinding.NewSourceWithCorrected |
