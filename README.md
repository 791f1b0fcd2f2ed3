# lum.defer.js in Dafny

A model of the three sequential components of `@lumjs/defer`:

- **Timed actions** (`lib/actions.js`). `defer` validates its arguments, then builds a
  *registration*: an object that calls `deferred[method](...args)` when a timer goes off.
  The registration is started before it is returned. Its `cancel` and `restart` control
  the timer. Six wrappers (`resolve`, `reject`, `notify`, `resolveWith`, `rejectWith`,
  `notifyWith`) fix the method name and the repeat flag.
- **`DeferredPromise`** (`lib/promise.js`). A Deferred-style object over a chain of
  native promises. It keeps `status`, the chain of promises, and a list of progress
  handlers for `notify`.
- **`FakeDeferred` and `FakeNotice`** (`lib/fake.js`). A test double: one handler for
  settlement, and an optional notification listener that is a function, an array or
  nothing.

Files:

- `status.dfy`: the `STATUS` enum.
- `js.dfy`: the JavaScript values the library tells apart (`typeof`, `Array.isArray`,
  callable properties) and `TypeError`.
- `wrappers.dfy`: `Option`, `Result` and `Outcome`. A thrown error is a `Failure`/`Fail`.
- `actions.dfy`, `promise.dfy`, `fake.dfy`: one module per source file.
- `scenarios.dfy`: runs built from those operations. One is the test in
  `test/actions.js`; the others show the behaviours listed under "Findings".

How the model treats the environment:

- Host timers are a `Timers` object. Ids come from a counter. `live` maps each pending
  timer to its kind (timeout or interval). An event log records starts, clears and
  firings.
- A timer going off is the explicit step `Registration.Fire(t)`. Its callback is
  `$call` (`Registration.Call`).
- Every native promise in a `DeferredPromise` chain is a `Link`: the index of the link
  it was made from, plus its two continuations. Running one link's reaction job is the
  explicit step `DeferredPromise.Tick(returned)`. `returned` is what the called handler
  returns.
- Handlers are opaque tokens (the `fid` of a `Func` value). Their calls are logged:
  `calls`, `reactions`, `progressCalls`, `finishCalls`, `noteCalls`.
- `Date.now()` is a `now` parameter.
- `console.warn` increments `Registration.warnings`.

Where the doc comments and the code disagree, the model follows the code. The doc
comments in question are `lib/actions.js:40-44`, `lib/promise.js:83-86` and
`lib/promise.js:188-190`.

- `restart` never cancels the previous timer.
- `promise()` with the default offset returns nothing.
- `notify` throws as soon as one progress handler is registered.
- `then` drops its progress function.
- The first handler after the constructor's link receives the status code, not the
  resolution value. Later `done` handlers receive what the handler before them
  returned. A `fail` handler never runs.

The documented behaviour is modelled next to each of these (see "Findings").

## Model

| member | source | states |
|---|---|---|
| `Actions.NeedDelay` | lib/actions.js:73-79 | passes exactly when the value is a number greater than zero, otherwise fails with the source's TypeError message |
| `Actions.CheckDefer` | lib/actions.js:104-108 | passes exactly when deferred is an object, method a string, delay valid, repeat a boolean and `deferred[method]` callable; the first failing check, in source order, decides the error, down to `deferred.<method> must be a function` |
| `Actions.Registration.constructor` | lib/actions.js:110-113 | the registration holds the inputs, `id` is null, `active` is unset, no call has been made |
| `Actions.Registration.Call` | lib/actions.js:114-121 | `$call` invokes `deferred[method](...args)` exactly once; afterwards `id` is null for a one-shot registration whose method returned, and unchanged for a repeating one or when the method threw |
| `Actions.Registration.Fire` | lib/actions.js:148-149 | a timer the registration started goes off and runs `$call`; a timeout stops being pending, an interval stays pending; the registration invariant is kept |
| `Actions.Registration.Cancel` | lib/actions.js:122-134 | when `id` is set (even to a timer that has gone off): clears that timer with the clear function of its kind and sets `id` to null, no warning; when `id` is null: one warning and no timer change; the frame keeps deferred, method, delay, repeat and args |
| `Actions.Registration.Rearm` | lib/actions.js:135-150 | a changed delay is validated first (an invalid one fails with nothing changed) and stored; the current timer is cancelled only if asked; a fresh timer of the registration's kind is started and becomes `id` |
| `Actions.Registration.Restart` | lib/actions.js:135-150 | `restart` with no argument or the current delay skips validation; cancels only when `active`, so with `active` unset the old timer stays pending and `id` names a fresh timer; the whole timer table is given for both values of `active` |
| `Actions.Registration.RestartIntended` | lib/actions.js:40-48 | restart as documented: when `id` is set its timer is cleared before the new one starts, and `active` becomes true; a failed delay check changes nothing |
| `Actions.Defer` | lib/actions.js:102-157 | a failed check returns that error and leaves the timers untouched; otherwise a fresh registration holding the inputs, already armed with a fresh timer of the right kind, the id counter advanced by one |
| `Actions.Wrapped` | lib/actions.js:162-216 | each wrapper is `defer` with its own name as method and repeat true only for notify/notifyWith; it fails exactly when deferred is not an object, the delay is invalid or the named method is missing |
| `Promises.Flatten` | lib/promise.js:127-137 | every function among the arguments is registered; arrays are searched recursively (the loops of `done`, `fail`, `progress` and `always`) |
| `Promises.FlattenAppend` | lib/promise.js:125-139 | the handlers of a concatenation of arguments are those of each part in order (left to right) |
| `Promises.FlattenFinds` | lib/promise.js:169-183 | a handler is registered exactly when it occurs among the arguments, possibly nested in arrays; other values are skipped |
| `Promises.ExtendedAppend` | lib/promise.js:112-116 | appending links in two rounds equals appending them once; earlier links are unchanged |
| `Promises.ExtendedWellChained` | lib/promise.js:112-116 | appended links keep the chain well formed: each link is made from the one before, and only the first sets status; the chain grows by the number of handlers |
| `Promises.React` | lib/promise.js:70-74 | a link's reaction job under native `then` (line 114): a handler's call fulfils the link with its return value, on the side of the parent's outcome; a status setter fulfils with the status code; the link is rejected exactly when the parent was rejected and has no rejection continuation |
| `Promises.ReactIntended` | lib/promise.js:185-194 | the same job with status setters that pass the outcome on: a setter keeps the parent's outcome, and the link is rejected exactly when the parent was and no rejection handler catches it |
| `Promises.StatusSetterSwallowsOutcome` | lib/promise.js:70-74 | the constructor's link fulfils with the status code on both sides, so a later done handler receives RESOLVED or REJECTED and a fail handler is not called |
| `Promises.IntendedSetterPassesOutcome` | lib/promise.js:185-194 | with pass-through status setters, status is still set and later handlers get the resolution value or rejection reason on the matching side only |
| `Promises.LaterLinksStayFulfilled` | lib/promise.js:112-116 | a link after the first, given a fulfilled parent, is fulfilled, sets no status and calls only a fulfilment handler |
| `Promises.DeferredPromise.constructor` | lib/promise.js:61-78 | status PENDING, a chain of exactly the constructor's link, no progress handlers, root unsettled |
| `Promises.DeferredPromise.Promise` | lib/promise.js:90-95 | returns a link exactly for a non-negative in-range offset (that link); every negative offset, the default -1 included, returns nothing |
| `Promises.DeferredPromise.PromiseIntended` | lib/promise.js:80-89 | negative offsets count back from the end, so -1 is the last link |
| `Promises.DeferredPromise.Then` | lib/promise.js:105-117 | appends exactly one link made from the previous last link, returns it, keeps earlier links; the progress argument never changes the handler list |
| `Promises.DeferredPromise.ThenIntended` | lib/promise.js:97-104 | as Then, but a progress function is added to the handler list |
| `Promises.DeferredPromise.AddLink` | lib/promise.js:131 | one `then(f)`, `then(undefined, f)` or `then(f, f)` appends exactly the link for `f` after the last link |
| `Promises.DeferredPromise.AddArgument` | lib/promise.js:129-136 | one argument: a function appends its link, an array appends the links of its flattened contents, anything else appends nothing |
| `Promises.DeferredPromise.AddLinks` | lib/promise.js:127-137 | one `then` link per flattened function, in order; the handler list is unchanged |
| `Promises.DeferredPromise.Done` | lib/promise.js:125-139 | appends one `(f, absent)` link per flattened function and returns `this` |
| `Promises.DeferredPromise.Fail` | lib/promise.js:147-161 | appends one `(absent, f)` link per flattened function and returns `this` |
| `Promises.DeferredPromise.Always` | lib/promise.js:195-209 | appends one `(f, f)` link per flattened function and returns `this` |
| `Promises.DeferredPromise.Progress` | lib/promise.js:169-183 | appends the flattened functions to the handler list in order; chain and status unchanged; returns `this` |
| `Promises.DeferredPromise.Resolve` | lib/promise.js:217-221 | settles the root with the first value if it is unsettled, otherwise nothing; returns `this` |
| `Promises.DeferredPromise.Reject` | lib/promise.js:223-227 | rejects the root with the first value if it is unsettled, otherwise nothing; returns `this` |
| `Promises.DeferredPromise.Notify` | lib/promise.js:229-237 | returns `this` exactly when no progress handler is registered; otherwise fails with "func is not a function" |
| `Promises.DeferredPromise.NotifyIntended` | lib/promise.js:229-237 | calls every progress handler once with the values, in registration order |
| `Promises.DeferredPromise.Tick` | lib/promise.js:63-75 | runs the next link's reaction; status leaves PENDING once, for the root's outcome, and never changes again; no rejection handler is ever called |
| `Fake.MakeNotice` | lib/fake.js:18-25 | succeeds exactly when data is an array, keeping data and time, and the context with `undefined` replaced by the default null; otherwise the source's TypeError |
| `Fake.ListenerOf` | lib/fake.js:73-84 | a function listener is called, an array collects notices (keeping its entries), anything else is ignored |
| `Fake.NewFakeDeferred` | lib/fake.js:59-71 | fails unless whenFinished is a function; otherwise PENDING, context the object itself, data and finished null, an undefined whenNotified taken as null |
| `Fake.FakeDeferred.constructor` | lib/fake.js:59-71 | PENDING, context the object itself, data and finished null, no calls yet |
| `Fake.FakeDeferred.NoticeContext` | lib/fake.js:73-81 | the context a pushed notice records: the argument, or `this.context` when it is undefined, or null when both are |
| `Fake.FakeDeferred.Note` | lib/fake.js:73-84 | a function listener is called with the current context (not the argument); an array gets exactly one notice with the args and the defaulted context; otherwise nothing |
| `Fake.FakeDeferred.Finish` | lib/fake.js:86-93 | sets status, data and finished and calls whenFinished once with the current context; no settlement guard |
| `Fake.FakeDeferred.Resolve` | lib/fake.js:95-98 | status RESOLVED, data the args, whenFinished called once more; a second call overwrites |
| `Fake.FakeDeferred.Reject` | lib/fake.js:99-102 | status REJECTED, data the args, whenFinished called once more |
| `Fake.FakeDeferred.Notify` | lib/fake.js:103-106 | notes with the context omitted, so a notice records `this.context`, or null when that is undefined; status, data, finished and context are untouched |
| `Fake.FakeDeferred.ResolveWith` | lib/fake.js:108-112 | sets context first and keeps it, then resolves with the args |
| `Fake.FakeDeferred.RejectWith` | lib/fake.js:113-117 | sets context first and keeps it, then rejects with the args |
| `Fake.FakeDeferred.NotifyWith` | lib/fake.js:118-121 | the given context reaches a pushed notice but not a listener function; an undefined context falls back to `this.context` (null if that is undefined); context unchanged |
| `Scenarios.ResolveAfterDelay` | test/actions.js:10-21 | after the timer fires, the fake is RESOLVED, whenFinished ran once with the deferred as context and received the one argument |
| `Scenarios.NoticeContexts` | lib/fake.js:73-84 | `notifyWith(undefined, 1)` records the fake itself as context; after `resolveWith(undefined)`, `notify(2)` records null |
| `Scenarios.ThrowingCallKeepsStaleId` | lib/actions.js:114-134 | when a one-shot registration's method throws, `id` keeps the used-up timer, and `cancel` clears it without a warning |
| `Scenarios.RestartLeavesTimerPending` | lib/actions.js:143-149 | after restart, the first timer is still pending and `id` names a different one |
| `Scenarios.CancelMissesRestartedTimer` | lib/actions.js:114-149 | the forgotten timer's firing clears `id`, cancel then only warns, and the method runs twice |
| `Scenarios.RestartIntendedReplacesTimer` | lib/actions.js:40-44 | with the documented restart, the first timer is cleared and cancel stops the second |
| `Scenarios.DefaultPromiseOffset` | lib/promise.js:90-95 | `promise()` on a new object returns nothing; counting from the end gives the constructor's link |
| `Scenarios.DoneAfterResolve` | lib/promise.js:125-139 | done(h1), done(h2), resolve(42): h1 then h2 run, h1 with RESOLVED instead of 42 |
| `Scenarios.FailAfterReject` | lib/promise.js:147-161 | fail(h), reject(err): status REJECTED and h is never called |
| `Scenarios.AlwaysAfterReject` | lib/promise.js:195-209 | always(h), reject(err): h runs once with REJECTED instead of err |
| `Scenarios.NotifyAfterProgress` | lib/promise.js:229-237 | progress(p), notify(1): the as-written call fails; the intended one calls p with 1 |
| `Scenarios.ThenWithProgress` | lib/promise.js:105-110 | then with a progress function registers nothing; passing the function itself would register it |

## Findings

| source | as written | input that shows it | evidently intended | confidence | as-written member | corrected member |
|---|---|---|---|---|---|---|
| lib/promise.js:93 | a negative offset becomes `length - offset`, past the end | `promise()` (offset -1) on any object | `length + offset`: -1 is the last link, as the doc comment says | high, not executed | `Promises.DeferredPromise.Promise`, `Scenarios.DefaultPromiseOffset` | `Promises.DeferredPromise.PromiseIntended` |
| lib/promise.js:232 | `for...in` binds the index strings, so `func(...values)` calls `"0"` | `progress(p)` then `notify(1)` | `for...of`: each handler is called with the values | high, not executed | `Promises.DeferredPromise.Notify`, `Scenarios.NotifyAfterProgress` | `Promises.DeferredPromise.NotifyIntended` |
| lib/promise.js:109 | `progress(F)` passes the string "function" instead of `progFunc` | `then(undefined, undefined, p)` | `progress(progFunc)` | high, not executed | `Promises.DeferredPromise.Then`, `Scenarios.ThenWithProgress` | `Promises.DeferredPromise.ThenIntended` |
| lib/actions.js:143 | `this.active` is never assigned, so a pending timer is not cancelled | `resolve(d, 100)`, `restart(200)`, first timer fires, `cancel()` | cancel the pending timer first, as lines 42-43 say | high, not executed | `Actions.Registration.Restart`, `Scenarios.CancelMissesRestartedTimer` | `Actions.Registration.RestartIntended`, `Scenarios.RestartIntendedReplacesTimer` |
| lib/promise.js:72-73 | the status setters return the status and catch the rejection | `done(h)` then `resolve(42)`; `fail(h)` then `reject(e)` | set status and pass the value or rethrow the reason, as `always`'s doc says | high, not executed | `Promises.StatusSetterSwallowsOutcome`, `Scenarios.FailAfterReject` | `Promises.ReactIntended`, `Promises.IntendedSetterPassesOutcome` |

The class methods use the code as written. The corrected members stand beside them.

## Left out

- `Date.now()` timestamps are a `now` parameter. Real time and delays elapsing are not
  modelled: a timer goes off when `Fire` is called.
- Node timer ids are objects, not numbers, so `typeof this.id === N` would fail there.
  The model uses numeric ids, as the documentation of `id` says.
- Delays are integers. Fractional delays and `NaN` are not modelled; `NaN` passes
  `needDelay`.
- `console.warn` is a counter.
- Arrays passed as `deferred` are objects without callable members. Their inherited
  `Array.prototype` methods are not modelled.
- The dispatch `deferred[method](...args)` is logged as an `Invocation`. Whether it
  throws is the `threw` argument of `Fire`. What the method itself does is not modelled;
  the call is delivered to a fake only in `Scenarios.ResolveAfterDelay`.
- Several registrations share one `Timers` table. Each registration's invariant is proved
  only for operations on that registration.
- `promiseState` is not modelled: it is asynchronous and built on `Promise.race`.
- Native promise details:
  - Adopting a thenable passed to `resolve` is not modelled.
  - A promise handler that throws is not modelled; promise handlers are assumed to return.
  - The interleaving of reaction jobs across different objects is not modelled.
- Handler bodies and their `this` binding are not modelled. Handlers are tokens, and
  their calls are logged.
- `Promises.DeferredPromise.Tick`: runs reaction jobs of a single chain only, one link at
  a time in chain order.
- A `whenNotified` array is a sequence field of the fake. The caller keeps no alias to it,
  so the caller does not see the pushes.
- The `deferred`, `method`, `repeat` and `args` properties of a registration are
  constants. The library never assigns them; a caller that does is not modelled.
- `lib/index.js` is lazy-loading glue. `test/inc/testsets.js` and `test/default.js` drive
  tests with wall-clock time. None of them is part of this model.
