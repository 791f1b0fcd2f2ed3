/** Runs of the library built from the operations above: the test in
    test/actions.js, and what `restart` leaves behind. The call a firing
    timer makes, `deferred[method](...args)`, is delivered to the fake by
    hand. */
module Scenarios {
  import opened Wrappers
  import opened Js
  import opened StatusEnum
  import Actions
  import Fake
  import opened Promises

  /** The names under which a `FakeDeferred` has a callable property. */
  const FakeMethods: set<string> :=
    {"constructor", "_note", "_finish", "resolve", "reject", "notify",
     "resolveWith", "rejectWith", "notifyWith"}

  /** test/actions.js: `resolve(deferred, 500, 'test 1 resolved')` on a fake
      deferred; once the timer has gone off the deferred is resolved,
      `whenFinished` ran once with the deferred as context and received the
      one argument. */
  method ResolveAfterDelay() returns (status: Status, finishCount: nat, contextIsDeferred: bool, received: seq<Value>)
    ensures status == Resolved && finishCount == 1 && contextIsDeferred
    ensures received == [Str("test 1 resolved")]
  {
    var timers := new Actions.Timers();
    var self := Obj(1, FakeMethods);
    var made := Fake.NewFakeDeferred(self, Func(0), Null, 0);
    var deferred := made.value;
    var args := [Str("test 1 resolved")];
    var scheduled := Actions.Wrapped(timers, Actions.Resolve, self, Num(500), args);
    var reg := scheduled.value;
    reg.Fire(reg.id.value, false);
    var call := reg.calls[0];
    assert call == Actions.Invocation(self, "resolve", args);
    deferred.Resolve(call.args, 500);
    status := deferred.status;
    finishCount := |deferred.finishCalls|;
    contextIsDeferred := deferred.finishCalls[0].context == deferred.self;
    received := deferred.finishCalls[0].args;
  }

  /** `notifyWith(undefined, 1)` on a fake collecting notices records the
      fake itself as context; after `resolveWith(undefined)`, `notify(2)`
      records null, the notice's own default. */
  method NoticeContexts() returns (self: Value, first: Fake.Entry, second: Fake.Entry)
    ensures first == Fake.Posted(Fake.Notice(1, [Num(1)], self))
    ensures second == Fake.Posted(Fake.Notice(2, [Num(2)], Null))
  {
    self := Obj(1, FakeMethods);
    var made := Fake.NewFakeDeferred(self, Func(0), Array([]), 0);
    var d := made.value;
    assert d.whenNotified == Fake.Collect([]);
    d.NotifyWith(Undefined, [Num(1)], 1);
    d.ResolveWith(Undefined, [], 1);
    d.Notify([Num(2)], 2);
    first := d.whenNotified.entries[0];
    second := d.whenNotified.entries[1];
  }

  /** A one-shot registration whose method throws when its timer goes off
      keeps the used-up timer's id; `cancel` then clears that dead id
      without a warning. */
  method ThrowingCallKeepsStaleId() returns (first: nat, idAfterFiring: Option<nat>, firstPending: bool, warnings: nat)
    ensures idAfterFiring == Some(first) && !firstPending && warnings == 0
  {
    var timers := new Actions.Timers();
    var target := Obj(1, {"resolve"});
    var scheduled := Actions.Wrapped(timers, Actions.Resolve, target, Num(100), []);
    var reg := scheduled.value;
    first := reg.id.value;
    reg.Fire(first, true);
    idAfterFiring := reg.id;
    firstPending := first in timers.live;
    reg.Cancel();
    warnings := reg.warnings;
  }

  /** `restart` with a new delay on a pending one-shot registration: the
      first timer stays pending while `id` names the second. */
  method RestartLeavesTimerPending() returns (first: nat, second: nat, firstPending: bool, current: Option<nat>)
    ensures first != second && firstPending && current == Some(second)
  {
    var timers := new Actions.Timers();
    var target := Obj(1, {"resolve"});
    var scheduled := Actions.Wrapped(timers, Actions.Resolve, target, Num(100), []);
    var reg := scheduled.value;
    first := reg.id.value;
    var restarted := reg.Restart(Num(200));
    second := reg.id.value;
    firstPending := first in timers.live;
    current := reg.id;
  }

  /** Continuing from there: the forgotten timer goes off, which clears
      `id`; `cancel` then finds nothing to cancel and only warns, and the
      second timer still goes off, so `resolve` runs twice. */
  method CancelMissesRestartedTimer() returns (callCount: nat, warnings: nat, secondPending: bool)
    ensures callCount == 2 && warnings == 1 && !secondPending
  {
    var timers := new Actions.Timers();
    var target := Obj(1, {"resolve"});
    var scheduled := Actions.Wrapped(timers, Actions.Resolve, target, Num(100), []);
    var reg := scheduled.value;
    var first := reg.id.value;
    var restarted := reg.Restart(Num(200));
    var second := reg.id.value;
    reg.Fire(first, false);
    reg.Cancel();
    reg.Fire(second, false);
    callCount := |reg.calls|;
    warnings := reg.warnings;
    secondPending := second in timers.live;
  }

  /** The same restart with the documented behaviour: the first timer is
      cleared, one timer is pending, and `cancel` stops it. */
  method RestartIntendedReplacesTimer() returns (firstPending: bool, pendingAfterCancel: bool, warnings: nat)
    ensures !firstPending && !pendingAfterCancel && warnings == 0
  {
    var timers := new Actions.Timers();
    var target := Obj(1, {"resolve"});
    var scheduled := Actions.Wrapped(timers, Actions.Resolve, target, Num(100), []);
    var reg := scheduled.value;
    var first := reg.id.value;
    var restarted := reg.RestartIntended(Num(200));
    var second := reg.id.value;
    firstPending := first in timers.live;
    reg.Cancel();
    pendingAfterCancel := first in timers.live || second in timers.live;
    warnings := reg.warnings;
  }

  /** `promise()` with its default offset -1 finds nothing on a new
      deferred; counting from the end it would be the constructor's link. */
  method DefaultPromiseOffset() returns (asWritten: Option<Link>, intended: Option<Link>)
    ensures asWritten == None && intended == Some(InitialLink)
  {
    var d := new DeferredPromise();
    asWritten := d.Promise(-1);
    intended := d.PromiseIntended(-1);
  }

  /** `done(h1)`, `done(h2)`, `resolve(42)` and the three reaction jobs:
      the handlers run in registration order, but `h1` receives the status
      code RESOLVED rather than 42, and `h2` what `h1` returned. */
  method DoneAfterResolve(h1: nat, h2: nat, back: Value) returns (reactions: seq<Reaction>, status: Status)
    ensures status == Resolved
    ensures reactions == [Reaction(1, h1, StatusCode(Resolved), false), Reaction(2, h2, back, false)]
  {
    var d := new DeferredPromise();
    FlattenSingle(Func(h1));
    FlattenSingle(Func(h2));
    var self := d.Done([Func(h1)]);
    self := d.Done([Func(h2)]);
    assert d.chain == [InitialLink, LinkFor(0, h1, OnDone), LinkFor(1, h2, OnDone)];
    self := d.Resolve([Num(42)]);
    assert d.root == Fulfilled(Num(42));
    d.Tick(Undefined);
    assert d.status == Resolved;
    assert d.last == Fulfilled(StatusCode(Resolved)) && d.reactions == [];
    d.Tick(back);
    assert d.last == Fulfilled(back) && d.reactions == [Reaction(1, h1, StatusCode(Resolved), false)];
    d.Tick(Undefined);
    reactions := d.reactions;
    status := d.status;
  }

  /** `fail(h)` then `reject(err)`: the status becomes REJECTED but the
      constructor's link has turned the rejection into a fulfilment, so
      `h` is never called. */
  method FailAfterReject(h: nat, err: Value) returns (reactions: seq<Reaction>, status: Status)
    ensures status == Rejected && reactions == []
  {
    var d := new DeferredPromise();
    FlattenSingle(Func(h));
    var self := d.Fail([Func(h)]);
    assert d.chain == [InitialLink, LinkFor(0, h, OnFail)];
    self := d.Reject([err]);
    d.Tick(Undefined);
    d.Tick(Undefined);
    reactions := d.reactions;
    status := d.status;
  }

  /** `always(h)` then `reject(err)`: `h` runs once, on the fulfilment side,
      with the status code REJECTED instead of `err`. */
  method AlwaysAfterReject(h: nat, err: Value) returns (reactions: seq<Reaction>, status: Status)
    ensures status == Rejected
    ensures reactions == [Reaction(1, h, StatusCode(Rejected), false)]
  {
    var d := new DeferredPromise();
    FlattenSingle(Func(h));
    var self := d.Always([Func(h)]);
    assert d.chain == [InitialLink, LinkFor(0, h, OnAlways)];
    self := d.Reject([err]);
    d.Tick(Undefined);
    d.Tick(Undefined);
    reactions := d.reactions;
    status := d.status;
  }

  /** `progress(p)` then `notify(1)`: the call throws and `p` is not
      called; the intended loop calls `p` with the values. */
  method NotifyAfterProgress(p: nat) returns (asWritten: Result<DeferredPromise, Error>, intended: seq<ProgressCall>)
    ensures asWritten == Failure(TypeError(NotCallableMessage))
    ensures intended == [ProgressCall(p, [Num(1)])]
  {
    var d := new DeferredPromise();
    FlattenSingle(Func(p));
    var self := d.Progress([Func(p)]);
    asWritten := d.Notify([Num(1)]);
    assert d.handlers == [p];
    self := d.NotifyIntended([Num(1)]);
    assert d.handlers[0] == p;
    assert d.progressCalls[0] == ProgressCall(p, [Num(1)]);
    intended := d.progressCalls;
  }

  /** `then(undefined, undefined, p)` registers no progress handler;
      passing `p` itself to `progress` would register it. */
  method ThenWithProgress(p: nat) returns (asWritten: seq<nat>, intended: seq<nat>)
    ensures asWritten == [] && intended == [p]
  {
    var d := new DeferredPromise();
    var link := d.Then(Undefined, Undefined, Func(p));
    asWritten := d.handlers;
    var e := new DeferredPromise();
    link := e.ThenIntended(Undefined, Undefined, Func(p));
    intended := e.handlers;
  }
}
