/** Timed actions on a deferred object (lib/actions.js): `needDelay`, `defer`
    with the `Registration` it returns, and the six wrappers made by `wrap`.
    The host's timers are the `Timers` table below; a timer going off is the
    explicit step `Registration.Fire`. */
module Actions {
  import opened Wrappers
  import opened Js

  const DelayMessage := "delay must be a number greater than zero"
  const ObjectMessage := "deferred must be an object"
  const MethodMessage := "method must be a string"
  const RepeatMessage := "repeat must be a boolean"

  function CallableMessage(methodName: string): string {
    "deferred." + methodName + " must be a function"
  }

  /** `needDelay`: a delay must be a number greater than zero. */
  function NeedDelay(delay: Value): (r: Outcome<Error>)
    ensures r.Pass? <==> delay.Num? && delay.n > 0
    ensures r.Fail? ==> r.error == TypeError(DelayMessage)
  {
    if !delay.Num? || delay.n <= 0 then Fail(TypeError(DelayMessage)) else Pass
  }

  /** The argument checks at the head of `defer`, in the order the source
      makes them: the first one that fails decides the error thrown. */
  function CheckDefer(deferred: Value, methodName: Value, delay: Value, repeat: Value): (r: Outcome<Error>)
    ensures r.Pass? <==>
      IsObject(deferred) && methodName.Str? && NeedDelay(delay).Pass? && repeat.Bool?
      && methodName.s in Callable(deferred)
    ensures !IsObject(deferred) ==> r == Fail(TypeError(ObjectMessage))
    ensures IsObject(deferred) && !methodName.Str? ==> r == Fail(TypeError(MethodMessage))
    ensures IsObject(deferred) && methodName.Str? && NeedDelay(delay).Fail? ==> r == NeedDelay(delay)
    ensures IsObject(deferred) && methodName.Str? && NeedDelay(delay).Pass? && !repeat.Bool? ==>
      r == Fail(TypeError(RepeatMessage))
    ensures IsObject(deferred) && methodName.Str? && NeedDelay(delay).Pass? && repeat.Bool?
            && methodName.s !in Callable(deferred) ==>
      r == Fail(TypeError(CallableMessage(methodName.s)))
  {
    if !IsObject(deferred) then Fail(TypeError(ObjectMessage))
    else if !methodName.Str? then Fail(TypeError(MethodMessage))
    else if NeedDelay(delay).Fail? then NeedDelay(delay)
    else if !repeat.Bool? then Fail(TypeError(RepeatMessage))
    else if methodName.s !in Callable(deferred) then Fail(TypeError(CallableMessage(methodName.s)))
    else Pass
  }

  /** Whether `restart(arg)` accepts its argument: no argument (`undefined`,
      which selects the default), the current delay, or a valid new delay. */
  predicate RestartAccepts(arg: Value, delay: int) {
    arg == Undefined || arg == Num(delay) || NeedDelay(arg).Pass?
  }

  /** The delay in force after an accepted `restart(arg)`. */
  function NewDelay(arg: Value, delay: int): int
    requires RestartAccepts(arg, delay)
  {
    if arg == Undefined then delay else arg.n
  }

  // ---------------------------------------------------------------------
  // The host's timers

  /** `setTimeout` (one-shot) or `setInterval` (repeating). */
  datatype Kind = Timeout | Interval

  function KindOf(repeat: bool): Kind {
    if repeat then Interval else Timeout
  }

  datatype TimerEvent =
    | Started(kind: Kind, id: nat, delay: int)
    | Cleared(kind: Kind, id: nat)
    | Fired(id: nat)

  /** The host's timer table: ids come from a counter, `live` maps every
      pending timer to its kind, and `events` records what the library asked
      of the host and which timers went off. */
  class Timers {
    var next: nat
    var live: map<nat, Kind>
    var events: seq<TimerEvent>

    ghost predicate Valid()
      reads this
    {
      forall t :: t in live ==> t < next
    }

    constructor ()
      ensures Valid() && next == 0 && live == map[] && events == []
    {
      next, live, events := 0, map[], [];
    }

    /** `setTimeout`/`setInterval`: a fresh id that no pending timer has. */
    method Start(kind: Kind, delay: int) returns (id: nat)
      requires Valid()
      modifies this
      ensures Valid()
      ensures id == old(next) && id !in old(live) && next == old(next) + 1
      ensures live == old(live)[id := kind]
      ensures events == old(events) + [Started(kind, id, delay)]
    {
      id := next;
      next := next + 1;
      live := live[id := kind];
      events := events + [Started(kind, id, delay)];
    }

    /** `clearTimeout`/`clearInterval`: the timer no longer goes off. */
    method Clear(kind: Kind, id: nat)
      requires Valid()
      modifies this`live, this`events
      ensures Valid()
      ensures live == old(live) - {id}
      ensures events == old(events) + [Cleared(kind, id)]
    {
      live := live - {id};
      events := events + [Cleared(kind, id)];
    }

    /** The host runs a pending timer's callback: a timeout is used up by
        going off, an interval stays pending. */
    method Expire(id: nat)
      requires Valid() && id in live
      modifies this`live, this`events
      ensures Valid()
      ensures live == if old(live)[id] == Timeout then old(live) - {id} else old(live)
      ensures events == old(events) + [Fired(id)]
    {
      if live[id] == Timeout {
        live := live - {id};
      }
      events := events + [Fired(id)];
    }
  }

  // ---------------------------------------------------------------------
  // Registrations

  /** One call `deferred[method](...args)`. */
  datatype Invocation = Invocation(target: Value, methodName: string, args: seq<Value>)

  /** The object `defer` returns. `deferred`, `method`, `repeat` and `args`
      are never assigned by the library after creation; `delay` and `id` are. */
  class Registration {
    const timers: Timers
    const deferred: Value
    const methodName: string
    var delay: int
    const repeat: bool
    const args: seq<Value>
    /** The id of the timer last started, or null. It can name a timer that
        has gone off already, when the deferred's method threw during `$call`. */
    var id: Option<nat>
    /** `this.active`: read by `restart`, assigned nowhere in the library. */
    var active: bool
    /** How many times `cancel` printed "event was not running". */
    var warnings: nat
    /** The calls `deferred[method](...args)` made so far. */
    var calls: seq<Invocation>
    /** Every timer this registration has started. */
    ghost var started: set<nat>

    ghost predicate Valid()
      reads this, timers
    {
      timers.Valid() && delay > 0
      && (id.Some? ==> id.value in started)
      && (forall t :: t in started ==> t < timers.next)
      && (forall t :: t in started && t in timers.live ==> timers.live[t] == KindOf(repeat))
    }

    /** The object literal of `defer`, before it is started. */
    constructor (timers: Timers, deferred: Value, methodName: string, delay: int, repeat: bool, args: seq<Value>)
      requires timers.Valid() && delay > 0
      ensures Valid()
      ensures this.timers == timers && this.deferred == deferred && this.methodName == methodName
      ensures this.delay == delay && this.repeat == repeat && this.args == args
      ensures id == None && !active && warnings == 0 && calls == [] && started == {}
    {
      this.timers := timers;
      this.deferred := deferred;
      this.methodName := methodName;
      this.delay := delay;
      this.repeat := repeat;
      this.args := args;
      id := None;
      active := false;
      warnings := 0;
      calls := [];
      started := {};
    }

    /** `$call`: invoke the deferred's method once; a one-shot registration
        then forgets its timer. `threw` says whether the method threw, which
        ends `$call` before `id` is reset. */
    method Call(threw: bool)
      modifies this`id, this`calls
      ensures calls == old(calls) + [Invocation(deferred, methodName, args)]
      ensures id == if repeat || threw then old(id) else None
    {
      calls := calls + [Invocation(deferred, methodName, args)];
      if threw {
        return;
      }
      if !repeat {
        id := None;
      }
    }

    /** Timer `t`, started by this registration, goes off and its callback
        runs `$call`. The timer need not be the current `id`: `restart` can
        leave an older one pending. */
    method Fire(t: nat, threw: bool)
      requires Valid() && t in started && t in timers.live
      modifies this`id, this`calls, timers`live, timers`events
      ensures Valid()
      ensures calls == old(calls) + [Invocation(deferred, methodName, args)]
      ensures id == if repeat || threw then old(id) else None
      ensures timers.live == if repeat then old(timers.live) else old(timers.live) - {t}
      ensures timers.events == old(timers.events) + [Fired(t)]
    {
      timers.Expire(t);
      Call(threw);
    }

    /** `cancel`: clear the timer `id` names with the clear function of its
        kind and set `id` to null; with no id, only warn. */
    method Cancel()
      requires Valid()
      modifies this`id, this`warnings, timers`live, timers`events
      ensures Valid()
      ensures id == None
      ensures old(id).Some? ==>
        && warnings == old(warnings)
        && timers.live == old(timers.live) - {old(id).value}
        && timers.events == old(timers.events) + [Cleared(KindOf(repeat), old(id).value)]
      ensures old(id).None? ==>
        && warnings == old(warnings) + 1
        && timers.live == old(timers.live)
        && timers.events == old(timers.events)
    {
      if id.Some? {
        timers.Clear(KindOf(repeat), id.value);
        id := None;
      } else {
        warnings := warnings + 1;
      }
    }

    /** The body of `restart`, with the test that decides whether the
        current timer is cancelled first passed as `cancelFirst`. */
    method Rearm(arg: Value, cancelFirst: bool) returns (r: Outcome<Error>)
      requires Valid()
      modifies this`delay, this`id, this`warnings, this`started, timers
      ensures Valid()
      ensures r.Pass? <==> RestartAccepts(arg, old(delay))
      ensures r.Fail? ==>
        && r == NeedDelay(arg)
        && delay == old(delay) && id == old(id) && warnings == old(warnings)
        && started == old(started) && unchanged(timers)
      ensures r.Pass? ==>
        && delay == NewDelay(arg, old(delay))
        && id == Some(old(timers.next))
        && started == old(started) + {old(timers.next)}
        && timers.next == old(timers.next) + 1
      ensures r.Pass? && !cancelFirst ==>
        && warnings == old(warnings)
        && timers.live == old(timers.live)[old(timers.next) := KindOf(repeat)]
        && timers.events == old(timers.events) + [Started(KindOf(repeat), old(timers.next), delay)]
      ensures r.Pass? && cancelFirst && old(id).Some? ==>
        && warnings == old(warnings)
        && timers.live == (old(timers.live) - {old(id).value})[old(timers.next) := KindOf(repeat)]
        && timers.events == old(timers.events)
           + [Cleared(KindOf(repeat), old(id).value), Started(KindOf(repeat), old(timers.next), delay)]
      ensures r.Pass? && cancelFirst && old(id).None? ==>
        && warnings == old(warnings) + 1
        && timers.live == old(timers.live)[old(timers.next) := KindOf(repeat)]
        && timers.events == old(timers.events) + [Started(KindOf(repeat), old(timers.next), delay)]
    {
      var d := if arg == Undefined then Num(delay) else arg;
      if d != Num(delay) {
        r := NeedDelay(d);
        if r.Fail? {
          return;
        }
        delay := d.n;
      }
      if cancelFirst {
        Cancel();
      }
      var t := timers.Start(KindOf(repeat), delay);
      id := Some(t);
      started := started + {t};
      r := Pass;
    }

    /** `restart(delay = this.delay)`: validate a changed delay, cancel the
        current timer only when `this.active` is set, and start a new timer.
        `active` is never set, so a pending timer is left running. */
    method Restart(arg: Value) returns (r: Outcome<Error>)
      requires Valid()
      modifies this`delay, this`id, this`warnings, this`started, timers
      ensures Valid()
      ensures r.Pass? <==> RestartAccepts(arg, old(delay))
      ensures r.Fail? ==>
        && r == NeedDelay(arg)
        && delay == old(delay) && id == old(id) && warnings == old(warnings)
        && started == old(started) && unchanged(timers)
      ensures r.Pass? ==>
        && delay == NewDelay(arg, old(delay))
        && id == Some(old(timers.next))
        && started == old(started) + {old(timers.next)}
        && timers.next == old(timers.next) + 1
      ensures r.Pass? && !old(active) ==>
        && warnings == old(warnings)
        && timers.live == old(timers.live)[old(timers.next) := KindOf(repeat)]
        && timers.events == old(timers.events) + [Started(KindOf(repeat), old(timers.next), delay)]
      ensures r.Pass? && old(active) && old(id).Some? ==>
        && warnings == old(warnings)
        && timers.live == (old(timers.live) - {old(id).value})[old(timers.next) := KindOf(repeat)]
        && timers.events == old(timers.events)
           + [Cleared(KindOf(repeat), old(id).value), Started(KindOf(repeat), old(timers.next), delay)]
      ensures r.Pass? && old(active) && old(id).None? ==>
        && warnings == old(warnings) + 1
        && timers.live == old(timers.live)[old(timers.next) := KindOf(repeat)]
        && timers.events == old(timers.events) + [Started(KindOf(repeat), old(timers.next), delay)]
    {
      r := Rearm(arg, active);
    }

    /** `restart` as its documentation describes it: when `id` is not null
        the timer is cancelled before the new one starts, and `active`
        becomes true. */
    method RestartIntended(arg: Value) returns (r: Outcome<Error>)
      requires Valid()
      modifies this`delay, this`id, this`warnings, this`started, this`active, timers
      ensures Valid()
      ensures r.Pass? <==> RestartAccepts(arg, old(delay))
      ensures r.Fail? ==>
        && r == NeedDelay(arg)
        && delay == old(delay) && id == old(id) && warnings == old(warnings)
        && started == old(started) && active == old(active) && unchanged(timers)
      ensures r.Pass? ==>
        && delay == NewDelay(arg, old(delay))
        && id == Some(old(timers.next))
        && started == old(started) + {old(timers.next)}
        && timers.next == old(timers.next) + 1
        && warnings == old(warnings)
        && active
      ensures r.Pass? && old(id).Some? ==>
        && timers.live == (old(timers.live) - {old(id).value})[old(timers.next) := KindOf(repeat)]
        && timers.events == old(timers.events)
           + [Cleared(KindOf(repeat), old(id).value), Started(KindOf(repeat), old(timers.next), delay)]
      ensures r.Pass? && old(id).None? ==>
        && timers.live == old(timers.live)[old(timers.next) := KindOf(repeat)]
        && timers.events == old(timers.events) + [Started(KindOf(repeat), old(timers.next), delay)]
    {
      r := Rearm(arg, id.Some?);
      if r.Pass? {
        active := true;
      }
    }
  }

  /** A registration just made by `defer` and started: it holds the
      arguments and its `id` is the fresh timer `t`. */
  ghost predicate JustArmed(reg: Registration, timers: Timers, deferred: Value, methodName: string,
                            delay: int, repeat: bool, args: seq<Value>,
                            t: nat, liveBefore: map<nat, Kind>, eventsBefore: seq<TimerEvent>)
    reads reg, timers
  {
    && reg.timers == timers && reg.Valid()
    && reg.deferred == deferred && reg.methodName == methodName && reg.delay == delay
    && reg.repeat == repeat && reg.args == args
    && reg.id == Some(t) && !reg.active && reg.warnings == 0 && reg.calls == []
    && reg.started == {t} && timers.next == t + 1
    && timers.live == liveBefore[t := KindOf(repeat)]
    && timers.events == eventsBefore + [Started(KindOf(repeat), t, delay)]
  }

  /** `defer(deferred, method, delay, repeat, ...args)`: validate, build the
      registration and start it before returning it. A failed check creates
      nothing and starts no timer. */
  method Defer(timers: Timers, deferred: Value, methodName: Value, delay: Value, repeat: Value, args: seq<Value>)
    returns (r: Result<Registration, Error>)
    requires timers.Valid()
    modifies timers
    ensures timers.Valid()
    ensures CheckDefer(deferred, methodName, delay, repeat).Fail? ==>
      r == Failure(CheckDefer(deferred, methodName, delay, repeat).error) && unchanged(timers)
    ensures CheckDefer(deferred, methodName, delay, repeat).Pass? ==>
      && r.Success? && fresh(r.value)
      && JustArmed(r.value, timers, deferred, methodName.s, delay.n, repeat.b, args,
                   old(timers.next), old(timers.live), old(timers.events))
  {
    var check := CheckDefer(deferred, methodName, delay, repeat);
    if check.Fail? {
      return Failure(check.error);
    }
    var reg := new Registration(timers, deferred, methodName.s, delay.n, repeat.b, args);
    var restarted := reg.Restart(Undefined);
    r := Success(reg);
  }

  // ---------------------------------------------------------------------
  // The wrappers made by `wrap`

  /** The six exported wrappers. */
  datatype Action = Resolve | Reject | Notify | ResolveWith | RejectWith | NotifyWith

  /** The method name a wrapper passes to `defer`: its own exported name. */
  function MethodName(a: Action): string {
    match a
    case Resolve => "resolve"
    case Reject => "reject"
    case Notify => "notify"
    case ResolveWith => "resolveWith"
    case RejectWith => "rejectWith"
    case NotifyWith => "notifyWith"
  }

  /** The repeat flag a wrapper passes to `defer`. */
  function Repeats(a: Action): bool {
    a == Notify || a == NotifyWith
  }

  /** `actions[name](deferred, delay, ...args)`: `defer` with the wrapper's
      method name and repeat flag. Only the object, delay and callable
      checks can fail. */
  method Wrapped(timers: Timers, a: Action, deferred: Value, delay: Value, args: seq<Value>)
    returns (r: Result<Registration, Error>)
    requires timers.Valid()
    modifies timers
    ensures timers.Valid()
    ensures r.Success? <==>
      IsObject(deferred) && NeedDelay(delay).Pass? && MethodName(a) in Callable(deferred)
    ensures r.Failure? ==> unchanged(timers)
    ensures r.Success? ==>
      && fresh(r.value)
      && JustArmed(r.value, timers, deferred, MethodName(a), delay.n, Repeats(a), args,
                   old(timers.next), old(timers.live), old(timers.events))
  {
    r := Defer(timers, deferred, Str(MethodName(a)), delay, Bool(Repeats(a)), args);
  }
}
