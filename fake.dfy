/** `FakeNotice` and `FakeDeferred` (lib/fake.js): a deferred object with
    one handler for settling and an optional listener for notifications.
    Handlers are opaque tokens whose calls are recorded; `Date.now()` is the
    parameter `now`. */
module Fake {
  import opened Wrappers
  import opened Js
  import opened StatusEnum

  /** A `FakeNotice`: one recorded notification. */
  datatype Notice = Notice(time: int, data: seq<Value>, context: Value)

  const DataMessage := "data must be an Array"
  const FinishedMessage := "whenFinished must be a function"

  /** A JavaScript default parameter: `undefined`, passed or omitted,
      selects the default. */
  function Defaulted(v: Value, default: Value): Value {
    if v == Undefined then default else v
  }

  /** `new FakeNotice(data, context = null)`: throws unless `data` is an
      array. */
  function MakeNotice(data: Value, context: Value, now: int): (r: Result<Notice, Error>)
    ensures r.Success? <==> data.Array?
    ensures r.Success? ==> r.value.data == data.items && r.value.time == now
    ensures r.Success? && context == Undefined ==> r.value.context == Null
    ensures r.Success? && context != Undefined ==> r.value.context == context
    ensures r.Failure? ==> r.error == TypeError(DataMessage)
  {
    if data.Array? then Success(Notice(now, data.items, Defaulted(context, Null)))
    else Failure(TypeError(DataMessage))
  }

  /** An element of a `whenNotified` array: one the caller put there, or a
      notice pushed by `_note`. */
  datatype Entry = Given(v: Value) | Posted(notice: Notice)

  /** What `_note` finds in `whenNotified`: a function to call, an array to
      push notices onto, or anything else, which it ignores. */
  datatype Listener = Callback(fid: nat) | Collect(entries: seq<Entry>) | Ignore(v: Value)

  /** `whenNotified` as `_note` classifies it: `typeof` function first,
      then `Array.isArray`. */
  function ListenerOf(v: Value): (l: Listener)
    ensures l.Callback? <==> v.Func?
    ensures l.Collect? <==> v.Array?
    ensures l.Callback? ==> l.fid == v.fid
    ensures l.Collect? ==> |l.entries| == |v.items|
                           && forall i :: 0 <= i < |v.items| ==> l.entries[i] == Given(v.items[i])
    ensures l.Ignore? ==> l.v == v
  {
    match v
    case Func(f) => Callback(f)
    case Array(items) => Collect(seq(|items|, i requires 0 <= i < |items| => Given(items[i])))
    case _ => Ignore(v)
  }

  /** One call of a handler: `handler.apply(context, args)`. */
  datatype Call = Call(context: Value, args: seq<Value>)

  class FakeDeferred {
    /** This object as a JavaScript value: what `context` starts as. */
    const self: Value
    const whenFinished: nat
    var whenNotified: Listener
    var status: Status
    var context: Value
    /** The arguments of the last settlement; `None` is the initial null. */
    var data: Option<seq<Value>>
    const started: int
    var finished: Option<int>
    /** Calls of `whenFinished`, in order. */
    var finishCalls: seq<Call>
    /** Calls of a `whenNotified` function, in order. */
    var noteCalls: seq<Call>

    constructor (self: Value, whenFinished: nat, whenNotified: Value, now: int)
      ensures this.self == self && this.whenFinished == whenFinished
      ensures this.whenNotified == ListenerOf(Defaulted(whenNotified, Null))
      ensures status == Pending && context == self && data == None
      ensures started == now && finished == None
      ensures finishCalls == [] && noteCalls == []
    {
      this.self := self;
      this.whenFinished := whenFinished;
      this.whenNotified := ListenerOf(Defaulted(whenNotified, Null));
      status := Pending;
      context := self;
      data := None;
      started := now;
      finished := None;
      finishCalls := [];
      noteCalls := [];
    }

    /** The context a notice pushed by `_note(data, context)` records:
        `undefined` selects `this.context`, and an undefined `this.context`
        then selects the notice's own default, null. */
    function NoticeContext(context: Value): (c: Value)
      reads this`context
      ensures context != Undefined ==> c == context
      ensures context == Undefined && this.context != Undefined ==> c == this.context
      ensures context == Undefined && this.context == Undefined ==> c == Null
    {
      Defaulted(Defaulted(context, this.context), Null)
    }

    /** `_note(data, context = this.context)`: call a listener function
        with `this.context` (not the `context` argument), push a notice
        onto a listener array, or do nothing. Settlement state is never
        touched. `context == Undefined` is the omitted argument. */
    method Note(data: seq<Value>, context: Value, now: int)
      modifies this`whenNotified, this`noteCalls
      ensures old(whenNotified).Callback? ==>
        noteCalls == old(noteCalls) + [Call(this.context, data)] && whenNotified == old(whenNotified)
      ensures old(whenNotified).Collect? ==>
        noteCalls == old(noteCalls)
        && whenNotified == Collect(old(whenNotified).entries + [Posted(Notice(now, data, NoticeContext(context)))])
      ensures old(whenNotified).Ignore? ==>
        noteCalls == old(noteCalls) && whenNotified == old(whenNotified)
    {
      match whenNotified {
        case Callback(f) =>
          noteCalls := noteCalls + [Call(this.context, data)];
        case Collect(entries) =>
          var made := MakeNotice(Array(data), Defaulted(context, this.context), now);
          whenNotified := Collect(entries + [Posted(made.value)]);
        case Ignore(_) =>
      }
    }

    /** `_finish(status, data)`: record the outcome and call `whenFinished`
        with the current context. Nothing stops a second settlement. */
    method Finish(status: Status, data: seq<Value>, now: int)
      modifies this`status, this`data, this`finished, this`finishCalls
      ensures this.status == status && this.data == Some(data) && finished == Some(now)
      ensures finishCalls == old(finishCalls) + [Call(context, data)]
    {
      this.status := status;
      this.data := Some(data);
      finished := Some(now);
      finishCalls := finishCalls + [Call(context, data)];
    }

    /** `resolve(...args)`. */
    method Resolve(args: seq<Value>, now: int)
      modifies this`status, this`data, this`finished, this`finishCalls
      ensures status == Resolved && data == Some(args) && finished == Some(now)
      ensures finishCalls == old(finishCalls) + [Call(context, args)]
    {
      Finish(Resolved, args, now);
    }

    /** `reject(...args)`. */
    method Reject(args: seq<Value>, now: int)
      modifies this`status, this`data, this`finished, this`finishCalls
      ensures status == Rejected && data == Some(args) && finished == Some(now)
      ensures finishCalls == old(finishCalls) + [Call(context, args)]
    {
      Finish(Rejected, args, now);
    }

    /** `notify(...args)`: `_note(args)`, the context argument omitted. */
    method Notify(args: seq<Value>, now: int)
      modifies this`whenNotified, this`noteCalls
      ensures old(whenNotified).Callback? ==>
        noteCalls == old(noteCalls) + [Call(context, args)] && whenNotified == old(whenNotified)
      ensures old(whenNotified).Collect? ==>
        noteCalls == old(noteCalls)
        && whenNotified == Collect(old(whenNotified).entries
                                   + [Posted(Notice(now, args, if context == Undefined then Null else context))])
      ensures old(whenNotified).Ignore? ==>
        noteCalls == old(noteCalls) && whenNotified == old(whenNotified)
    {
      Note(args, Undefined, now);
    }

    /** `resolveWith(context, ...args)`: the context is set first and stays. */
    method ResolveWith(context: Value, args: seq<Value>, now: int)
      modifies this`context, this`status, this`data, this`finished, this`finishCalls
      ensures this.context == context
      ensures status == Resolved && data == Some(args) && finished == Some(now)
      ensures finishCalls == old(finishCalls) + [Call(context, args)]
    {
      this.context := context;
      Resolve(args, now);
    }

    /** `rejectWith(context, ...args)`. */
    method RejectWith(context: Value, args: seq<Value>, now: int)
      modifies this`context, this`status, this`data, this`finished, this`finishCalls
      ensures this.context == context
      ensures status == Rejected && data == Some(args) && finished == Some(now)
      ensures finishCalls == old(finishCalls) + [Call(context, args)]
    {
      this.context := context;
      Reject(args, now);
    }

    /** `notifyWith(context, ...args)`: the context reaches a pushed notice
        but not a listener function, and `this.context` does not change. An
        undefined context falls back to `this.context`, as if omitted. */
    method NotifyWith(context: Value, args: seq<Value>, now: int)
      modifies this`whenNotified, this`noteCalls
      ensures old(whenNotified).Callback? ==>
        noteCalls == old(noteCalls) + [Call(this.context, args)] && whenNotified == old(whenNotified)
      ensures old(whenNotified).Collect? && context != Undefined ==>
        noteCalls == old(noteCalls)
        && whenNotified == Collect(old(whenNotified).entries + [Posted(Notice(now, args, context))])
      ensures old(whenNotified).Collect? && context == Undefined ==>
        noteCalls == old(noteCalls)
        && whenNotified == Collect(old(whenNotified).entries
                                   + [Posted(Notice(now, args, if this.context == Undefined then Null else this.context))])
      ensures old(whenNotified).Ignore? ==>
        noteCalls == old(noteCalls) && whenNotified == old(whenNotified)
    {
      Note(args, context, now);
    }
  }

  /** `new FakeDeferred(whenFinished, whenNotified = null)`: throws unless
      `whenFinished` is a function; an undefined `whenNotified` is null. */
  method NewFakeDeferred(self: Value, whenFinished: Value, whenNotified: Value, now: int)
    returns (r: Result<FakeDeferred, Error>)
    ensures r.Success? <==> whenFinished.Func?
    ensures r.Failure? ==> r.error == TypeError(FinishedMessage)
    ensures r.Success? ==>
      && fresh(r.value) && r.value.self == self && r.value.whenFinished == whenFinished.fid
      && r.value.whenNotified == ListenerOf(Defaulted(whenNotified, Null))
      && r.value.status == Pending && r.value.context == self && r.value.data == None
      && r.value.finished == None && r.value.finishCalls == [] && r.value.noteCalls == []
  {
    if !whenFinished.Func? {
      return Failure(TypeError(FinishedMessage));
    }
    var d := new FakeDeferred(self, whenFinished.fid, whenNotified, now);
    r := Success(d);
  }
}
