/** `DeferredPromise` (lib/promise.js): a Deferred-style object over a chain
    of native promises. The native promises are modelled as links, each made
    by a native `then` on the link before it; a link's reaction job, which
    the native runtime runs once the link before it has settled, is the
    explicit step `DeferredPromise.Tick`. Handlers are opaque tokens: the
    `fid` of a `Func` value. */
module Promises {
  import opened Wrappers
  import opened Js
  import opened StatusEnum

  // ---------------------------------------------------------------------
  // Variadic handler arguments

  /** The handlers that `done`, `fail`, `always` and `progress` register for
      `funcs`, in order: functions are taken, arrays are searched
      recursively, anything else is skipped. */
  function Flatten(funcs: seq<Value>): (hs: seq<nat>)
    ensures forall v :: v in funcs && v.Func? ==> v.fid in hs
    decreases funcs
  {
    if funcs == [] then []
    else
      (match funcs[0]
       case Func(f) => [f]
       case Array(items) => Flatten(items)
       case _ => [])
      + Flatten(funcs[1..])
  }

  /** Whether handler `h` is `v` or is nested somewhere inside arrays in `v`. */
  ghost predicate Occurs(h: nat, v: Value)
    decreases v
  {
    match v
    case Func(f) => f == h
    case Array(items) => exists i :: 0 <= i < |items| && Occurs(h, items[i])
    case _ => false
  }

  /** Flattening is left to right: the handlers of a concatenation are those
      of the first part followed by those of the second. */
  lemma {:induction false} FlattenAppend(a: seq<Value>, b: seq<Value>)
    ensures Flatten(a + b) == Flatten(a) + Flatten(b)
    decreases |a|
  {
    if a == [] {
      assert a + b == b;
    } else {
      assert (a + b)[0] == a[0];
      assert (a + b)[1..] == a[1..] + b;
      FlattenAppend(a[1..], b);
    }
  }

  /** Flattening a single argument. */
  lemma FlattenSingle(v: Value)
    ensures Flatten([v]) == match v case Func(f) => [f] case Array(items) => Flatten(items) case _ => []
  {
    assert [v][1..] == [];
  }

  /** Taking one more argument adds its handlers at the end. */
  lemma FlattenPrefix(funcs: seq<Value>, i: nat)
    requires i < |funcs|
    ensures Flatten(funcs[..i + 1]) == Flatten(funcs[..i]) + Flatten([funcs[i]])
  {
    assert funcs[..i + 1] == funcs[..i] + [funcs[i]];
    FlattenAppend(funcs[..i], [funcs[i]]);
  }

  lemma ConcatAssociates<T>(a: seq<T>, b: seq<T>, c: seq<T>)
    ensures (a + b) + c == a + (b + c)
  {
  }

  /** A handler is registered exactly when it occurs, possibly nested in
      arrays, among the arguments. */
  lemma {:induction false} FlattenFinds(h: nat, funcs: seq<Value>)
    ensures h in Flatten(funcs) <==> exists i :: 0 <= i < |funcs| && Occurs(h, funcs[i])
    decreases funcs
  {
    if funcs != [] {
      var head, tail := funcs[0], funcs[1..];
      assert funcs == [head] + tail;
      FlattenAppend([head], tail);
      FlattenSingle(head);
      FlattenFinds(h, tail);
      if head.Array? {
        FlattenFinds(h, head.items);
      }
      if h in Flatten(funcs) {
        if h in Flatten([head]) {
          assert Occurs(h, funcs[0]);
        } else {
          var j :| 0 <= j < |tail| && Occurs(h, tail[j]);
          assert funcs[j + 1] == tail[j];
        }
      } else {
        forall i | 0 <= i < |funcs| ensures !Occurs(h, funcs[i]) {
          if i > 0 {
            assert funcs[i] == tail[i - 1];
          }
        }
      }
    }
  }

  // ---------------------------------------------------------------------
  // Links of the promise chain

  /** What a link does with its parent's outcome on one side: nothing (the
      outcome passes through), call a handler, or set `status` (the two
      continuations the constructor attaches). */
  datatype Cont = Absent | Invoke(handler: nat) | Mark(status: Status)

  /** A native promise made by `base.then(onRes, onRej)`; `base` is the index
      of the link it was made from, `None` for the constructor's own promise. */
  datatype Link = Link(base: Option<nat>, onRes: Cont, onRej: Cont)

  /** The constructor's link: `new Promise(...).then(() => this.status =
      RESOLVED, () => this.status = REJECTED)`. */
  const InitialLink := Link(None, Mark(Resolved), Mark(Rejected))

  /** Native `then` takes a function as a continuation and ignores anything else. */
  function ContOf(f: Value): Cont {
    if f.Func? then Invoke(f.fid) else Absent
  }

  /** Which of the registration methods made a link. */
  datatype Mode = OnDone | OnFail | OnAlways

  /** The link `then` appends for handler `h` after link `base`:
      `then(h)` for `done`, `then(undefined, h)` for `fail`, `then(h, h)`
      for `always`. */
  function LinkFor(base: nat, h: nat, mode: Mode): Link {
    match mode
    case OnDone => Link(Some(base), Invoke(h), Absent)
    case OnFail => Link(Some(base), Absent, Invoke(h))
    case OnAlways => Link(Some(base), Invoke(h), Invoke(h))
  }

  /** `chain` after one `then` per handler of `hs`, each on the last link. */
  function Extended(chain: seq<Link>, hs: seq<nat>, mode: Mode): seq<Link>
    requires |chain| > 0
  {
    chain + seq(|hs|, i requires 0 <= i < |hs| => LinkFor(|chain| + i - 1, hs[i], mode))
  }

  /** A chain as the class builds it: the constructor's link first, then
      links each made from the one before, none of them setting `status`. */
  ghost predicate WellChained(chain: seq<Link>) {
    && |chain| > 0 && chain[0] == InitialLink
    && forall i :: 0 < i < |chain| ==>
         chain[i].base == Some(i - 1) && !chain[i].onRes.Mark? && !chain[i].onRej.Mark?
  }

  /** Extending in two steps is extending once with both lists, and keeps
      the earlier links as they were. */
  lemma ExtendedAppend(chain: seq<Link>, a: seq<nat>, b: seq<nat>, mode: Mode)
    requires |chain| > 0
    ensures Extended(Extended(chain, a, mode), b, mode) == Extended(chain, a + b, mode)
    ensures Extended(chain, a, mode)[..|chain|] == chain
  {
    var left, right := Extended(Extended(chain, a, mode), b, mode), Extended(chain, a + b, mode);
    assert |left| == |right|;
    forall k | 0 <= k < |left| ensures left[k] == right[k] {
      if k >= |chain| + |a| {
        assert left[k] == LinkFor(|chain| + |a| + (k - |chain| - |a|) - 1, b[k - |chain| - |a|], mode);
        assert (a + b)[k - |chain|] == b[k - |chain| - |a|];
      }
    }
  }

  /** Extending keeps a chain well formed. */
  lemma ExtendedWellChained(chain: seq<Link>, hs: seq<nat>, mode: Mode)
    requires WellChained(chain)
    ensures WellChained(Extended(chain, hs, mode))
    ensures |Extended(chain, hs, mode)| == |chain| + |hs|
  {
    var c := Extended(chain, hs, mode);
    forall i | 0 < i < |c|
      ensures c[i].base == Some(i - 1) && !c[i].onRes.Mark? && !c[i].onRej.Mark?
    {
      if i >= |chain| {
        assert c[i] == LinkFor(i - 1, hs[i - |chain|], mode);
      }
    }
  }

  // ---------------------------------------------------------------------
  // Reaction jobs

  datatype Settlement = Unsettled | Fulfilled(value: Value) | Refused(reason: Value)

  /** The status a settled outcome stands for. */
  function StatusOf(s: Settlement): Status {
    match s
    case Unsettled => Pending
    case Fulfilled(_) => Resolved
    case Refused(_) => Rejected
  }

  /** Handler `handler` of link `link` called with `arg`, on the rejection
      side when `onRejection`. */
  datatype Reaction = Reaction(link: nat, handler: nat, arg: Value, onRejection: bool)

  /** The effect of one reaction job: the link's outcome, the status it
      sets, the handler call it makes. */
  datatype Step = Step(out: Settlement, mark: Option<Status>, call: Option<Reaction>)

  /** Continuation `c` of link `k` run on `arg`; an absent continuation
      passes `passed` on, a handler's call fulfils the link with what it
      returns. A status setter `() => this.status = s` returns `s`, which
      fulfils its link; with `markPasses` it passes the outcome on instead,
      as `v => { this.status = s; return v; }` and its rethrowing
      counterpart would. */
  function Continue(k: nat, c: Cont, arg: Value, onRejection: bool, passed: Settlement,
                    returned: Value, markPasses: bool): Step
  {
    match c
    case Absent => Step(passed, None, None)
    case Invoke(h) => Step(Fulfilled(returned), None, Some(Reaction(k, h, arg, onRejection)))
    case Mark(s) => Step(if markPasses then passed else Fulfilled(StatusCode(s)), Some(s), None)
  }

  /** The reaction job of link `k`, whose parent settled with `input`;
      `returned` is what a handler it calls returns. */
  function React(k: nat, link: Link, input: Settlement, returned: Value): (s: Step)
    requires input != Unsettled
    ensures s.call.Some? ==>
      s.out == Fulfilled(returned) && s.call.value.link == k && s.call.value.onRejection == input.Refused?
    ensures s.mark.Some? ==> s.out == Fulfilled(StatusCode(s.mark.value))
    ensures s.out.Refused? <==> input.Refused? && link.onRej.Absent?
  {
    match input
    case Fulfilled(v) => Continue(k, link.onRes, v, false, input, returned, false)
    case Refused(e) => Continue(k, link.onRej, e, true, input, returned, false)
  }

  /** `React` with status setters that pass the outcome on. */
  function ReactIntended(k: nat, link: Link, input: Settlement, returned: Value): (s: Step)
    requires input != Unsettled
    ensures s.call.Some? ==>
      s.out == Fulfilled(returned) && s.call.value.link == k && s.call.value.onRejection == input.Refused?
    ensures s.mark.Some? ==> s.out == input
    ensures s.out.Refused? <==> input.Refused? && !link.onRej.Invoke?
  {
    match input
    case Fulfilled(v) => Continue(k, link.onRes, v, false, input, returned, true)
    case Refused(e) => Continue(k, link.onRej, e, true, input, returned, true)
  }

  /** As written, the constructor's link fulfils with a status code on both
      sides: the first `done` handler receives that code instead of the
      resolution value, and a `fail` handler after it never runs. */
  lemma StatusSetterSwallowsOutcome(v: Value, e: Value, h: nat, x: Value, y: Value)
    ensures React(0, InitialLink, Fulfilled(v), x).out == Fulfilled(StatusCode(Resolved))
    ensures React(0, InitialLink, Refused(e), x).out == Fulfilled(StatusCode(Rejected))
    ensures React(1, LinkFor(0, h, OnDone), React(0, InitialLink, Fulfilled(v), x).out, y).call
            == Some(Reaction(1, h, StatusCode(Resolved), false))
    ensures React(1, LinkFor(0, h, OnFail), React(0, InitialLink, Refused(e), x).out, y).call == None
    ensures React(1, LinkFor(0, h, OnDone), React(0, InitialLink, Refused(e), x).out, y).call
            == Some(Reaction(1, h, StatusCode(Rejected), false))
  {
  }

  /** With pass-through status setters the constructor's link still sets
      the status, and the handlers after it see the root's outcome: a `done`
      handler gets the resolution value, a `fail` handler the rejection
      reason, and neither runs on the other outcome. */
  lemma IntendedSetterPassesOutcome(input: Settlement, h: nat, x: Value, y: Value)
    requires input != Unsettled
    ensures ReactIntended(0, InitialLink, input, x).out == input
    ensures ReactIntended(0, InitialLink, input, x).mark == Some(StatusOf(input))
    ensures ReactIntended(1, LinkFor(0, h, OnDone), input, y).call
            == if input.Fulfilled? then Some(Reaction(1, h, input.value, false)) else None
    ensures ReactIntended(1, LinkFor(0, h, OnFail), input, y).call
            == if input.Refused? then Some(Reaction(1, h, input.reason, true)) else None
  {
  }

  /** A reaction job after the constructor's link sees a fulfilled parent,
      so it fulfils its own link and calls only fulfilment handlers. */
  lemma LaterLinksStayFulfilled(k: nat, link: Link, v: Value, returned: Value)
    requires !link.onRes.Mark?
    ensures React(k, link, Fulfilled(v), returned).out.Fulfilled?
    ensures React(k, link, Fulfilled(v), returned).mark == None
    ensures React(k, link, Fulfilled(v), returned).call.Some? ==>
              !React(k, link, Fulfilled(v), returned).call.value.onRejection
  {
  }

  /** The first of `values`, which is all a native resolve or reject keeps. */
  function First(values: seq<Value>): Value {
    if |values| > 0 then values[0] else Undefined
  }

  /** One call of a progress handler by `notify`. */
  datatype ProgressCall = ProgressCall(handler: nat, args: seq<Value>)

  const NotCallableMessage := "func is not a function"

  // ---------------------------------------------------------------------
  // The class

  class DeferredPromise {
    var status: Status
    /** The `@promise` array. */
    var chain: seq<Link>
    /** The `@notify` array of progress handlers. */
    var handlers: seq<nat>
    /** The native root promise, settled by the first `@resolve`/`@reject` call. */
    var root: Settlement
    /** How many links' reaction jobs have run. */
    var ran: nat
    /** The outcome of link `ran - 1` once it has run. */
    var last: Settlement
    /** Handler calls made by reaction jobs, in order. */
    var reactions: seq<Reaction>
    /** Progress handler calls made by `NotifyIntended`. */
    var progressCalls: seq<ProgressCall>

    ghost predicate Valid()
      reads this`status, this`chain, this`root, this`ran, this`last, this`reactions
    {
      && WellChained(chain) && ran <= |chain|
      && (ran == 0 ==> status == Pending)
      && (ran > 0 ==> root != Unsettled && status == StatusOf(root) && last.Fulfilled?)
      && (forall r :: r in reactions ==> !r.onRejection)
    }

    /** The outcome the next reaction job receives. */
    function Incoming(): Settlement
      reads this`ran, this`root, this`last
    {
      if ran == 0 then root else last
    }

    constructor ()
      ensures Valid()
      ensures status == Pending && chain == [InitialLink] && handlers == []
      ensures root == Unsettled && ran == 0 && reactions == [] && progressCalls == []
    {
      status := Pending;
      chain := [InitialLink];
      handlers := [];
      root := Unsettled;
      ran := 0;
      last := Unsettled;
      reactions := [];
      progressCalls := [];
    }

    /** `promise(offset = -1)`: a negative offset is turned into
        `length - offset`, past the end, so only a non-negative offset
        within the chain finds a link. */
    function Promise(offset: int): (p: Option<Link>)
      reads this
      ensures p.Some? <==> 0 <= offset < |chain|
      ensures p.Some? ==> p.value == chain[offset]
    {
      var index := if offset < 0 then |chain| - offset else offset;
      if index < |chain| then Some(chain[index]) else None
    }

    /** `promise(offset)` counting a negative offset back from the end, as
        its documentation describes. */
    function PromiseIntended(offset: int): (p: Option<Link>)
      reads this
      ensures p.Some? <==> -|chain| <= offset < |chain|
      ensures p.Some? && offset >= 0 ==> p.value == chain[offset]
      ensures p.Some? && offset < 0 ==> p.value == chain[|chain| + offset]
    {
      var index := if offset < 0 then |chain| + offset else offset;
      if 0 <= index < |chain| then Some(chain[index]) else None
    }

    /** `then(resFunc, rejFunc, progFunc)`: append one link made from the
        last one. A function `progFunc` makes it call `progress` with the
        string "function", which registers nothing. */
    method Then(res: Value, rej: Value, prog: Value) returns (p: Link)
      requires Valid()
      modifies this`chain, this`handlers
      ensures Valid()
      ensures p == Link(Some(|old(chain)| - 1), ContOf(res), ContOf(rej))
      ensures chain == old(chain) + [p]
      ensures handlers == old(handlers)
    {
      if prog.Func? {
        var ignored := Progress([Str("function")]);
      }
      var current := |chain| - 1;
      p := Link(Some(current), ContOf(res), ContOf(rej));
      chain := chain + [p];
    }

    /** `then` passing `progFunc` itself to `progress`. */
    method ThenIntended(res: Value, rej: Value, prog: Value) returns (p: Link)
      requires Valid()
      modifies this`chain, this`handlers
      ensures Valid()
      ensures p == Link(Some(|old(chain)| - 1), ContOf(res), ContOf(rej))
      ensures chain == old(chain) + [p]
      ensures handlers == old(handlers) + (if prog.Func? then [prog.fid] else [])
    {
      if prog.Func? {
        var ignored := Progress([prog]);
      }
      var current := |chain| - 1;
      p := Link(Some(current), ContOf(res), ContOf(rej));
      chain := chain + [p];
    }

    /** One `then` for handler `h`, as `done`, `fail` or `always` calls it:
        `then(h)`, `then(undefined, h)` or `then(h, h)`. */
    method AddLink(h: nat, mode: Mode)
      requires Valid()
      modifies this`chain, this`handlers
      ensures Valid()
      ensures chain == Extended(old(chain), [h], mode)
      ensures handlers == old(handlers)
    {
      var f := Func(h);
      var res := if mode == OnFail then Undefined else f;
      var rej := if mode == OnDone then Undefined else f;
      var link := Then(res, rej, Undefined);
      assert link == LinkFor(|old(chain)| - 1, h, mode);
      assert Extended(old(chain), [h], mode) == old(chain) + [link];
    }

    /** The loop shared by `done`, `fail` and `always`: one `then` per
        function, recursing into arrays. */
    method AddLinks(funcs: seq<Value>, mode: Mode)
      requires Valid()
      modifies this`chain, this`handlers
      ensures Valid()
      ensures chain == Extended(old(chain), Flatten(funcs), mode)
      ensures handlers == old(handlers)
      decreases funcs, 1
    {
      var i := 0;
      while i < |funcs|
        invariant 0 <= i <= |funcs|
        invariant Valid() && handlers == old(handlers)
        invariant chain == Extended(old(chain), Flatten(funcs[..i]), mode)
      {
        AddArgument(funcs, i, mode);
        FlattenPrefix(funcs, i);
        ExtendedAppend(old(chain), Flatten(funcs[..i]), Flatten([funcs[i]]), mode);
        i := i + 1;
      }
      assert funcs[..|funcs|] == funcs;
    }

    /** One iteration of that loop: a function gets its `then`, an array is
        recursed into, anything else is skipped. */
    method AddArgument(funcs: seq<Value>, i: nat, mode: Mode)
      requires Valid() && i < |funcs|
      modifies this`chain, this`handlers
      ensures Valid()
      ensures chain == Extended(old(chain), Flatten([funcs[i]]), mode)
      ensures handlers == old(handlers)
      decreases funcs, 0
    {
      var f := funcs[i];
      FlattenSingle(f);
      if f.Func? {
        AddLink(f.fid, mode);
      } else if f.Array? {
        AddLinks(f.items, mode);
      } else {
        assert Extended(chain, [], mode) == chain;
      }
    }

    /** `done(...funcs)`. */
    method Done(funcs: seq<Value>) returns (self: DeferredPromise)
      requires Valid()
      modifies this`chain, this`handlers
      ensures Valid() && self == this
      ensures chain == Extended(old(chain), Flatten(funcs), OnDone)
      ensures handlers == old(handlers)
    {
      AddLinks(funcs, OnDone);
      self := this;
    }

    /** `fail(...funcs)`. */
    method Fail(funcs: seq<Value>) returns (self: DeferredPromise)
      requires Valid()
      modifies this`chain, this`handlers
      ensures Valid() && self == this
      ensures chain == Extended(old(chain), Flatten(funcs), OnFail)
      ensures handlers == old(handlers)
    {
      AddLinks(funcs, OnFail);
      self := this;
    }

    /** `always(...funcs)`. */
    method Always(funcs: seq<Value>) returns (self: DeferredPromise)
      requires Valid()
      modifies this`chain, this`handlers
      ensures Valid() && self == this
      ensures chain == Extended(old(chain), Flatten(funcs), OnAlways)
      ensures handlers == old(handlers)
    {
      AddLinks(funcs, OnAlways);
      self := this;
    }

    /** `progress(...funcs)`: append the functions, recursing into arrays. */
    method Progress(funcs: seq<Value>) returns (self: DeferredPromise)
      modifies this`handlers
      ensures self == this
      ensures handlers == old(handlers) + Flatten(funcs)
      decreases funcs
    {
      var i := 0;
      while i < |funcs|
        invariant 0 <= i <= |funcs|
        invariant handlers == old(handlers) + Flatten(funcs[..i])
      {
        var before := handlers;
        var f := funcs[i];
        FlattenSingle(f);
        if f.Func? {
          handlers := handlers + [f.fid];
        } else if f.Array? {
          var ignored := Progress(f.items);
        }
        assert handlers == before + Flatten([f]);
        FlattenPrefix(funcs, i);
        ConcatAssociates(old(handlers), Flatten(funcs[..i]), Flatten([f]));
        i := i + 1;
      }
      assert funcs[..|funcs|] == funcs;
      self := this;
    }

    /** `resolve(...values)`: the native resolve function keeps the first
        value and does nothing once the root has settled. */
    method Resolve(values: seq<Value>) returns (self: DeferredPromise)
      requires Valid()
      modifies this`root
      ensures Valid() && self == this
      ensures root == if old(root) == Unsettled then Fulfilled(First(values)) else old(root)
    {
      if root == Unsettled {
        root := Fulfilled(First(values));
      }
      self := this;
    }

    /** `reject(...values)`. */
    method Reject(values: seq<Value>) returns (self: DeferredPromise)
      requires Valid()
      modifies this`root
      ensures Valid() && self == this
      ensures root == if old(root) == Unsettled then Refused(First(values)) else old(root)
    {
      if root == Unsettled {
        root := Refused(First(values));
      }
      self := this;
    }

    /** `notify(...values)`: `for...in` binds the array's index keys, so the
        first iteration calls the string "0" and throws; with no handlers
        the loop does not run. */
    method Notify(values: seq<Value>) returns (r: Result<DeferredPromise, Error>)
      ensures r.Success? <==> handlers == []
      ensures r.Success? ==> r.value == this
      ensures r.Failure? ==> r.error == TypeError(NotCallableMessage)
    {
      if handlers == [] {
        r := Success(this);
      } else {
        r := Failure(TypeError(NotCallableMessage));
      }
    }

    /** `notify` iterating over the handlers themselves (`for...of`): each
        is called once with the values, in registration order. */
    method NotifyIntended(values: seq<Value>) returns (self: DeferredPromise)
      modifies this`progressCalls
      ensures self == this
      ensures |progressCalls| == |old(progressCalls)| + |handlers|
      ensures progressCalls[..|old(progressCalls)|] == old(progressCalls)
      ensures forall i :: 0 <= i < |handlers| ==>
                progressCalls[|old(progressCalls)| + i] == ProgressCall(handlers[i], values)
    {
      var i := 0;
      while i < |handlers|
        invariant 0 <= i <= |handlers|
        invariant |progressCalls| == |old(progressCalls)| + i
        invariant progressCalls[..|old(progressCalls)|] == old(progressCalls)
        invariant forall j :: 0 <= j < i ==>
                    progressCalls[|old(progressCalls)| + j] == ProgressCall(handlers[j], values)
      {
        progressCalls := progressCalls + [ProgressCall(handlers[i], values)];
        i := i + 1;
      }
      self := this;
    }

    /** The native runtime runs the reaction job of the next link, whose
        parent has settled. Only the constructor's link sets `status`, so it
        leaves `Pending` once, for the root's outcome, and keeps it. */
    method Tick(returned: Value)
      requires Valid() && ran < |chain| && Incoming() != Unsettled
      modifies this`status, this`ran, this`last, this`reactions
      ensures Valid()
      ensures ran == old(ran) + 1
      ensures old(status) != Pending ==> status == old(status)
      ensures status == StatusOf(root)
      ensures var step := React(old(ran), chain[old(ran)], old(Incoming()), returned);
              && last == step.out
              && reactions == old(reactions) + (if step.call.Some? then [step.call.value] else [])
    {
      var step := React(ran, chain[ran], Incoming(), returned);
      if step.mark.Some? {
        status := step.mark.value;
      }
      if step.call.Some? {
        reactions := reactions + [step.call.value];
      }
      last := step.out;
      ran := ran + 1;
    }
  }
}
