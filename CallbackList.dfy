/**
 * A model of `Sminnee\CallbackList\CallbackList`: an ordered list of
 * optionally named handlers that are all invoked, in insertion order, with
 * the same arguments, their return values being collected position by
 * position.
 *
 * Handlers are opaque: the list is generic in their type `H`, and what a
 * handler does when it is invoked is given by the caller as a function
 * `apply`, so nothing here depends on how a handler is built.
 */
module CallbackLists {

  datatype Option<+T> = None | Some(value: T)

  /** The dynamic values a handler may receive and return: a subset of PHP's values. */
  datatype Value =
    | Null
    | Bool(b: bool)
    | Int(i: int)
    | Str(s: string)
    | Arr(items: seq<Value>)

  /**
   * What one invocation of a handler does: it returns a value (a void
   * handler returns `Null`) or it throws an exception.
   */
  datatype Outcome = Return(value: Value) | Throw(exception: string)

  /** One registration: an optional name and the handler. */
  datatype Entry<H> = Entry(name: Option<string>, handler: H)

  /** One handler invocation, as a shared log would record it. */
  datatype Invocation<H> = Invocation(handler: H, args: seq<Value>)

  /**
   * What invoking the whole list gives its caller: the results of all
   * handlers, or the exception of the first handler that threw.
   */
  datatype CallOutcome = Completed(results: seq<Value>) | Aborted(exception: string)

  /** The outcome of invoking the list together with the invocations made. */
  datatype Execution<H> = Execution(outcome: CallOutcome, trace: seq<Invocation<H>>)

  // ---------------------------------------------------------------------
  // Specification of the entry sequence
  // ---------------------------------------------------------------------

  /** The handlers of `es`, names stripped, in order. */
  function Handlers<H>(es: seq<Entry<H>>): (hs: seq<H>)
    ensures |hs| == |es|
    ensures forall i :: 0 <= i < |es| ==> hs[i] == es[i].handler
  {
    if es == [] then [] else [es[0].handler] + Handlers(es[1..])
  }

  /** The position of the first entry of `es` named `name`, if any. */
  function FindFirst<H>(es: seq<Entry<H>>, name: string): (k: Option<nat>)
    ensures k.Some? ==> k.value < |es| && es[k.value].name == Some(name)
    ensures k.Some? ==> forall j :: 0 <= j < k.value ==> es[j].name != Some(name)
    ensures k.None? <==> forall j :: 0 <= j < |es| ==> es[j].name != Some(name)
  {
    if es == [] then None
    else if es[0].name == Some(name) then Some(0)
    else match FindFirst(es[1..], name)
      case None => None
      case Some(k) => Some(k + 1)
  }

  /** The handler that lookup by `name` resolves to: that of the first entry so named. */
  function Lookup<H>(es: seq<Entry<H>>, name: string): (h: Option<H>)
    ensures h.None? <==> forall j :: 0 <= j < |es| ==> es[j].name != Some(name)
    ensures forall k ::
      (0 <= k < |es| && es[k].name == Some(name) && forall j :: 0 <= j < k ==> es[j].name != Some(name))
      ==> h == Some(es[k].handler)
  {
    match FindFirst(es, name)
    case None => None
    case Some(k) => Some(es[k].handler)
  }

  /** `es` without its first entry named `name` (unchanged when there is none). */
  function RemoveFirst<H>(es: seq<Entry<H>>, name: string): (r: seq<Entry<H>>)
    ensures |r| == if FindFirst(es, name).Some? then |es| - 1 else |es|
  {
    if es == [] then []
    else if es[0].name == Some(name) then es[1..]
    else [es[0]] + RemoveFirst(es[1..], name)
  }

  /**
   * Removal by name deletes exactly the entry that lookup by that name finds
   * and keeps every other entry in its relative order; with no entry of that
   * name it changes nothing.
   */
  lemma {:induction false} RemoveFirstSplices<H>(es: seq<Entry<H>>, name: string)
    ensures FindFirst(es, name).None? ==> RemoveFirst(es, name) == es
    ensures FindFirst(es, name).Some? ==>
      var k := FindFirst(es, name).value;
      RemoveFirst(es, name) == es[..k] + es[k + 1..]
  {
    if es != [] && es[0].name != Some(name) {
      var tail := es[1..];
      RemoveFirstSplices(tail, name);
      match FindFirst(tail, name)
      case None =>
      case Some(k) =>
        assert es[..k + 1] == [es[0]] + tail[..k];
        assert es[k + 2..] == tail[k + 1..];
    }
  }

  /** Removing the first entry named `n` does not change what any other name resolves to. */
  lemma {:induction false} RemoveKeepsOtherNames<H>(es: seq<Entry<H>>, n: string, m: string)
    requires n != m
    ensures Lookup(RemoveFirst(es, n), m) == Lookup(es, m)
  {
    if es != [] && es[0].name != Some(m) {
      var tail := es[1..];
      assert Lookup(es, m) == Lookup(tail, m) by {
        match FindFirst(tail, m)
        case None =>
        case Some(k) => assert es[k + 1] == tail[k];
      }
      if es[0].name != Some(n) {
        var r := RemoveFirst(tail, n);
        RemoveKeepsOtherNames(tail, n, m);
        assert ([es[0]] + r)[1..] == r;
        match FindFirst(r, m)
        case None =>
        case Some(k) => assert ([es[0]] + r)[k + 1] == r[k];
      }
    }
  }

  // ---------------------------------------------------------------------
  // Specification of invoking the list
  // ---------------------------------------------------------------------

  /** Puts the result `v` of one handler in front of the results of the ones after it. */
  function Prepend(v: Value, o: CallOutcome): CallOutcome
  {
    match o
    case Completed(rs) => Completed([v] + rs)
    case Aborted(e) => Aborted(e)
  }

  /**
   * Invoking the handlers `hs` in order with the arguments `args`: every
   * handler gets the same arguments; the first one that throws ends the run
   * and its exception is what the caller sees.
   */
  function Run<H>(hs: seq<H>, args: seq<Value>, apply: (H, seq<Value>) -> Outcome): (x: Execution<H>)
    ensures |x.trace| <= |hs|
    ensures x.outcome.Completed? ==> |x.outcome.results| == |x.trace| == |hs|
  {
    if hs == [] then Execution(Completed([]), [])
    else
      var call := Invocation(hs[0], args);
      match apply(hs[0], args)
      case Throw(e) => Execution(Aborted(e), [call])
      case Return(v) =>
        var rest := Run(hs[1..], args, apply);
        Execution(Prepend(v, rest.outcome), [call] + rest.trace)
  }

  /** The run completes exactly when no handler throws. */
  lemma {:induction false} RunCompletesIffNoThrow<H>(hs: seq<H>, args: seq<Value>, apply: (H, seq<Value>) -> Outcome)
    ensures Run(hs, args, apply).outcome.Completed? <==>
      forall i :: 0 <= i < |hs| ==> apply(hs[i], args).Return?
  {
    if hs != [] {
      RunCompletesIffNoThrow(hs[1..], args, apply);
      assert forall i :: 1 <= i < |hs| ==> hs[i] == hs[1..][i - 1];
    }
  }

  /**
   * A completed run returns one result per handler, in handler order, each
   * the value that handler returned.
   */
  lemma {:induction false} RunResultsLineUp<H>(hs: seq<H>, args: seq<Value>, apply: (H, seq<Value>) -> Outcome)
    ensures var o := Run(hs, args, apply).outcome;
      o.Completed? ==>
        |o.results| == |hs| &&
        forall i :: 0 <= i < |hs| ==> apply(hs[i], args) == Return(o.results[i])
  {
    if hs != [] && apply(hs[0], args).Return? {
      RunResultsLineUp(hs[1..], args, apply);
    }
  }

  /**
   * The invocation trace: handler i is invoked at step i, with exactly the
   * arguments of the run; all handlers are invoked when the run completes,
   * and when it aborts the last handler invoked is the first that threw,
   * whose exception the run reports.
   */
  lemma {:induction false} RunTraceInOrder<H>(hs: seq<H>, args: seq<Value>, apply: (H, seq<Value>) -> Outcome)
    ensures var x := Run(hs, args, apply);
      && (forall i :: 0 <= i < |x.trace| ==> x.trace[i] == Invocation(hs[i], args))
      && (x.outcome.Completed? ==> |x.trace| == |hs|)
      && (x.outcome.Aborted? ==>
            && 0 < |x.trace|
            && apply(hs[|x.trace| - 1], args) == Throw(x.outcome.exception)
            && forall i :: 0 <= i < |x.trace| - 1 ==> apply(hs[i], args).Return?)
  {
    if hs != [] && apply(hs[0], args).Return? {
      RunTraceInOrder(hs[1..], args, apply);
      var t := Run(hs[1..], args, apply).trace;
      assert forall i :: 1 <= i < |t| + 1 ==> ([Invocation(hs[0], args)] + t)[i] == t[i - 1];
    }
  }

  /** Running one more handler after a completed run. */
  lemma {:induction false} RunSnoc<H>(hs: seq<H>, h: H, args: seq<Value>, apply: (H, seq<Value>) -> Outcome)
    requires Run(hs, args, apply).outcome.Completed?
    ensures var x := Run(hs, args, apply);
      var call := Invocation(h, args);
      Run(hs + [h], args, apply) ==
        match apply(h, args)
        case Return(v) => Execution(Completed(x.outcome.results + [v]), x.trace + [call])
        case Throw(e) => Execution(Aborted(e), x.trace + [call])
  {
    if hs == [] {
      assert hs + [h] == [h] && [h][1..] == [];
      var call := Invocation(h, args);
      assert [] + [call] == [call] == [call] + [];
      match apply(h, args)
      case Throw(e) =>
      case Return(v) => assert [] + [v] == [v] == [v] + [];
    } else {
      assert (hs + [h])[0] == hs[0];
      assert (hs + [h])[1..] == hs[1..] + [h];
      RunSnoc(hs[1..], h, args, apply);
      var rest := Run(hs[1..], args, apply);
      var call0 := Invocation(hs[0], args);
      assert [call0] + (rest.trace + [Invocation(h, args)]) == ([call0] + rest.trace) + [Invocation(h, args)];
      match apply(h, args)
      case Throw(e) =>
      case Return(v) =>
        var v0 := apply(hs[0], args).value;
        assert [v0] + (rest.outcome.results + [v]) == ([v0] + rest.outcome.results) + [v];
    }
  }

  /** Once a handler has thrown, the handlers after it are never invoked. */
  lemma {:induction false} RunAbortedIgnoresRest<H>(p: seq<H>, q: seq<H>, args: seq<Value>, apply: (H, seq<Value>) -> Outcome)
    requires Run(p, args, apply).outcome.Aborted?
    ensures Run(p + q, args, apply) == Run(p, args, apply)
  {
    assert p != [];
    if apply(p[0], args).Return? {
      assert (p + q)[1..] == p[1..] + q;
      RunAbortedIgnoresRest(p[1..], q, args, apply);
    }
  }

  // ---------------------------------------------------------------------
  // The container
  // ---------------------------------------------------------------------

  class CallbackList<H> {
    /** The registrations, in insertion order. */
    var entries: seq<Entry<H>>

    /** A new list is empty. */
    constructor ()
      ensures entries == []
    {
      entries := [];
    }

    /** `add`, as in `$list->add($a)` or `$list->add($a, 'a')`: appends a registration. */
    method Add(handler: H, name: Option<string>)
      modifies this
      ensures entries == old(entries) + [Entry(name, handler)]
      ensures Handlers(entries) == Handlers(old(entries)) + [handler]
    {
      entries := entries + [Entry(name, handler)];
    }

    /** `getAll`: the handlers without their names, in insertion order. */
    method GetAll() returns (hs: seq<H>)
      ensures hs == Handlers(entries)
    {
      hs := [];
      var i := 0;
      while i < |entries|
        invariant 0 <= i <= |entries|
        invariant |hs| == i
        invariant forall j :: 0 <= j < i ==> hs[j] == entries[j].handler
      {
        hs := hs + [entries[i].handler];
        i := i + 1;
      }
    }

    /** Scans the entries in order for the first one named `name`. */
    method IndexOf(name: string) returns (k: Option<nat>)
      ensures k == FindFirst(entries, name)
    {
      var i := 0;
      while i < |entries|
        invariant 0 <= i <= |entries|
        invariant forall j :: 0 <= j < i ==> entries[j].name != Some(name)
      {
        if entries[i].name == Some(name) {
          return Some(i);
        }
        i := i + 1;
      }
      return None;
    }

    /** `get`, as in `$list->get('a')`: the handler of the first entry named `name`, or `None`. */
    method Get(name: string) returns (h: Option<H>)
      ensures h == Lookup(entries, name)
    {
      var k := IndexOf(name);
      h := if k.Some? then Some(entries[k.value].handler) else None;
    }

    /** `remove`, as in `$list->remove('a')`: deletes the first entry named `name`, if there is one. */
    method Remove(name: string)
      modifies this
      ensures entries == RemoveFirst(old(entries), name)
    {
      var k := IndexOf(name);
      RemoveFirstSplices(entries, name);
      if k.Some? {
        entries := entries[..k.value] + entries[k.value + 1..];
      }
    }

    /** `clear`: discards every registration. */
    method Clear()
      modifies this
      ensures entries == []
    {
      entries := [];
    }

    /**
     * `call`, as in `$list->call('Hello', '!')`: invokes every handler in order with `args`,
     * collecting the results; the first exception stops the loop and is
     * passed on. `trace` is the sequence of invocations made.
     */
    method Call(args: seq<Value>, apply: (H, seq<Value>) -> Outcome) returns (outcome: CallOutcome, trace: seq<Invocation<H>>)
      ensures Execution(outcome, trace) == Run(Handlers(entries), args, apply)
    {
      ghost var hs := Handlers(entries);
      var results: seq<Value> := [];
      trace := [];
      var i := 0;
      while i < |entries|
        invariant 0 <= i <= |entries|
        invariant Run(hs[..i], args, apply) == Execution(Completed(results), trace)
      {
        var h := entries[i].handler;
        assert hs[..i + 1] == hs[..i] + [h];
        RunSnoc(hs[..i], h, args, apply);
        var o := apply(h, args);
        trace := trace + [Invocation(h, args)];
        if o.Throw? {
          outcome := Aborted(o.exception);
          assert hs[..i + 1] + hs[i + 1..] == hs;
          RunAbortedIgnoresRest(hs[..i + 1], hs[i + 1..], args, apply);
          return;
        }
        results := results + [o.value];
        i := i + 1;
      }
      assert hs[..i] == hs;
      outcome := Completed(results);
    }

    /** Invoking the list itself, as in `$list('Hello')`, is `call`. */
    method Invoke(args: seq<Value>, apply: (H, seq<Value>) -> Outcome) returns (outcome: CallOutcome, trace: seq<Invocation<H>>)
      ensures Execution(outcome, trace) == Run(Handlers(entries), args, apply)
    {
      outcome, trace := Call(args, apply);
    }
  }
}
