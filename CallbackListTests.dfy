/**
 * The scenarios of the container's test suite, each as a method that builds
 * a list through the container's operations and promises the outcome the
 * test asserts. A test's `$log` of side effects is the invocation trace.
 * `GetAllAfterAdds`, `DuplicateNames` and `ThrowStopsLaterHandlers` go
 * beyond the suite: they state the model's own choices for any series of
 * adds, for a repeated name and for a handler that throws.
 */
module CallbackListTests {
  import opened CallbackLists

  /** Three void handlers: every result is `Null`, and they run in add order. */
  method CallWithoutReturnValues<H>(a: H, b: H, c: H, apply: (H, seq<Value>) -> Outcome)
    returns (outcome: CallOutcome, trace: seq<Invocation<H>>)
    requires apply(a, []) == Return(Null) && apply(b, []) == Return(Null) && apply(c, []) == Return(Null)
    ensures outcome == Completed([Null, Null, Null])
    ensures trace == [Invocation(a, []), Invocation(b, []), Invocation(c, [])]
  {
    var list := new CallbackList<H>();
    list.Add(a, None);
    list.Add(b, None);
    list.Add(c, None);
    outcome, trace := list.Call([], apply);
    RunResultsLineUp([a, b, c], [], apply);
    RunTraceInOrder([a, b, c], [], apply);
  }

  /** Results of mixed types line up with the handlers, through `call` and through invoking the list. */
  method CallReturnValues<H>(a: H, b: H, c: H, apply: (H, seq<Value>) -> Outcome)
    returns (called: CallOutcome, invoked: CallOutcome)
    requires apply(a, []) == Return(Str("a"))
    requires apply(b, []) == Return(Int(2))
    requires apply(c, []) == Return(Arr([Str("c")]))
    ensures called == Completed([Str("a"), Int(2), Arr([Str("c")])])
    ensures invoked == called
  {
    var list := new CallbackList<H>();
    list.Add(a, None);
    list.Add(b, None);
    list.Add(c, None);
    RunCompletesIffNoThrow([a, b, c], [], apply);
    RunResultsLineUp([a, b, c], [], apply);
    var trace;
    called, trace := list.Call([], apply);
    invoked, trace := list.Invoke([], apply);
  }

  /** Every handler receives exactly the arguments given, whether one or two, by either form of call. */
  method CallWithArgs<H>(a: H, b: H, c: H, apply: (H, seq<Value>) -> Outcome)
    returns (log1: seq<Invocation<H>>, log2: seq<Invocation<H>>, log3: seq<Invocation<H>>, log4: seq<Invocation<H>>)
    requires forall args :: apply(a, args) == Return(Null)
    requires forall args :: apply(b, args) == Return(Null)
    requires forall args :: apply(c, args) == Return(Null)
    ensures var one := [Str("Hello")];
      log1 == [Invocation(a, one), Invocation(b, one), Invocation(c, one)] && log3 == log1
    ensures var two := [Str("Hello"), Str("!")];
      log2 == [Invocation(a, two), Invocation(b, two), Invocation(c, two)] && log4 == log2
  {
    var list := new CallbackList<H>();
    list.Add(a, None);
    list.Add(b, None);
    list.Add(c, None);
    var one := [Str("Hello")];
    var two := [Str("Hello"), Str("!")];
    RunTraceInOrder([a, b, c], one, apply);
    RunTraceInOrder([a, b, c], two, apply);
    var outcome;
    outcome, log1 := list.Call(one, apply);
    outcome, log2 := list.Call(two, apply);
    outcome, log3 := list.Invoke(one, apply);
    outcome, log4 := list.Invoke(two, apply);
  }

  /** `getAll` gives the handlers in add order. */
  method GetAllInAddOrder<H>(a: H, b: H) returns (all: seq<H>)
    ensures all == [a, b]
  {
    var list := new CallbackList<H>();
    list.Add(a, None);
    list.Add(b, None);
    all := list.GetAll();
  }

  /** For any series of adds, `getAll` gives exactly the handlers added, in order. */
  method GetAllAfterAdds<H>(handlers: seq<H>, names: seq<Option<string>>) returns (all: seq<H>)
    requires |names| == |handlers|
    ensures all == handlers
  {
    var list := new CallbackList<H>();
    var i := 0;
    while i < |handlers|
      invariant 0 <= i <= |handlers|
      invariant Handlers(list.entries) == handlers[..i]
    {
      list.Add(handlers[i], names[i]);
      assert handlers[..i + 1] == handlers[..i] + [handlers[i]];
      i := i + 1;
    }
    assert handlers[..i] == handlers;
    all := list.GetAll();
  }

  /** With entries named 'a' and 'b', `get('a')` is the 'a' handler. */
  method GetNamed<H>(a: H, b: H) returns (got: Option<H>)
    ensures got == Some(a)
  {
    var list := new CallbackList<H>();
    list.Add(a, Some("a"));
    list.Add(b, Some("b"));
    got := list.Get("a");
  }

  /** With entries named 'a' and 'b', `remove('a')` leaves only the 'b' handler. */
  method RemoveNamed<H>(a: H, b: H) returns (all: seq<H>)
    ensures all == [b]
  {
    var list := new CallbackList<H>();
    list.Add(a, Some("a"));
    list.Add(b, Some("b"));
    list.Remove("a");
    all := list.GetAll();
  }

  /**
   * Duplicate names resolve to the first match: with h1 and h2 both named
   * 'a' and h3 named 'b', `get('a')` is h1; after `remove('a')` the list
   * holds h2 and h3, `get('a')` is h2, and `get('b')` is still h3.
   */
  method DuplicateNames<H>(h1: H, h2: H, h3: H) returns (before: Option<H>, all: seq<H>, after: Option<H>, other: Option<H>)
    ensures before == Some(h1)
    ensures all == [h2, h3]
    ensures after == Some(h2)
    ensures other == Some(h3)
  {
    var list := new CallbackList<H>();
    list.Add(h1, Some("a"));
    list.Add(h2, Some("a"));
    list.Add(h3, Some("b"));
    before := list.Get("a");
    list.Remove("a");
    all := list.GetAll();
    after := list.Get("a");
    other := list.Get("b");
  }

  /** `clear` then `add(c)` leaves only `c`. */
  method ClearThenAdd<H>(a: H, b: H, c: H) returns (all: seq<H>)
    ensures all == [c]
  {
    var list := new CallbackList<H>();
    list.Add(a, Some("a"));
    list.Add(b, Some("b"));
    list.Clear();
    list.Add(c, None);
    all := list.GetAll();
  }

  /** Invokes any list handed over as a plain callable, with no arguments. */
  method InvokeCallable<H>(x: CallbackList<H>, apply: (H, seq<Value>) -> Outcome) returns (outcome: CallOutcome)
    ensures outcome == Run(Handlers(x.entries), [], apply).outcome
  {
    var trace;
    outcome, trace := x.Invoke([], apply);
  }

  /** The list can be passed where a callable is expected and gives the same result as invoking it. */
  method ListIsACallable<H>(apply: (H, seq<Value>) -> Outcome) returns (direct: CallOutcome, passed: CallOutcome)
    ensures direct == passed == Completed([])
  {
    var list := new CallbackList<H>();
    var trace;
    direct, trace := list.Invoke([], apply);
    passed := InvokeCallable(list, apply);
  }

  /** Invoking an empty list yields no results and invokes nothing. */
  method EmptyList<H>(apply: (H, seq<Value>) -> Outcome) returns (outcome: CallOutcome, trace: seq<Invocation<H>>)
    ensures outcome == Completed([]) && trace == []
  {
    var list := new CallbackList<H>();
    outcome, trace := list.Invoke([], apply);
  }

  /** A handler that throws stops the run: the handler after it is never invoked and the caller sees its exception. */
  method ThrowStopsLaterHandlers<H>(a: H, b: H, c: H, apply: (H, seq<Value>) -> Outcome)
    returns (outcome: CallOutcome, trace: seq<Invocation<H>>)
    requires apply(a, []) == Return(Null)
    requires apply(b, []) == Throw("failure")
    ensures outcome == Aborted("failure")
    ensures trace == [Invocation(a, []), Invocation(b, [])]
  {
    var list := new CallbackList<H>();
    list.Add(a, None);
    list.Add(b, None);
    list.Add(c, None);
    outcome, trace := list.Call([], apply);
    RunTraceInOrder([a, b, c], [], apply);
  }
}
