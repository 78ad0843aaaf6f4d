# CallbackList in Dafny

This project models `Sminnee\CallbackList\CallbackList`, a callback
aggregator. It holds an ordered list of entries. Each entry is an optional
name plus a handler. Invoking the list runs every handler in insertion
order with the same arguments. It returns the results, one per handler,
position by position.

The repository's production class is not part of this model. Only its
PHPUnit suite, `tests/CallbackListTest.php`, is. So the model captures the
behaviour that suite fixes. Where the suite is silent, the model makes
its own choices. The name-based operations resolve to the first entry of
that name. Removing a name that no entry has changes nothing. A handler
that throws aborts the call.

- `CallbackList.dfy`, module `CallbackLists`:
  - the values. `Value` covers a subset of PHP values: the ones the suite passes and returns (null, int, string, list), plus bool. `Outcome` says whether one handler invocation returned or threw. `Entry` is a registration. `Invocation` is one call of a handler with its arguments. `CallOutcome` and `Execution` hold the result of invoking the list and the trace of invocations it made.
  - specification functions on the entry sequence: `Handlers`, `FindFirst`, `Lookup`, `RemoveFirst`. `Run` specifies invoking a sequence of handlers. The lemmas prove what these functions promise.
  - the class `CallbackList`. It has one field `entries: seq<Entry<H>>` and the container's operations as methods: `Add`, `GetAll`, `Get`, `Remove`, `Clear`, `Call` and `Invoke` (`__invoke`). `IndexOf` implements the scan by name that `Get` and `Remove` share.
- `CallbackListTests.dfy`, module `CallbackListTests`: one method per test of the suite. Each builds a list through the class's methods, and its `ensures` states what the test asserts. `InvokeCallable` is the suite's `$test` wrapper: it builds no list and invokes the one it receives. Three further methods state the model's own choices, which no test asserts. `GetAllAfterAdds` generalises `getAll` to any series of adds. `DuplicateNames` covers a name given twice. `ThrowStopsLaterHandlers` covers a handler that throws.

Handlers are opaque. The list is generic in the handler type `H`. The
caller passes `apply: (H, seq<Value>) -> Outcome`, which gives what a
handler does when invoked with an argument list. A void handler returns
`Null`. The test's shared `$log` is modelled as the trace of invocations
that `Call` returns: each step records the handler invoked and the
arguments it received.

## Model

| member | source | states |
|---|---|---|
| `CallbackLists.Handlers` | tests/CallbackListTest.php:104-108 | the handler list has one element per entry, and element i is the handler of entry i, with names stripped and order kept |
| `CallbackLists.FindFirst` | tests/CallbackListTest.php:169-175 | the position found holds an entry with that name, and no earlier entry has it; no position is found exactly when no entry has the name, so unnamed entries are never found |
| `CallbackLists.Lookup` | tests/CallbackListTest.php:112-118 | lookup by name yields nothing exactly when no entry has the name; otherwise it yields the handler of the first entry so named |
| `CallbackLists.RemoveFirst` | tests/CallbackListTest.php:128 | removal by name shortens the list by exactly one entry when some entry has the name, and by none otherwise; RemoveFirstSplices states that it is the splice at FindFirst's position, or the identity when no entry has the name |
| `CallbackLists.RemoveFirstSplices` | tests/CallbackListTest.php:123-131 | removal by name deletes exactly the entry lookup finds and keeps all others in their relative order; with no entry of that name the list is unchanged |
| `CallbackLists.RemoveKeepsOtherNames` | tests/CallbackListTest.php:123-131 | removing by one name never changes what any other name resolves to |
| `CallbackLists.Run` | tests/CallbackListTest.php:10-58 | a run invokes at most one handler per entry; a completed run has exactly one result and one invocation per handler |
| `CallbackLists.RunCompletesIffNoThrow` | tests/CallbackListTest.php:47-51 | invoking the handlers completes if and only if no handler throws |
| `CallbackLists.RunResultsLineUp` | tests/CallbackListTest.php:27-28 | a completed run has one result per handler, and result i is what handler i returned (`Null` for a void handler) |
| `CallbackLists.RunTraceInOrder` | tests/CallbackListTest.php:76-82 | step i of the trace invokes handler i with exactly the arguments of the call; a completed run invokes every handler; an aborted run last invokes the first handler that threw, and reports that handler's exception |
| `CallbackLists.RunSnoc` | tests/CallbackListTest.php:17-28 | after a completed run, one more handler adds its result and one invocation at the end, or aborts with its exception |
| `CallbackLists.RunAbortedIgnoresRest` | tests/CallbackListTest.php:50 | once a handler has thrown, the handlers after it are never invoked and do not change the outcome |
| `CallbackLists.CallbackList.constructor` | tests/CallbackListTest.php:12 | a new list has no entries |
| `CallbackLists.CallbackList.Add` | tests/CallbackListTest.php:17-25 | appends the entry (name, handler) at the end; `getAll` then gains that handler at the end |
| `CallbackLists.CallbackList.GetAll` | tests/CallbackListTest.php:108 | returns the handlers of the current entries in order, names stripped |
| `CallbackLists.CallbackList.IndexOf` | tests/CallbackListTest.php:118 | the in-order scan finds the position of the first entry with the name |
| `CallbackLists.CallbackList.Get` | tests/CallbackListTest.php:118 | returns the handler of the first entry with the name, or nothing when there is none |
| `CallbackLists.CallbackList.Remove` | tests/CallbackListTest.php:128 | the new entry list is the old one without its first entry of that name |
| `CallbackLists.CallbackList.Clear` | tests/CallbackListTest.php:141 | the list has no entries afterwards |
| `CallbackLists.CallbackList.Call` | tests/CallbackListTest.php:77-82 | the outcome and trace are those of running the current handlers in order with the given arguments |
| `CallbackLists.CallbackList.Invoke` | tests/CallbackListTest.php:53-57 | invoking the list itself gives the same outcome and trace as `call` with the same arguments |
| `CallbackListTests.CallWithoutReturnValues` | tests/CallbackListTest.php:10-30 | three void handlers give `[null, null, null]`, and they are invoked a, b, c in that order |
| `CallbackListTests.CallReturnValues` | tests/CallbackListTest.php:33-58 | handlers returning 'a', 2 and ['c'] give exactly those results in that order, by `call` and by invoking the list |
| `CallbackListTests.CallWithArgs` | tests/CallbackListTest.php:61-92 | with ('Hello') and with ('Hello', '!'), every handler is invoked in order with exactly those arguments, by `call` and by invoking the list |
| `CallbackListTests.GetAllInAddOrder` | tests/CallbackListTest.php:95-109 | after adding a and b, `getAll` is [a, b] |
| `CallbackListTests.GetAllAfterAdds` | tests/CallbackListTest.php:104-108 | after any series of adds, with or without names, `getAll` is exactly the handlers added, in add order |
| `CallbackListTests.GetNamed` | tests/CallbackListTest.php:112-118 | with entries named 'a' and 'b', `get('a')` is the 'a' handler |
| `CallbackListTests.RemoveNamed` | tests/CallbackListTest.php:123-131 | with entries named 'a' and 'b', after `remove('a')` `getAll` is [b] |
| `CallbackListTests.DuplicateNames` | tests/CallbackListTest.php:169-175 | with h1 and h2 named 'a' and h3 named 'b', `get('a')` is h1; after `remove('a')`, `getAll` is [h2, h3], `get('a')` is h2 and `get('b')` is h3 |
| `CallbackListTests.ClearThenAdd` | tests/CallbackListTest.php:134-145 | after `clear` and `add(c)`, `getAll` is [c] |
| `CallbackListTests.InvokeCallable` | tests/CallbackListTest.php:154-156 | a wrapper that invokes the list it is given, with no arguments, gives the outcome of running that list's handlers |
| `CallbackListTests.ListIsACallable` | tests/CallbackListTest.php:148-159 | invoking an empty list directly and through a function that takes a callable both give the empty result |
| `CallbackListTests.EmptyList` | tests/CallbackListTest.php:162-166 | invoking an empty list gives the empty result and invokes nothing |
| `CallbackListTests.ThrowStopsLaterHandlers` | tests/CallbackListTest.php:10-30 | when the second of three handlers throws, the call reports its exception and the third handler is never invoked |

## Left out

- The production class `CallbackList` is not part of this model. Its internal storage and the way it handles a name given twice are modelled on the model's own first-match choice, not on its code.
- RunCompletesIffNoThrow, RunAbortedIgnoresRest, ThrowStopsLaterHandlers, DuplicateNames, and the abort clauses of RunTraceInOrder and RunSnoc: no test fixes them. No test has a handler that throws or a name added twice. Abort on throw and first match on duplicate names are the model's chosen semantics. Each row cites only the `call` or `add` site that the member is about.
- `Value` cannot express floats, objects, closures or keyed arrays. The list never inspects values, so no container behaviour depends on them.
- The assertion `get('b') == $a` at tests/CallbackListTest.php:119 is not modelled. It holds only because PHPUnit's `assertEquals` equates the two echo closures. For the same reason, line 130 cannot tell `$a` from `$b`. The model states the intended first-match result instead.
- PHP callable mechanics are not modelled: `is_callable` (line 152), closure identity and equality, default parameters, and arity mismatches. Handlers are opaque values invoked through `apply`.
- `apply` is a function. A handler therefore gives the same outcome each time it gets the same arguments. State that a handler shares through captured variables, as `$log` is captured by reference, is replaced by the invocation trace. `echo` output is not modelled.
- `Get` returns `None` for a name that no entry has. The suite does not fix a policy for a missing name, so this is the policy chosen.
- Handler exceptions are modelled as an `Outcome` carrying a message string. The visible suite does not exercise them. Exception objects, their classes and stack traces are out of scope.
- `strict_types`, the PHPUnit `TestCase` plumbing, and concurrent use of one list are out of scope.
