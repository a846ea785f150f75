# AssertJ `Optional` assertions in Dafny

This project models `AbstractOptionalAssert`, AssertJ's fluent assertion
object for `java.util.Optional`. The object wraps the `Optional` under test,
called `actual`. It has one mutable field, the value comparison strategy. A
new object starts with the standard strategy, which uses the value's own
`equals`. The setters `usingValueComparator`, `usingFieldByFieldValueComparator`
and `usingDefaultValueComparator` replace that strategy. The checks `isPresent`,
`isEmpty`, `contains`, `hasValue`, `containsInstanceOf` and `containsSame` read
`actual` and the strategy. Each check either returns the object itself, so
that calls can be chained, or throws one particular error.

Layout:

- `optional_types.dfy` (module `Types`) holds the shared data. `Option` stands
  for a Java reference that may be `null`: `actual` is an `Option<Option<V>>`,
  and the outer `None` is a `null` actual. `Comparator` and `Strategy` name the
  comparison strategies. `Outcome` is "returned `myself`" (`Ok`) or the error
  thrown, tagged with the arguments passed to its error factory. `Oracle`
  bundles the strategies' `areEqual` and `Class.isInstance`, both left
  uninterpreted.
- `optional_checks.dfy` (module `OptionalChecks`) holds each check as a function
  of what it reads. Each function keeps the source's order of guards: the
  null-actual check, then the null-argument check, then presence, then the
  equality, identity or type test. The lemmas in this module relate the checks
  to one another.
- `optional_assert.dfy` (module `OptionalAssertion`) holds the class
  `OptionalAssert`. It has a constant `actual` and a mutable `strategy`. The
  setters are methods with `modifies this`. The checks are methods without a
  `modifies` clause, so they cannot change the object. Each check method
  returns the outcome of its function in `OptionalChecks`, applied to the
  object's fields.
- `assertion_chain.dfy` (module `AssertionChain`) models a chain of calls on one
  object as a sequence of `Call`s. The chain stops at the first call that
  throws. Its lemmas show how calls compose: how chains append, that
  `usingDefaultValueComparator` restores the constructor's state and is
  idempotent, that checks never change the state, and that a null actual fails
  every chain that contains a check. The method `Apply` ties the class to this
  model: any one call on an `OptionalAssert` object gives the outcome and the
  new state that `Step` gives.

A value of type `V` stands for a non-null Java reference. Dafny's `==` on `V`
is therefore Java's reference identity `==`, which is what `containsSame`
tests. The equality that `contains` uses goes through the installed strategy
instead.

`usingValueComparator` (`AbstractOptionalAssert.java:195-198`) does no null
check of its own. Its doc comment (line 192) says that a `null` comparator
throws `NullPointerException`, and the model follows that. The only thing on
line 196 that can throw is building the new strategy, so on a `null`
comparator the field keeps its old value.

## Model

| member | source | states |
|---|---|---|
| `OptionalChecks.IsNotNull` | src/main/java/org/assertj/core/api/AbstractOptionalAssert.java:58 | the null-actual check passes iff `actual` is non-null, and otherwise fails with the not-null error |
| `OptionalChecks.CheckNotNull` | src/main/java/org/assertj/core/api/AbstractOptionalAssert.java:247-249 | passes iff the expected value is non-null, and otherwise throws `IllegalArgumentException` |
| `OptionalChecks.IsPresent` | src/main/java/org/assertj/core/api/AbstractOptionalAssert.java:57-61 | succeeds iff `actual` is non-null and holds a value; a null actual fails the not-null check; an empty one fails with `shouldBePresent(actual)` |
| `OptionalChecks.IsEmpty` | src/main/java/org/assertj/core/api/AbstractOptionalAssert.java:74-78 | succeeds iff `actual` is non-null and empty; a present value fails with `shouldBeEmpty(actual)` |
| `OptionalChecks.Contains` | src/main/java/org/assertj/core/api/AbstractOptionalAssert.java:94-100 | null actual first, then a null expected value gives `IllegalArgumentException` (present or empty alike), then empty gives `shouldContain(e)`, then success iff the strategy's `areEqual(value, e)`, else `shouldContain(actual, e)` |
| `OptionalChecks.ContainsInstanceOf` | src/main/java/org/assertj/core/api/AbstractOptionalAssert.java:137-142 | empty fails with `shouldBePresent`, not `shouldContain`; a null class on a present value throws `NullPointerException`; otherwise success iff the class accepts the value, else `shouldContainInstanceOf` |
| `OptionalChecks.ContainsSame` | src/main/java/org/assertj/core/api/AbstractOptionalAssert.java:239-245 | succeeds iff `actual` is non-null and holds exactly the reference `e`, with no strategy involved; null `e` gives `IllegalArgumentException`; empty gives `shouldContain(e)`; a different reference gives `shouldContainSame` |
| `OptionalChecks.HasValue` | src/main/java/org/assertj/core/api/AbstractOptionalAssert.java:116-118 | `hasValue(e)` succeeds iff `actual` is non-null, holds a value, `e` is non-null and the installed strategy's `areEqual(value, e)` holds |
| `OptionalChecks.HasValueIsContains` | src/main/java/org/assertj/core/api/AbstractOptionalAssert.java:116-118 | `hasValue(e)` gives exactly the outcome of `contains(e)` on every input |
| `OptionalChecks.PresentXorEmpty` | src/main/java/org/assertj/core/api/AbstractOptionalAssert.java:57-78 | on a non-null actual exactly one of `isPresent` and `isEmpty` succeeds; on a null actual both fail with the not-null error |
| `OptionalChecks.NullActualFirst` | src/main/java/org/assertj/core/api/AbstractOptionalAssert.java:58-240 | every check on a null actual fails with the not-null error, whatever its argument |
| `OptionalChecks.NullExpectedBeforePresence` | src/main/java/org/assertj/core/api/AbstractOptionalAssert.java:94-97 | a null expected value is rejected with `IllegalArgumentException` by `contains` and `containsSame`, whether the actual is empty or present |
| `OptionalChecks.ValueChecksImplyPresent` | src/main/java/org/assertj/core/api/AbstractOptionalAssert.java:94-245 | a passing `contains`, `containsInstanceOf` or `containsSame` implies a passing `isPresent` |
| `OptionalChecks.EmptyFailsValueChecks` | src/main/java/org/assertj/core/api/AbstractOptionalAssert.java:94-245 | on an empty `Optional`, `isEmpty` passes and every value check fails for a non-null argument, each with its own error |
| `OptionalChecks.SameImpliesContains` | src/main/java/org/assertj/core/api/AbstractOptionalAssert.java:214-245 | under a strategy that finds every value equal to itself, a passing `containsSame` implies a passing `contains` |
| `OptionalAssertion.OptionalAssert.constructor` | src/main/java/org/assertj/core/api/AbstractOptionalAssert.java:41-44 | a new assertion wraps the given actual and holds the standard strategy |
| `OptionalAssertion.OptionalAssert.HasValue` | src/main/java/org/assertj/core/api/AbstractOptionalAssert.java:116-118 | delegates to `Contains` and gives its outcome |
| `OptionalAssertion.OptionalAssert.UsingValueComparator` | src/main/java/org/assertj/core/api/AbstractOptionalAssert.java:191-198 | a non-null comparator installs a comparator-based strategy around it and returns the object; a null one throws `NullPointerException` and leaves the strategy as it was; only the strategy field may change |
| `OptionalAssertion.OptionalAssert.UsingFieldByFieldValueComparator` | src/main/java/org/assertj/core/api/AbstractOptionalAssert.java:169-171 | installs a comparator-based strategy around the field-by-field comparator, by calling `UsingValueComparator` |
| `OptionalAssertion.OptionalAssert.UsingDefaultValueComparator` | src/main/java/org/assertj/core/api/AbstractOptionalAssert.java:208-212 | installs the standard strategy again and returns the object |
| `OptionalAssertion.FieldByFieldExample` | src/main/java/org/assertj/core/api/AbstractOptionalAssert.java:158-165 | for distinct objects that `equals` tells apart but the field-by-field comparator finds equal, `contains` fails before the swap and passes after it on the same object; `containsSame` still fails |
| `AssertionChain.Initial` | src/main/java/org/assertj/core/api/AbstractOptionalAssert.java:41-44 | the constructor's state: the given actual and the standard strategy |
| `AssertionChain.Step` | src/main/java/org/assertj/core/api/AbstractOptionalAssert.java:57-245 | one call: no call changes the actual; checks leave the whole state unchanged; setters can only succeed or throw `NullPointerException`; a failing call changes nothing |
| `AssertionChain.Run` | src/main/java/org/assertj/core/api/AbstractOptionalAssert.java:57-245 | a chain never changes the actual, and a chain with no setter in it leaves the state unchanged |
| `AssertionChain.Apply` | src/main/java/org/assertj/core/api/AbstractOptionalAssert.java:41-245 | any one call on an `OptionalAssert` object dispatches to the matching method; its outcome and the object's new strategy are those `Step` gives for the object's state before the call, and the actual is unchanged |
| `AssertionChain.RunAppend` | src/main/java/org/assertj/core/api/AbstractOptionalAssert.java:57-245 | running `a + b` runs `a`, then runs `b` from the state `a` left if `a` succeeded; otherwise `a`'s failure is the result |
| `AssertionChain.ChecksPassIffEachPasses` | src/main/java/org/assertj/core/api/AbstractOptionalAssert.java:57-245 | a chain made only of checks passes iff each of its checks passes on the starting state, since checks return the object unchanged |
| `AssertionChain.ChecksReportFirstFailure` | src/main/java/org/assertj/core/api/AbstractOptionalAssert.java:57-245 | a chain made only of checks that fails reports exactly the error of its first failing check |
| `AssertionChain.NullActualFailsChain` | src/main/java/org/assertj/core/api/AbstractOptionalAssert.java:58-240 | on a null actual every chain that contains a check fails: with the not-null error when the chain holds no `usingValueComparator(null)`, and a `NullPointerException` outcome only when some `usingValueComparator(null)` is preceded by nothing but setters; the setters alone do not check for null |
| `AssertionChain.DefaultRestoresInitial` | src/main/java/org/assertj/core/api/AbstractOptionalAssert.java:208-212 | `usingDefaultValueComparator` succeeds and yields the constructor's state, so the rest of a chain behaves as on a fresh assertion |
| `AssertionChain.DefaultIdempotent` | src/main/java/org/assertj/core/api/AbstractOptionalAssert.java:208-212 | two `usingDefaultValueComparator` calls in a row, anywhere in a chain, have the same effect as one |
| `AssertionChain.FieldByFieldIsValueComparator` | src/main/java/org/assertj/core/api/AbstractOptionalAssert.java:169-171 | `usingFieldByFieldValueComparator()` is `usingValueComparator` with a field-by-field comparator, and changes only the strategy |
| `AssertionChain.NullComparatorRejected` | src/main/java/org/assertj/core/api/AbstractOptionalAssert.java:192-198 | `usingValueComparator(null)` throws `NullPointerException` in every state and leaves the state as it was |
| `AssertionChain.ContainsAfterSwap` | src/main/java/org/assertj/core/api/AbstractOptionalAssert.java:173-198 | a `contains` after `usingValueComparator(c)` compares with the strategy built around `c`, on the unchanged actual |
| `AssertionChain.ContainsSameIgnoresStrategy` | src/main/java/org/assertj/core/api/AbstractOptionalAssert.java:239-245 | `containsSame` gives the same outcome whatever strategy is installed |

## Left out

- `src/main/java/org/assertj/core/util/Compatibility.java`: it only reads the `line.separator` system property, which is environment I/O with no logic.
- Error messages: the factories `shouldBePresent`, `shouldBeEmpty`, `shouldContain`, `shouldContainSame` and `shouldContainInstanceOf` are not part of this model. Each failure is an `Outcome` tag carrying the factory's arguments, with no message text.
- The comparison strategies' own logic (`StandardComparisonStrategy`, `ComparatorBasedComparisonStrategy`, `FieldByFieldComparator`) is not part of this model. `areEqual` is an uninterpreted function of the strategy and the two values. The model does not assume that a comparator result of 0 means equal, or that any strategy is reflexive. Both `areEqual` and `isInstance` are taken to be fixed and free of side effects for a whole chain. The field-by-field comparison in fact depends on the global private-field setting named in the doc comment (lines 147-148), and a custom comparator may keep state; `Run`, `ChecksPassIffEachPasses` and `DefaultIdempotent` rely on this assumption. `Class.isInstance` is uninterpreted too.
- `OptionalAssertion.OptionalAssert.UsingValueComparator`: the null check on the comparator comes from the doc comment at line 192. The `ComparatorBasedComparisonStrategy` constructor that would throw is not part of this model.
- `AbstractAssert` plumbing: `isNotNull` is modelled as a null test on `actual` that fails with `ShouldNotBeNull`. `throwAssertionError` is modelled as a non-`Ok` outcome. Returning `myself` is modelled as `Ok`. The self-type generics are dropped.
- Exceptions thrown from inside an `areEqual` or a comparator are not modelled: `areEqual` is a total function.
- Java's boxing cache, which makes `containsSame(10)` pass for small integers, is not modelled. Identity is taken as given by the values.
