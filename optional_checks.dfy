/**
  The checks of `AbstractOptionalAssert` as functions of what they read: the
  wrapped `Optional` (`actual`), the value comparison strategy currently
  installed, and the argument.  Each is the source's sequence of guards, in
  the source's order: the null-actual check, the null-argument check, the
  presence test, then the equality, identity or type test.
 */
module OptionalChecks {
  import opened Types

  /** `AbstractAssert.isNotNull()`: fails when the actual `Optional` is `null`. */
  function IsNotNull<V>(actual: Option<Option<V>>): (r: Outcome<V>)
    ensures r.Ok? <==> actual.Some?
    ensures !r.Ok? ==> r == ShouldNotBeNull
  {
    if actual.None? then ShouldNotBeNull else Ok
  }

  /** `checkNotNull(expectedValue)`: a `null` expected value is an illegal argument. */
  function CheckNotNull<V>(expected: Option<V>): (r: Outcome<V>)
    ensures r.Ok? <==> expected.Some?
    ensures !r.Ok? ==> r == IllegalArgument
  {
    if expected.None? then IllegalArgument else Ok
  }

  /** `isPresent()`: succeeds exactly when the actual is non-null and holds a value. */
  function IsPresent<V>(actual: Option<Option<V>>): (r: Outcome<V>)
    ensures r.Ok? <==> actual.Some? && actual.value.Some?
    ensures actual.None? ==> r == ShouldNotBeNull
    ensures actual == Some(None) ==> r == ShouldBePresent(None)
  {
    if IsNotNull(actual) != Ok then IsNotNull(actual)
    else if actual.value.None? then ShouldBePresent(actual.value)
    else Ok
  }

  /** `isEmpty()`: succeeds exactly when the actual is non-null and empty. */
  function IsEmpty<V>(actual: Option<Option<V>>): (r: Outcome<V>)
    ensures r.Ok? <==> actual == Some(None)
    ensures actual.None? ==> r == ShouldNotBeNull
    ensures actual.Some? && actual.value.Some? ==> r == ShouldBeEmpty(actual.value)
  {
    if IsNotNull(actual) != Ok then IsNotNull(actual)
    else if actual.value.Some? then ShouldBeEmpty(actual.value)
    else Ok
  }

  /** `contains(expectedValue)`: the value is compared with the installed
      strategy, the actual value first. */
  function Contains<V>(actual: Option<Option<V>>, strategy: Strategy, expected: Option<V>,
                       areEqual: (Strategy, V, V) -> bool): (r: Outcome<V>)
    ensures r.Ok? <==>
      actual.Some? && actual.value.Some? && expected.Some? && areEqual(strategy, actual.value.value, expected.value)
    ensures actual.None? ==> r == ShouldNotBeNull
    ensures actual.Some? && expected.None? ==> r == IllegalArgument
    ensures actual == Some(None) && expected.Some? ==> r == ShouldContain(expected.value)
    ensures actual.Some? && actual.value.Some? && expected.Some? ==>
      (r.Ok? <==> areEqual(strategy, actual.value.value, expected.value)) &&
      (!r.Ok? ==> r == ShouldContainValue(actual.value, expected.value))
  {
    if IsNotNull(actual) != Ok then IsNotNull(actual)
    else if CheckNotNull(expected) != Ok then CheckNotNull(expected)
    else if actual.value.None? then ShouldContain(expected.value)
    else if !areEqual(strategy, actual.value.value, expected.value) then
      ShouldContainValue(actual.value, expected.value)
    else Ok
  }

  /** `hasValue(expectedValue)`: delegates to `contains`. */
  function HasValue<V>(actual: Option<Option<V>>, strategy: Strategy, expected: Option<V>,
                       areEqual: (Strategy, V, V) -> bool): (r: Outcome<V>)
    ensures r.Ok? <==>
      actual.Some? && actual.value.Some? && expected.Some? && areEqual(strategy, actual.value.value, expected.value)
  {
    Contains(actual, strategy, expected, areEqual)
  }

  /** `containsInstanceOf(clazz)`: an empty actual is reported as not present;
      a `null` class makes `clazz.isInstance` throw. */
  function ContainsInstanceOf<V>(actual: Option<Option<V>>, clazz: Option<ClassRef>,
                                 isInstance: (ClassRef, V) -> bool): (r: Outcome<V>)
    ensures actual.None? ==> r == ShouldNotBeNull
    ensures actual == Some(None) ==> r == ShouldBePresent(None)
    ensures actual.Some? && actual.value.Some? && clazz.None? ==> r == NullPointer
    ensures actual.Some? && actual.value.Some? && clazz.Some? ==>
      (r.Ok? <==> isInstance(clazz.value, actual.value.value)) &&
      (!r.Ok? ==> r == ShouldContainInstanceOf(actual.value, clazz.value))
  {
    if IsNotNull(actual) != Ok then IsNotNull(actual)
    else if actual.value.None? then ShouldBePresent(actual.value)
    else if clazz.None? then NullPointer
    else if !isInstance(clazz.value, actual.value.value) then
      ShouldContainInstanceOf(actual.value, clazz.value)
    else Ok
  }

  /** `containsSame(expectedValue)`: reference identity; no strategy is consulted. */
  function ContainsSame<V(==)>(actual: Option<Option<V>>, expected: Option<V>): (r: Outcome<V>)
    ensures r.Ok? <==> actual.Some? && expected.Some? && actual.value == Some(expected.value)
    ensures actual.None? ==> r == ShouldNotBeNull
    ensures actual.Some? && expected.None? ==> r == IllegalArgument
    ensures actual == Some(None) && expected.Some? ==> r == ShouldContain(expected.value)
    ensures actual.Some? && actual.value.Some? && expected.Some? && actual.value.value != expected.value ==>
      r == ShouldContainSame(actual.value, expected.value)
  {
    if IsNotNull(actual) != Ok then IsNotNull(actual)
    else if CheckNotNull(expected) != Ok then CheckNotNull(expected)
    else if actual.value.None? then ShouldContain(expected.value)
    else if actual.value.value != expected.value then ShouldContainSame(actual.value, expected.value)
    else Ok
  }

  // Properties relating the checks to one another.

  /** `hasValue` gives exactly the outcome of `contains`, on every input. */
  lemma HasValueIsContains<V>(actual: Option<Option<V>>, strategy: Strategy, expected: Option<V>,
                              areEqual: (Strategy, V, V) -> bool)
    ensures HasValue(actual, strategy, expected, areEqual) == Contains(actual, strategy, expected, areEqual)
  {
  }

  /** On a non-null actual exactly one of `isPresent` and `isEmpty` succeeds;
      on a null actual both fail the same way. */
  lemma PresentXorEmpty<V>(actual: Option<Option<V>>)
    ensures actual.Some? ==> (IsPresent(actual).Ok? <==> !IsEmpty(actual).Ok?)
    ensures actual.None? ==> IsPresent(actual) == IsEmpty(actual) == ShouldNotBeNull
  {
  }

  /** The null-actual failure comes before every other check. */
  lemma NullActualFirst<V>(strategy: Strategy, expected: Option<V>, clazz: Option<ClassRef>, o: Oracle<V>)
    ensures IsPresent<V>(None) == ShouldNotBeNull
    ensures IsEmpty<V>(None) == ShouldNotBeNull
    ensures Contains(None, strategy, expected, o.areEqual) == ShouldNotBeNull
    ensures HasValue(None, strategy, expected, o.areEqual) == ShouldNotBeNull
    ensures ContainsInstanceOf(None, clazz, o.isInstance) == ShouldNotBeNull
    ensures ContainsSame(None, expected) == ShouldNotBeNull
  {
  }

  /** A `null` expected value is rejected before presence is tested, so an
      empty and a present actual fail alike. */
  lemma NullExpectedBeforePresence<V>(value: Option<V>, strategy: Strategy, areEqual: (Strategy, V, V) -> bool)
    ensures Contains(Some(value), strategy, None, areEqual) == IllegalArgument
    ensures ContainsSame(Some(value), None) == IllegalArgument
  {
  }

  /** Every succeeding value check implies that `isPresent` succeeds too. */
  lemma ValueChecksImplyPresent<V>(actual: Option<Option<V>>, strategy: Strategy, expected: Option<V>,
                                       clazz: Option<ClassRef>, o: Oracle<V>)
    ensures Contains(actual, strategy, expected, o.areEqual).Ok? ==> IsPresent(actual).Ok?
    ensures ContainsInstanceOf(actual, clazz, o.isInstance).Ok? ==> IsPresent(actual).Ok?
    ensures ContainsSame(actual, expected).Ok? ==> IsPresent(actual).Ok?
  {
  }

  /** An empty `Optional` passes `isEmpty` and fails every other check for a
      non-null argument; `containsInstanceOf` reports it as not present while
      `contains` and `containsSame` report the missing expected value. */
  lemma EmptyFailsValueChecks<V>(strategy: Strategy, e: V, c: ClassRef, o: Oracle<V>)
    ensures IsEmpty<V>(Some(None)) == Ok
    ensures IsPresent<V>(Some(None)) == ShouldBePresent(None)
    ensures Contains(Some(None), strategy, Some(e), o.areEqual) == ShouldContain(e)
    ensures HasValue(Some(None), strategy, Some(e), o.areEqual) == ShouldContain(e)
    ensures ContainsSame(Some(None), Some(e)) == ShouldContain(e)
    ensures ContainsInstanceOf(Some(None), Some(c), o.isInstance) == ShouldBePresent(None)
  {
  }

  /** Identity is at least as strict as equality under a strategy that
      finds every value equal to itself. */
  lemma SameImpliesContains<V>(actual: Option<Option<V>>, strategy: Strategy, expected: Option<V>,
                                   areEqual: (Strategy, V, V) -> bool)
    requires forall v :: areEqual(strategy, v, v)
    ensures ContainsSame(actual, expected).Ok? ==> Contains(actual, strategy, expected, areEqual).Ok?
  {
  }
}
