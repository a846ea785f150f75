/**
  Values shared by the model of AssertJ's assertions on `java.util.Optional`.

  A Java reference that may be `null` is an `Option`: `None` is `null`.  The
  wrapped `Optional<T>` is therefore an `Option<Option<V>>`: the outer `None`
  is a `null` actual, `Some(None)` is `Optional.empty()` and `Some(Some(v))`
  is `Optional.of(v)`.  A value of the type parameter `V` stands for a
  (non-null) Java reference, so `==` on `V` is Java's reference identity.
 */
module Types {

  datatype Option<+T> = None | Some(value: T)

  /** The comparators the assertion can be given: the field-by-field one it
      builds itself, or one supplied by the caller (identified by a number). */
  datatype Comparator = FieldByFieldComparator | CustomComparator(id: nat)

  /** The value comparison strategy held by an assertion: the shared standard
      strategy (the value's own `equals`), or one built around a comparator. */
  datatype Strategy = Standard | ComparatorBased(comparator: Comparator)

  /** A `java.lang.Class` object, identified by its name. */
  datatype ClassRef = ClassRef(name: string)

  /** What one call on the assertion object does.  `Ok` is the normal return
      of `myself`; every other constructor is the exception the call throws,
      carrying the arguments its error factory is given. */
  datatype Outcome<V> =
    | Ok
      /** `isNotNull()` failed: the actual `Optional` is itself `null`. */
    | ShouldNotBeNull
      /** `IllegalArgumentException`: a `null` expected value. */
    | IllegalArgument
      /** `NullPointerException`: a `null` comparator or class. */
    | NullPointer
    | ShouldBePresent(actual: Option<V>)
    | ShouldBeEmpty(actual: Option<V>)
      /** `shouldContain(expectedValue)`: expected a value but was empty. */
    | ShouldContain(expected: V)
      /** `shouldContain(actual, expectedValue)`: present but not equal. */
    | ShouldContainValue(actual: Option<V>, expected: V)
    | ShouldContainSame(actual: Option<V>, expected: V)
    | ShouldContainInstanceOf(actual: Option<V>, clazz: ClassRef)

  /** The behaviour of code the assertion calls into but which is not part of
      this model: each strategy's `areEqual(actual, other)` and
      `Class.isInstance(obj)`.  Both are left uninterpreted. */
  datatype Oracle<!V> = Oracle(areEqual: (Strategy, V, V) -> bool, isInstance: (ClassRef, V) -> bool)
}
