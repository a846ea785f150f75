/**
  The assertion object itself: it holds the actual `Optional`, which never
  changes, and one mutable field, the value comparison strategy.  The setters
  replace the strategy; the checks read the actual value and the strategy and
  either return the object (`Ok`) or throw.
 */
module OptionalAssertion {
  import opened Types
  import OptionalChecks

  class OptionalAssert<V(==)> {
    /** The `Optional` under test (`AbstractAssert.actual`, a final field). */
    const actual: Option<Option<V>>
    /** `optionalValueComparisonStrategy`. */
    var strategy: Strategy

    /** A fresh assertion compares values with the standard strategy. */
    constructor (actual: Option<Option<V>>)
      ensures this.actual == actual
      ensures strategy == Standard
    {
      this.actual := actual;
      strategy := Standard;
    }

    method IsPresent() returns (o: Outcome<V>)
      ensures o == OptionalChecks.IsPresent(actual)
    {
      o := OptionalChecks.IsPresent(actual);
    }

    method IsEmpty() returns (o: Outcome<V>)
      ensures o == OptionalChecks.IsEmpty(actual)
    {
      o := OptionalChecks.IsEmpty(actual);
    }

    /** `contains` uses the strategy installed at the time of the call. */
    method Contains(expected: Option<V>, areEqual: (Strategy, V, V) -> bool) returns (o: Outcome<V>)
      ensures o == OptionalChecks.Contains(actual, strategy, expected, areEqual)
    {
      o := OptionalChecks.Contains(actual, strategy, expected, areEqual);
    }

    method HasValue(expected: Option<V>, areEqual: (Strategy, V, V) -> bool) returns (o: Outcome<V>)
      ensures o == OptionalChecks.Contains(actual, strategy, expected, areEqual)
    {
      o := Contains(expected, areEqual);
    }

    method ContainsInstanceOf(clazz: Option<ClassRef>, isInstance: (ClassRef, V) -> bool) returns (o: Outcome<V>)
      ensures o == OptionalChecks.ContainsInstanceOf(actual, clazz, isInstance)
    {
      o := OptionalChecks.ContainsInstanceOf(actual, clazz, isInstance);
    }

    method ContainsSame(expected: Option<V>) returns (o: Outcome<V>)
      ensures o == OptionalChecks.ContainsSame(actual, expected)
    {
      o := OptionalChecks.ContainsSame(actual, expected);
    }

    /** Installs a strategy built around the comparator.  A `null` comparator
        makes that construction throw, so the field keeps its old value. */
    method UsingValueComparator(comparator: Option<Comparator>) returns (o: Outcome<V>)
      modifies this
      ensures comparator.None? ==> o == NullPointer && strategy == old(strategy)
      ensures comparator.Some? ==> o == Ok && strategy == ComparatorBased(comparator.value)
    {
      if comparator.None? {
        o := NullPointer;
      } else {
        strategy := ComparatorBased(comparator.value);
        o := Ok;
      }
    }

    /** Installs a strategy around a new field-by-field comparator. */
    method UsingFieldByFieldValueComparator() returns (o: Outcome<V>)
      modifies this
      ensures o == Ok && strategy == ComparatorBased(FieldByFieldComparator)
    {
      o := UsingValueComparator(Some(FieldByFieldComparator));
    }

    /** Goes back to the standard strategy a fresh assertion starts with. */
    method UsingDefaultValueComparator() returns (o: Outcome<V>)
      modifies this
      ensures o == Ok && strategy == Standard
    {
      strategy := Standard;
      o := Ok;
    }
  }

  /** The field-by-field example of the setters' documentation: `frodo` and
      `frodoClone` are distinct objects that `equals` tells apart but the
      field-by-field comparator finds equal.  `contains` fails with the
      standard strategy and passes on the same object after the swap, and
      `containsSame` fails both times. */
  method FieldByFieldExample<V(==)>(frodo: V, frodoClone: V, areEqual: (Strategy, V, V) -> bool)
      returns (before: Outcome<V>, after: Outcome<V>, same: Outcome<V>)
    requires frodo != frodoClone
    requires !areEqual(Standard, frodo, frodoClone)
    requires areEqual(ComparatorBased(FieldByFieldComparator), frodo, frodoClone)
    ensures before == ShouldContainValue(Some(frodo), frodoClone)
    ensures after == Ok
    ensures same == ShouldContainSame(Some(frodo), frodoClone)
  {
    var a := new OptionalAssert(Some(Some(frodo)));
    before := a.Contains(Some(frodoClone), areEqual);
    var _ := a.UsingFieldByFieldValueComparator();
    after := a.Contains(Some(frodoClone), areEqual);
    same := a.ContainsSame(Some(frodoClone));
  }
}
