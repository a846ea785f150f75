/**
  Chains of calls on one assertion object.  Every call returns the object
  itself, so a test writes `assertThat(opt).usingValueComparator(c).contains(x)`;
  the first call that throws ends the chain.  A chain is modelled as a
  sequence of calls run from a state (the actual `Optional` and the installed
  strategy); the lemmas state what one call may change and how calls compose.
 */
module AssertionChain {
  import opened Types
  import OptionalChecks
  import opened OptionalAssertion

  /** The state of an assertion object. */
  datatype State<V> = State(actual: Option<Option<V>>, strategy: Strategy)

  /** One public call on the assertion object, with its argument. */
  datatype Call<V> =
    | IsPresent
    | IsEmpty
    | Contains(expected: Option<V>)
    | HasValue(expected: Option<V>)
    | ContainsInstanceOf(clazz: Option<ClassRef>)
    | ContainsSame(expected: Option<V>)
    | UsingFieldByFieldValueComparator
    | UsingValueComparator(comparator: Option<Comparator>)
    | UsingDefaultValueComparator

  /** What a call leaves behind: how it ended and the object's state after it. */
  datatype Reply<V> = Reply(outcome: Outcome<V>, state: State<V>)

  predicate IsSetter<V>(c: Call<V>) {
    c.UsingFieldByFieldValueComparator? || c.UsingValueComparator? || c.UsingDefaultValueComparator?
  }

  /** The state the constructor creates. */
  function Initial<V>(actual: Option<Option<V>>): (s: State<V>)
    ensures s.actual == actual && s.strategy == Standard
  {
    State(actual, Standard)
  }

  /** One call.  Checks leave the state as it was; setters never touch the
      actual value, and only a `null` comparator makes one fail. */
  function Step<V(==)>(s: State<V>, c: Call<V>, o: Oracle<V>): (r: Reply<V>)
    ensures r.state.actual == s.actual
    ensures !IsSetter(c) ==> r.state == s
    ensures IsSetter(c) ==> (r.outcome.Ok? || r.outcome == NullPointer)
    ensures !r.outcome.Ok? ==> r.state == s
  {
    match c
    case IsPresent => Reply(OptionalChecks.IsPresent(s.actual), s)
    case IsEmpty => Reply(OptionalChecks.IsEmpty(s.actual), s)
    case Contains(e) => Reply(OptionalChecks.Contains(s.actual, s.strategy, e, o.areEqual), s)
    case HasValue(e) => Reply(OptionalChecks.HasValue(s.actual, s.strategy, e, o.areEqual), s)
    case ContainsInstanceOf(k) => Reply(OptionalChecks.ContainsInstanceOf(s.actual, k, o.isInstance), s)
    case ContainsSame(e) => Reply(OptionalChecks.ContainsSame(s.actual, e), s)
    case UsingFieldByFieldValueComparator => Reply(Ok, s.(strategy := ComparatorBased(FieldByFieldComparator)))
    case UsingValueComparator(cmp) =>
      if cmp.None? then Reply(NullPointer, s) else Reply(Ok, s.(strategy := ComparatorBased(cmp.value)))
    case UsingDefaultValueComparator => Reply(Ok, s.(strategy := Standard))
  }

  /** A chain: calls run in order until one fails. */
  function Run<V(==)>(s: State<V>, calls: seq<Call<V>>, o: Oracle<V>): (r: Reply<V>)
    ensures r.state.actual == s.actual
    ensures (forall i | 0 <= i < |calls| :: !IsSetter(calls[i])) ==> r.state == s
    decreases |calls|
  {
    if calls == [] then Reply(Ok, s)
    else
      var first := Step(s, calls[0], o);
      if !first.outcome.Ok? then first else Run(first.state, calls[1..], o)
  }

  /** Running `a + b` is running `a` and then, if it succeeded, running `b`
      from where `a` left the object. */
  lemma {:induction false} RunAppend<V>(s: State<V>, a: seq<Call<V>>, b: seq<Call<V>>, o: Oracle<V>)
    ensures Run(s, a + b, o) ==
      (var ra := Run(s, a, o); if ra.outcome.Ok? then Run(ra.state, b, o) else ra)
    decreases |a|
  {
    if a == [] {
      assert a + b == b;
    } else {
      assert (a + b)[0] == a[0];
      assert (a + b)[1..] == a[1..] + b;
      var first := Step(s, a[0], o);
      if first.outcome.Ok? {
        RunAppend(first.state, a[1..], b, o);
      }
    }
  }

  /** A chain of checks alone passes exactly when every one of its checks
      passes on the starting state, whatever their order. */
  lemma {:induction false} ChecksPassIffEachPasses<V>(s: State<V>, calls: seq<Call<V>>, o: Oracle<V>)
    requires forall i | 0 <= i < |calls| :: !IsSetter(calls[i])
    ensures Run(s, calls, o).outcome.Ok? <==> forall i | 0 <= i < |calls| :: Step(s, calls[i], o).outcome.Ok?
    decreases |calls|
  {
    if calls != [] {
      ChecksPassIffEachPasses(s, calls[1..], o);
      forall i | 0 <= i < |calls| - 1
        ensures calls[1..][i] == calls[i + 1]
      {
      }
    }
  }

  /** A chain of checks that fails reports the first check that fails. */
  lemma {:induction false} ChecksReportFirstFailure<V>(s: State<V>, calls: seq<Call<V>>, k: nat, o: Oracle<V>)
    requires forall i | 0 <= i < |calls| :: !IsSetter(calls[i])
    requires k < |calls| && !Step(s, calls[k], o).outcome.Ok?
    requires forall i | 0 <= i < k :: Step(s, calls[i], o).outcome.Ok?
    ensures Run(s, calls, o) == Step(s, calls[k], o)
    decreases k
  {
    if k > 0 {
      ChecksReportFirstFailure(s, calls[1..], k - 1, o);
    }
  }

  /** On a `null` actual no chain that contains a check can pass: the first
      check fails with the null-actual error, unless a `null` comparator has
      already stopped the chain. */
  lemma {:induction false} NullActualFailsChain<V>(s: State<V>, calls: seq<Call<V>>, o: Oracle<V>)
    requires s.actual.None?
    requires exists i | 0 <= i < |calls| :: !IsSetter(calls[i])
    ensures Run(s, calls, o).outcome == ShouldNotBeNull || Run(s, calls, o).outcome == NullPointer
    ensures (forall i | 0 <= i < |calls| :: calls[i] != UsingValueComparator(None)) ==>
      Run(s, calls, o).outcome == ShouldNotBeNull
    ensures Run(s, calls, o).outcome == NullPointer ==>
      exists i | 0 <= i < |calls| :: calls[i] == UsingValueComparator(None) && forall j | 0 <= j < i :: IsSetter(calls[j])
    decreases |calls|
  {
    if IsSetter(calls[0]) {
      var first := Step(s, calls[0], o);
      if first.outcome.Ok? {
        assert forall j | 0 <= j < |calls| - 1 :: calls[1..][j] == calls[j + 1];
        var i :| 0 <= i < |calls| && !IsSetter(calls[i]);
        assert i > 0 && calls[1..][i - 1] == calls[i];
        NullActualFailsChain(first.state, calls[1..], o);
        if Run(s, calls, o).outcome == NullPointer {
          var k :| 0 <= k < |calls| - 1 && calls[1..][k] == UsingValueComparator(None) &&
            forall j | 0 <= j < k :: IsSetter(calls[1..][j]);
          assert calls[k + 1] == UsingValueComparator(None);
          assert forall j | 0 <= j < k + 1 :: IsSetter(calls[j]);
        }
      } else {
        assert calls[0] == UsingValueComparator(None);
      }
    }
  }

  /** `usingDefaultValueComparator` installs the state the constructor
      creates, so whatever came before it, the rest of the chain behaves as
      on a fresh assertion. */
  lemma DefaultRestoresInitial<V>(s: State<V>, rest: seq<Call<V>>, o: Oracle<V>)
    ensures Step(s, UsingDefaultValueComparator, o) == Reply(Ok, Initial(s.actual))
    ensures Run(s, [UsingDefaultValueComparator] + rest, o) == Run(Initial(s.actual), rest, o)
  {
    assert ([UsingDefaultValueComparator] + rest)[1..] == rest;
  }

  /** Calling `usingDefaultValueComparator` twice in a row anywhere in a
      chain has the same effect as calling it once. */
  lemma DefaultIdempotent<V>(s: State<V>, before: seq<Call<V>>, after: seq<Call<V>>, o: Oracle<V>)
    ensures Run(s, before + [UsingDefaultValueComparator, UsingDefaultValueComparator] + after, o)
         == Run(s, before + [UsingDefaultValueComparator] + after, o)
  {
    var d: Call<V> := UsingDefaultValueComparator;
    assert before + [d, d] + after == before + ([d] + ([d] + after));
    assert before + [d] + after == before + ([d] + after);
    RunAppend(s, before, [d] + ([d] + after), o);
    RunAppend(s, before, [d] + after, o);
    var rb := Run(s, before, o);
    if rb.outcome.Ok? {
      DefaultRestoresInitial(rb.state, [d] + after, o);
      DefaultRestoresInitial(Initial(rb.state.actual), after, o);
      DefaultRestoresInitial(rb.state, after, o);
    }
  }

  /** `usingFieldByFieldValueComparator()` is `usingValueComparator` with a
      new field-by-field comparator. */
  lemma FieldByFieldIsValueComparator<V>(s: State<V>, o: Oracle<V>)
    ensures Step(s, UsingFieldByFieldValueComparator, o) == Step(s, UsingValueComparator(Some(FieldByFieldComparator)), o)
    ensures Step(s, UsingFieldByFieldValueComparator, o) == Reply(Ok, s.(strategy := ComparatorBased(FieldByFieldComparator)))
  {
  }

  /** `usingValueComparator(null)` throws whatever the state, and leaves it as it was. */
  lemma NullComparatorRejected<V>(s: State<V>, o: Oracle<V>)
    ensures Step(s, UsingValueComparator(None), o) == Reply(NullPointer, s)
  {
  }

  /** A check run after a setter sees the new strategy and the unchanged
      actual value: swapping the strategy affects only later checks. */
  lemma ContainsAfterSwap<V>(s: State<V>, cmp: Comparator, e: Option<V>, o: Oracle<V>)
    ensures Run(s, [UsingValueComparator(Some(cmp)), Contains(e)], o).outcome
         == OptionalChecks.Contains(s.actual, ComparatorBased(cmp), e, o.areEqual)
  {
    var calls: seq<Call<V>> := [UsingValueComparator(Some(cmp)), Contains(e)];
    var swapped := State(s.actual, ComparatorBased(cmp));
    assert Step(s, calls[0], o) == Reply(Ok, swapped);
    assert calls[1..] == [Contains(e)];
    assert Run(swapped, [Contains(e)], o) == Step(swapped, Contains(e), o);
  }

  /** `containsSame` gives the same outcome whatever strategy is installed. */
  lemma ContainsSameIgnoresStrategy<V>(actual: Option<Option<V>>, s1: Strategy, s2: Strategy, e: Option<V>, o: Oracle<V>)
    ensures Step(State(actual, s1), ContainsSame(e), o).outcome == Step(State(actual, s2), ContainsSame(e), o).outcome
  {
  }

  /** One call made on an assertion object does what `Step` says: the
      outcome and the object's new state are those of `Step` applied to the
      object's state before the call. */
  method Apply<V(==)>(a: OptionalAssert<V>, c: Call<V>, o: Oracle<V>) returns (r: Outcome<V>)
    modifies a
    ensures Reply(r, State(a.actual, a.strategy)) == Step(State(a.actual, old(a.strategy)), c, o)
  {
    match c
    case IsPresent => r := a.IsPresent();
    case IsEmpty => r := a.IsEmpty();
    case Contains(e) => r := a.Contains(e, o.areEqual);
    case HasValue(e) => r := a.HasValue(e, o.areEqual);
    case ContainsInstanceOf(k) => r := a.ContainsInstanceOf(k, o.isInstance);
    case ContainsSame(e) => r := a.ContainsSame(e);
    case UsingFieldByFieldValueComparator => r := a.UsingFieldByFieldValueComparator();
    case UsingValueComparator(cmp) => r := a.UsingValueComparator(cmp);
    case UsingDefaultValueComparator => r := a.UsingDefaultValueComparator();
  }
}
