/** The shapes of the test object nose hands to every hook, and the two
    lookups the plugin does on them: the external id and the `details`.

    Attribute presence is explicit: an attribute that `hasattr` would not
    find is `None`, and a present attribute holds a Python value, which may
    itself be Python's `None` (`PyNone`). */
module TestObjects {
  import opened Wrappers

  /** A Python value as the report stores it; `PyObj` stands for any value
      other than `None` (a string, a number, a mapping of details). */
  datatype PyValue = PyNone | PyObj(payload: string)

  /** `test.test.test`: the innermost object of a function-based test. */
  datatype InnerTest = InnerTest(testId: Option<PyValue>, details: Option<PyValue>)

  /** `test.test`: the wrapped case, which may carry `details` itself and may
      wrap one more object in its own `test` attribute. */
  datatype TestCase = TestCase(details: Option<PyValue>, test: Option<InnerTest>)

  /** nose's test wrapper: `test.id()` and the `test.test` attribute, which
      the plugin reads without a `hasattr` guard. */
  datatype NoseTest = NoseTest(id: string, test: Option<TestCase>)

  /** `external_id(test)`: `getattr(test.test.test, 'test_id', None)` when
      `test.test` has a `test` attribute, and `None` otherwise. Reading
      `test.test` itself raises when it is missing, so the hooks check that
      before they build a record. */
  function ExternalId(t: NoseTest): (r: PyValue)
    requires t.test.Some?
    ensures var c := t.test.value;
      r != PyNone ==> c.test.Some? && c.test.value.testId == Some(r)
    ensures var c := t.test.value;
      c.test.None? ==> r == PyNone
    ensures var c := t.test.value;
      c.test.Some? ==> r == c.test.value.testId.GetOr(PyNone)
  {
    match t.test.value.test
    case None => PyNone
    case Some(inner) => inner.testId.GetOr(PyNone)
  }

  /** The `details` lookup of `addSuccess`: `test.test.details` first; when
      that is missing or `None`, `test.test.test.details`; otherwise `None`. */
  function Details(t: NoseTest): (r: PyValue)
    requires t.test.Some?
    ensures var c := t.test.value;
      c.details.Some? && c.details.value != PyNone ==> r == c.details.value
    ensures var c := t.test.value;
      (c.details.None? || c.details == Some(PyNone)) ==>
        r == (if c.test.Some? then c.test.value.details.GetOr(PyNone) else PyNone)
    ensures var c := t.test.value;
      r != PyNone ==> c.details == Some(r) || (c.test.Some? && c.test.value.details == Some(r))
  {
    var c := t.test.value;
    var outer := c.details.GetOr(PyNone);
    if outer != PyNone then outer
    else if c.test.Some? && c.test.value.details.Some? then c.test.value.details.value
    else PyNone
  }

  /** The `details` key of a success record: present exactly when the lookup
      found a value other than `None`. */
  function DetailsKey(t: NoseTest): (key: Option<PyValue>)
    requires t.test.Some?
    ensures key.Some? <==> Details(t) != PyNone
    ensures key.Some? ==> key.value == Details(t) && key.value != PyNone
  {
    var d := Details(t);
    if d != PyNone then Some(d) else None
  }
}
