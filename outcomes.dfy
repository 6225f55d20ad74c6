/** The outcome classifier and the record and statistics values of the
    report: exception classes and `issubclass`, the four outcome kinds, the
    record appended per outcome, the counters, and how `report` completes
    them with `encoding` and `total`. */
module Outcomes {
  import opened Wrappers
  import TestObjects

  /** A Python exception class with its direct base classes. */
  datatype ExcClass = ExcClass(moduleName: string, name: string, bases: seq<ExcClass>)

  /** Python's `issubclass(c, ancestor)` over declared bases. */
  predicate IsSubclass(c: ExcClass, ancestor: ExcClass): (r: bool)
    ensures c == ancestor ==> r
    ensures r && c != ancestor ==> |c.bases| > 0
    decreases c
  {
    c == ancestor || exists i :: 0 <= i < |c.bases| && IsSubclass(c.bases[i], ancestor)
  }

  /** A subclass of a subclass is a subclass. */
  lemma {:induction false} SubclassTransitive(a: ExcClass, b: ExcClass, c: ExcClass)
    requires IsSubclass(a, b) && IsSubclass(b, c)
    ensures IsSubclass(a, c)
    decreases a
  {
    if a != b {
      var i :| 0 <= i < |a.bases| && IsSubclass(a.bases[i], b);
      SubclassTransitive(a.bases[i], b, c);
    }
  }

  /** The captured `err` triple: exception class, exception value, traceback. */
  datatype ErrInfo = ErrInfo(excType: ExcClass, value: TestObjects.PyValue, traceback: seq<string>)

  /** The foreign code the plugin calls: nose's `SkipTest` class, nose's
      `nice_classname` and `exc_message`, and `traceback.format_exception`. */
  datatype NoseHelpers = NoseHelpers(
    skipTest: ExcClass,
    niceClassname: ExcClass -> string,
    excMessage: ErrInfo -> string,
    formatException: ErrInfo -> seq<string>)

  /** The four values of a record's `type` key. */
  datatype Kind = Error | Failure | Skipped | Success {
    /** The text written for this kind in the report. */
    function Label(): string
    {
      match this
      case Error => "error"
      case Failure => "failure"
      case Skipped => "skipped"
      case Success => "success"
    }
  }

  /** How `addError` classifies: a `SkipTest` subclass is a skip, anything
      else an error; failures and successes come only from their own hooks. */
  function ErrorHookKind(h: NoseHelpers, err: ErrInfo): (k: Kind)
    ensures k == Skipped <==> IsSubclass(err.excType, h.skipTest)
    ensures k == Error <==> !IsSubclass(err.excType, h.skipTest)
  {
    if IsSubclass(err.excType, h.skipTest) then Skipped else Error
  }

  /** An exception derived from a class that derives from `SkipTest` is
      still classified as a skip by `addError`. */
  lemma IndirectSkipIsSkipped(h: NoseHelpers, err: ErrInfo, via: ExcClass)
    requires IsSubclass(err.excType, via) && IsSubclass(via, h.skipTest)
    ensures ErrorHookKind(h, err) == Skipped
  {
    SubclassTransitive(err.excType, via, h.skipTest);
  }

  /** Python's `''.join(parts)`. */
  function Concat(parts: seq<string>): (s: string)
    ensures parts == [] ==> s == ""
    ensures forall i :: 0 <= i < |parts| ==> |parts[i]| <= |s|
  {
    if parts == [] then "" else parts[0] + Concat(parts[1..])
  }

  /** The `errtype`, `message` and `tb` keys of an error, skip or failure record. */
  datatype ErrorFields = ErrorFields(errtype: string, message: string, tb: string)

  /** The three keys computed from `err` by `addError` and `addFailure`. */
  function ErrorFieldsOf(h: NoseHelpers, err: ErrInfo): (f: ErrorFields)
    ensures f.errtype == h.niceClassname(err.excType)
    ensures f.message == h.excMessage(err)
    ensures f.tb == Concat(h.formatException(err))
  {
    ErrorFields(h.niceClassname(err.excType), h.excMessage(err), Concat(h.formatException(err)))
  }

  /** A `(time(), rdtsc())` pair: wall-clock time and the cycle counter. */
  datatype Stamp = Stamp(wall: int, tsc: nat)

  /** One entry of `results`. `error` holds the `errtype`/`message`/`tb` keys
      and is `None` for a success; `details` is `None` when the key is absent. */
  datatype Record = Record(
    classname: string,
    name: string,
    id: TestObjects.PyValue,
    time: int,
    kind: Kind,
    error: Option<ErrorFields>,
    start: Stamp,
    end: Stamp,
    details: Option<TestObjects.PyValue>)

  /** The number of records of kind `k`. */
  function Count(rs: seq<Record>, k: Kind): nat
  {
    if rs == [] then 0 else (if rs[0].kind == k then 1 else 0) + Count(rs[1..], k)
  }

  /** Appending one record adds one to the count of its own kind only. */
  lemma {:induction false} CountAppend(rs: seq<Record>, r: Record, k: Kind)
    ensures Count(rs + [r], k) == Count(rs, k) + (if r.kind == k then 1 else 0)
  {
    if rs != [] {
      assert (rs + [r])[1..] == rs[1..] + [r];
      CountAppend(rs[1..], r, k);
    }
  }

  /** Appending `r` keeps the counters in step with the records, given that
      the counter of `r`'s kind was bumped just before. */
  lemma AppendKeepsCounts(s: Stats, rs: seq<Record>, r: Record)
    requires s.errors == Count(rs, Error) + (if r.kind == Error then 1 else 0)
    requires s.failures == Count(rs, Failure) + (if r.kind == Failure then 1 else 0)
    requires s.passes == Count(rs, Success) + (if r.kind == Success then 1 else 0)
    requires s.skipped == Count(rs, Skipped) + (if r.kind == Skipped then 1 else 0)
    ensures CountersMatch(s, rs + [r])
  {
    CountAppend(rs, r, Error);
    CountAppend(rs, r, Failure);
    CountAppend(rs, r, Success);
    CountAppend(rs, r, Skipped);
  }

  /** Every record is of exactly one kind, so the four counts add up to the
      number of records. */
  lemma {:induction false} CountsSum(rs: seq<Record>)
    ensures Count(rs, Error) + Count(rs, Failure) + Count(rs, Skipped) + Count(rs, Success) == |rs|
  {
    if rs != [] {
      CountsSum(rs[1..]);
    }
  }

  /** The `stats` dictionary: the four counters, and the `encoding` and
      `total` keys that only `report` adds. */
  datatype Stats = Stats(
    errors: int,
    failures: int,
    passes: int,
    skipped: int,
    encoding: Option<string>,
    total: Option<int>)

  /** The class attribute `encoding`. */
  const Encoding: string := "UTF-8"

  /** The dictionary `configure` installs: four zero counters and nothing else. */
  const InitialStats: Stats := Stats(0, 0, 0, 0, None, None)

  /** The counters agree with the records: each equals the number of records
      of its kind. */
  ghost predicate CountersMatch(s: Stats, rs: seq<Record>)
  {
    && s.errors == Count(rs, Error)
    && s.failures == Count(rs, Failure)
    && s.passes == Count(rs, Success)
    && s.skipped == Count(rs, Skipped)
  }

  /** `stats` after `report` has set `encoding` and `total`. */
  function Finalized(s: Stats): (r: Stats)
    ensures r.errors == s.errors && r.failures == s.failures
    ensures r.passes == s.passes && r.skipped == s.skipped
    ensures r.encoding == Some(Encoding)
    ensures r.total == Some(s.errors + s.failures + s.passes + s.skipped)
  {
    s.(encoding := Some(Encoding), total := Some(s.errors + s.failures + s.passes + s.skipped))
  }

  /** When the counters agree with the records, `total` is the number of
      records and every counter is the number of records of its kind. */
  lemma TotalCountsRecords(s: Stats, rs: seq<Record>)
    requires CountersMatch(s, rs)
    ensures Finalized(s).total == Some(|rs|)
    ensures CountersMatch(Finalized(s), rs)
  {
    CountsSum(rs);
  }

  /** `total` is recomputed from the counters alone, so reporting twice gives
      the same statistics. */
  lemma FinalizedIdempotent(s: Stats)
    ensures Finalized(Finalized(s)) == Finalized(s)
  {
  }

  /** The value `report` serializes: `{'stats': ..., 'results': ...}`. */
  datatype ReportDoc = ReportDoc(stats: Stats, results: seq<Record>)
}
