/** The `JsonReportPlugin` nose plugin as a state machine: `startTest`
    stamps the start of a test, and each outcome hook bumps one counter and
    appends one record; `report` completes the statistics and yields the
    document the plugin writes.

    Clock reads are parameters: `timerNow`/`now` are `time()` readings, a
    `Stamp` is the pair `_get_tsc_timestamp()` returns at that moment. */
module Plugin {
  import opened Wrappers
  import opened TestIds
  import opened TestObjects
  import opened Outcomes

  /** How a hook call ends: it returns, or Python raises `AttributeError`
      for an attribute that was never set on the plugin. */
  datatype HookResult = Returned | AttributeError(attribute: string)

  /** `_get_time_taken()` given the `_timer` attribute and the current
      `time()` reading: `0` when the attribute was never set, otherwise the
      time elapsed since it was. */
  function TimeTaken(timer: Option<int>, now: int): (taken: int)
    ensures timer.None? ==> taken == 0
    ensures timer.Some? ==> taken + timer.value == now
  {
    match timer
    case None => 0
    case Some(t) => now - t
  }

  /** The record an outcome hook appends, from the keys the three hooks share. */
  function NewRecord(test: NoseTest, taken: int, kind: Kind, error: Option<ErrorFields>,
                     start: Stamp, end: Stamp, details: Option<PyValue>): (r: Record)
    requires test.test.Some?
    ensures r.classname == ClassName(test.id) && r.name == TestName(test.id)
    ensures r.id == ExternalId(test) && r.time == taken && r.kind == kind
    ensures r.error == error && r.start == start && r.end == end && r.details == details
  {
    Record(ClassName(test.id), TestName(test.id), ExternalId(test), taken,
           kind, error, start, end, details)
  }

  /** How building the record dict of an outcome hook ends. Its `'id'` key
      calls `external_id`, which reads `test.test` without a guard, and its
      `'start'` key, later in the dict, reads `self._tsc_start`; either read
      raises `AttributeError` when the attribute is missing. */
  function BuildOutcome(test: NoseTest, tscStart: Option<Stamp>): (outcome: HookResult)
    ensures outcome == Returned <==> test.test.Some? && tscStart.Some?
    ensures test.test.None? ==> outcome == AttributeError("test")
    ensures test.test.Some? && tscStart.None? ==> outcome == AttributeError("_tsc_start")
  {
    if test.test.None? then AttributeError("test")
    else if tscStart.None? then AttributeError("_tsc_start")
    else Returned
  }

  class JsonReportPlugin {
    /** The foreign helpers the plugin imports from nose and `traceback`. */
    const helpers: NoseHelpers
    /** `self.stats` */
    var stats: Stats
    /** `self.results`, in the order the hooks appended them. */
    var results: seq<Record>
    /** `self._timer`; `None` while the attribute does not exist. */
    var timer: Option<int>
    /** `self._tsc_start`; `None` while the attribute does not exist. */
    var tscStart: Option<Stamp>

    /** `startTest` is the only writer of both timing attributes and sets
        them together, so they exist together. */
    ghost predicate Valid()
      reads this
    {
      timer.Some? <==> tscStart.Some?
    }

    /** Each counter equals the number of records of its kind. */
    ghost predicate Consistent()
      reads this
    {
      CountersMatch(stats, results)
    }

    /** A fresh plugin instance after `configure` on an enabled plugin: zero
        counters, no records, and no timing attributes yet. */
    constructor Configure(helpers: NoseHelpers)
      ensures Valid() && Consistent()
      ensures this.helpers == helpers
      ensures stats == InitialStats && results == []
      ensures timer == None && tscStart == None
    {
      this.helpers := helpers;
      stats := InitialStats;
      results := [];
      timer := None;
      tscStart := None;
    }

    /** `startTest`: overwrites `_timer` and `_tsc_start`; nothing else changes. */
    method StartTest(test: NoseTest, timerNow: int, start: Stamp)
      modifies this`timer, this`tscStart
      ensures Valid()
      ensures timer == Some(timerNow) && tscStart == Some(start)
    {
      timer := Some(timerNow);
      tscStart := Some(start);
    }

    /** `addError`: a `SkipTest` subclass bumps `skipped`, anything else
        `errors`; then the record is appended. Without `test.test` or a prior
        `startTest` the counter is bumped and building the record raises. */
    method AddError(test: NoseTest, err: ErrInfo, now: int, end: Stamp) returns (outcome: HookResult)
      requires Valid()
      modifies this`stats, this`results
      ensures Valid()
      ensures stats == if ErrorHookKind(helpers, err) == Skipped
                       then old(stats).(skipped := old(stats).skipped + 1)
                       else old(stats).(errors := old(stats).errors + 1)
      ensures outcome == BuildOutcome(test, old(tscStart))
      ensures outcome != Returned ==> results == old(results)
      ensures outcome == Returned ==>
        results == old(results) + [NewRecord(test, TimeTaken(old(timer), now), ErrorHookKind(helpers, err),
                                             Some(ErrorFieldsOf(helpers, err)), old(tscStart).value, end, None)]
      ensures outcome == Returned ==> results[|results| - 1].time == now - old(timer).value
      ensures outcome == Returned && old(Consistent()) ==> Consistent()
    {
      var taken := TimeTaken(timer, now);
      var kind := ErrorHookKind(helpers, err);
      if kind == Skipped {
        stats := stats.(skipped := stats.skipped + 1);
      } else {
        stats := stats.(errors := stats.errors + 1);
      }
      outcome := BuildOutcome(test, tscStart);
      if outcome != Returned {
        return;
      }
      var r := NewRecord(test, taken, kind, Some(ErrorFieldsOf(helpers, err)), tscStart.value, end, None);
      if old(Consistent()) {
        AppendKeepsCounts(stats, results, r);
      }
      results := results + [r];
    }

    /** `addFailure`: bumps `failures` and appends a `failure` record. Without
        `test.test` or a prior `startTest` the counter is bumped and building
        the record raises. */
    method AddFailure(test: NoseTest, err: ErrInfo, now: int, end: Stamp) returns (outcome: HookResult)
      requires Valid()
      modifies this`stats, this`results
      ensures Valid()
      ensures stats == old(stats).(failures := old(stats).failures + 1)
      ensures outcome == BuildOutcome(test, old(tscStart))
      ensures outcome != Returned ==> results == old(results)
      ensures outcome == Returned ==>
        results == old(results) + [NewRecord(test, TimeTaken(old(timer), now), Failure,
                                             Some(ErrorFieldsOf(helpers, err)), old(tscStart).value, end, None)]
      ensures outcome == Returned ==> results[|results| - 1].time == now - old(timer).value
      ensures outcome == Returned && old(Consistent()) ==> Consistent()
    {
      var taken := TimeTaken(timer, now);
      stats := stats.(failures := stats.failures + 1);
      outcome := BuildOutcome(test, tscStart);
      if outcome != Returned {
        return;
      }
      var r := NewRecord(test, taken, Failure, Some(ErrorFieldsOf(helpers, err)), tscStart.value, end, None);
      if old(Consistent()) {
        AppendKeepsCounts(stats, results, r);
      }
      results := results + [r];
    }

    /** `addSuccess`: bumps `passes` and appends a `success` record without
        error keys, with `details` when the lookup finds them. Without
        `test.test` or a prior `startTest` the counter is bumped and building
        the record raises. */
    method AddSuccess(test: NoseTest, now: int, end: Stamp) returns (outcome: HookResult)
      requires Valid()
      modifies this`stats, this`results
      ensures Valid()
      ensures stats == old(stats).(passes := old(stats).passes + 1)
      ensures outcome == BuildOutcome(test, old(tscStart))
      ensures outcome != Returned ==> results == old(results)
      ensures outcome == Returned ==>
        results == old(results) + [NewRecord(test, TimeTaken(old(timer), now), Success,
                                             None, old(tscStart).value, end, DetailsKey(test))]
      ensures outcome == Returned ==> results[|results| - 1].time == now - old(timer).value
      ensures outcome == Returned && old(Consistent()) ==> Consistent()
    {
      var taken := TimeTaken(timer, now);
      stats := stats.(passes := stats.passes + 1);
      outcome := BuildOutcome(test, tscStart);
      if outcome != Returned {
        return;
      }
      var r := NewRecord(test, taken, Success, None, tscStart.value, end, None);
      var details := Details(test);
      if details != PyNone {
        r := r.(details := Some(details));
      }
      if old(Consistent()) {
        AppendKeepsCounts(stats, results, r);
      }
      results := results + [r];
    }

    /** `report`: sets `encoding` and `total` in `stats` and yields the
        document written to the report file. */
    method Report() returns (doc: ReportDoc)
      modifies this`stats
      ensures stats == Finalized(old(stats))
      ensures doc == ReportDoc(stats, results)
      ensures old(Consistent()) ==> Consistent() && stats.total == Some(|results|)
    {
      if Consistent() {
        TotalCountsRecords(stats, results);
      }
      stats := stats.(encoding := Some(Encoding),
                      total := Some(stats.errors + stats.failures + stats.passes + stats.skipped));
      doc := ReportDoc(stats, results);
    }
  }

  /** A run of three tests, a success taking 10 ticks, a failure and a skip,
      each wrapping a test case and started before its outcome: three records in that order and
      statistics 0 errors, 1 failure, 1 pass, 1 skip, total 3. */
  method ThreeTestRun(h: NoseHelpers, passing: NoseTest, failing: NoseTest, skipping: NoseTest,
                      assertion: ErrInfo, skip: ErrInfo, clock: int, tsc: nat)
    returns (doc: ReportDoc)
    requires IsSubclass(skip.excType, h.skipTest)
    requires passing.test.Some? && failing.test.Some? && skipping.test.Some?
    ensures doc.stats == Stats(0, 1, 1, 1, Some(Encoding), Some(3))
    ensures |doc.results| == 3
    ensures doc.results[0].kind == Success && doc.results[0].time == 10
    ensures doc.results[0].id == ExternalId(passing) && doc.results[0].error == None
    ensures doc.results[1].kind == Failure && doc.results[1].name == TestName(failing.id)
    ensures doc.results[2].kind == Skipped && doc.results[2].classname == ClassName(skipping.id)
  {
    var p := new JsonReportPlugin.Configure(h);
    p.StartTest(passing, clock, Stamp(clock, tsc));
    var _ := p.AddSuccess(passing, clock + 10, Stamp(clock + 10, tsc + 1));
    assert |p.results| == 1 && p.results[0].kind == Success && p.results[0].time == 10;
    assert p.results[0].id == ExternalId(passing) && p.results[0].error == None;
    assert p.stats == Stats(0, 0, 1, 0, None, None);
    p.StartTest(failing, clock + 20, Stamp(clock + 20, tsc + 2));
    var _ := p.AddFailure(failing, assertion, clock + 30, Stamp(clock + 30, tsc + 3));
    assert |p.results| == 2 && p.results[1].kind == Failure && p.results[1].name == TestName(failing.id);
    assert p.stats == Stats(0, 1, 1, 0, None, None);
    p.StartTest(skipping, clock + 40, Stamp(clock + 40, tsc + 4));
    var _ := p.AddError(skipping, skip, clock + 40, Stamp(clock + 40, tsc + 5));
    assert |p.results| == 3 && p.results[2].kind == Skipped && p.results[2].classname == ClassName(skipping.id);
    assert p.stats == Stats(0, 1, 1, 1, None, None);
    doc := p.Report();
  }
}
