# nose-json result aggregator in Dafny

A model of `JsonReportPlugin`, the nose plugin that turns test-lifecycle
events into one JSON report. The plugin stamps the start of each test
(`startTest`). Each outcome hook (`addError`, `addFailure`, `addSuccess`)
bumps one of four counters (`errors`, `failures`, `passes`, `skipped`) and
appends one record to `results`. `report` adds `encoding` and `total` to the
statistics and serializes `{stats, results}`.

Modules:

- `Wrappers`: the `Option` datatype. It stands for an attribute `hasattr`
  would not find, or for a key that is not in a record.
- `TestIds`: how a dotted test id becomes a record's `classname` and `name`.
  It models Python's `rsplit('.', 1)` and `':'.join(...)`.
- `TestObjects`: the nested test-wrapper shapes, the `external_id` lookup and
  the `details` lookup.
- `Outcomes`: exception classes and `issubclass`, the four outcome kinds,
  records, per-kind counts, and the statistics as completed by `report`.
- `Plugin`: the class `JsonReportPlugin`, whose methods update `stats`,
  `results`, `_timer` and `_tsc_start` in place. It also holds a three-test
  example run.

Clock reads are parameters. `time()` readings are integers (abstract ticks).
The `(time(), rdtsc())` pair of `_get_tsc_timestamp` is a `Stamp` argument.
nose's `SkipTest`, `nice_classname` and `exc_message`, and
`traceback.format_exception`, are the fields of a `NoseHelpers` value. That
value is given to the plugin when it is created, so the model treats them as
uninterpreted functions.

Behaviours of the code the model keeps:

- An outcome hook that runs before any `startTest` does not produce a record
  with time `0`. Each hook bumps its counter first and then reads
  `self._tsc_start`, which has no fallback, so Python raises
  `AttributeError`. The model returns `AttributeError("_tsc_start")`, keeps
  the counter it bumped and appends nothing. From then on `total` exceeds the
  number of records. The `0` fallback of `_get_time_taken` therefore never
  reaches a record. A hook that does append always measures from the most
  recent `startTest`.
- `_timer` is never cleared, only overwritten by the next `startTest`. It is
  not per-test state.
- The external id is read two levels down, at `test.test.test.test_id`.
- `test.test` is read without a guard when the record's `id` key is built,
  which comes before the `start` key. A test object without a `test`
  attribute therefore also ends the hook in `AttributeError` after the
  counter bump, even after a `startTest`. The model returns
  `AttributeError("test")` in that case.
- An id without any dot gives that whole id as both `classname` and `name`.

## Model

| member | source | states |
|---|---|---|
| `Plugin.JsonReportPlugin.Configure` | nose_json/plugin.py:55-61 | after `configure`, all four counters are 0, `results` is empty, and neither timing attribute exists; the counters agree with the (empty) records |
| `Plugin.JsonReportPlugin.StartTest` | nose_json/plugin.py:84-86 | `_timer` and `_tsc_start` are overwritten with this call's readings; counters and records are unchanged |
| `Plugin.JsonReportPlugin.AddError` | nose_json/plugin.py:94-116 | bumps `skipped` if the exception class is a `SkipTest` subclass, otherwise `errors`; no other counter changes; appends exactly one record last, of kind skipped/error accordingly, with the error keys, the latest start stamp and time measured from the latest `startTest`; when `test.test` is missing or no `startTest` has run, the counter is still bumped, nothing is appended and `AttributeError` results; keeps counters equal to per-kind record counts |
| `Plugin.JsonReportPlugin.AddFailure` | nose_json/plugin.py:118-134 | bumps only `failures` and appends one `failure` record last, with the error keys and timing as for `addError`; same `AttributeError` paths; keeps counters equal to record counts |
| `Plugin.JsonReportPlugin.AddSuccess` | nose_json/plugin.py:136-163 | bumps only `passes` and appends one `success` record last, without error keys, carrying `details` exactly when the lookup found a non-None value; same `AttributeError` paths; keeps counters equal to record counts |
| `Plugin.JsonReportPlugin.Report` | nose_json/plugin.py:71-82 | sets `encoding` to UTF-8 and `total` to the sum of the counters, returns `{stats, results}`; when the counters agree with the records, `total` equals the number of records |
| `Outcomes.AppendKeepsCounts` | nose_json/plugin.py:97-105 | bumping the counter of a record's kind and appending that record keeps every counter equal to the number of records of its kind |
| `Plugin.TimeTaken` | nose_json/plugin.py:24-32 | the contract is the definition: 0 when `_timer` was never set on the instance; otherwise the reading minus the `_timer` of the most recent `startTest` |
| `Plugin.ThreeTestRun` | nose_json/plugin.py:71-163 | a run of one success taking 10 ticks, one failure and one skip yields three records in that order and stats errors 0, failures 1, passes 1, skipped 1, total 3 |
| `TestIds.LastIndexOf` | nose_json/plugin.py:106 | the position of the dot `rsplit` splits at lies inside the string |
| `TestIds.LastIndexOfFinds` | nose_json/plugin.py:106 | the position found holds the character and no later position does; nothing is found exactly when the character does not occur |
| `TestIds.RSplitDot` | nose_json/plugin.py:106 | `rsplit('.', 1)` yields one or two parts |
| `TestIds.RSplitDotParts` | nose_json/plugin.py:106 | two parts exactly when the string has a dot, the right part has no dot, and joining the parts with a dot gives the string back |
| `TestIds.JoinTwo` | nose_json/plugin.py:106 | `':'.join` of two parts puts one separator between them |
| `TestIds.IdSplit` | nose_json/plugin.py:106-107 | `id_split` yields one or two parts |
| `TestIds.RSplitDotUnique` | nose_json/plugin.py:106 | the last-dot split is the only split whose right part has no dot |
| `TestIds.ClassNameReplacesLastDot` | nose_json/plugin.py:106-107 | `classname` is the id prefix with its last dot replaced by a colon, or the prefix unchanged when it has no dot; `name` has no dot, and a dotted id is prefix + "." + name |
| `TestIds.ClassName` | nose_json/plugin.py:106 | the classname has the length of the id prefix (the last dot, if any, replaced; none added or dropped); `ClassNameReplacesLastDot` gives it position by position |
| `TestIds.TestName` | nose_json/plugin.py:107 | the name is the dot-free last component, no longer than the id |
| `TestIds.JoinWith` | nose_json/plugin.py:106 | `sep.join`: empty for no parts, the part itself for one, and the first part is always a prefix of the result |
| `Plugin.BuildOutcome` | nose_json/plugin.py:105-116 | building the record dict succeeds exactly when `test.test` exists and `_tsc_start` has been set; a missing `test.test` raises first (`'id'` key, plugin.py:108, 126, 144), otherwise a missing `_tsc_start` raises (plugin.py:114, 132, 147) |
| `Plugin.NewRecord` | nose_json/plugin.py:105-116 | the contract is the definition: a record's keys are the derived classname and name, the external id, the elapsed time, the kind, the error keys, the start and end stamps and the optional details, as the record dicts at plugin.py:105-116, 123-134 and 141-149 build them |
| `Outcomes.IsSubclass` | nose_json/plugin.py:97 | `issubclass` is reflexive, and a class other than the ancestor is a subclass of it only if it has at least one base class |
| `Outcomes.Concat` | nose_json/plugin.py:103 | `''.join`: empty for no parts, and no part is longer than the result |
| `TestIds.DottedIdParts` | nose_json/plugin.py:106-107 | `pkg.Class.test` gives classname `pkg:Class` and name `test` |
| `TestIds.SingleDotId` | nose_json/plugin.py:106-107 | `Class.test` gives classname `Class` unchanged and name `test` |
| `TestIds.UndottedId` | nose_json/plugin.py:106-107 | an id without a dot is both the classname and the name |
| `TestObjects.ExternalId` | nose_json/plugin.py:88-92 | for a test with `test.test` (its absence raises, see `Plugin.BuildOutcome`): `test.test.test.test_id` when `test.test.test` and its `test_id` exist, `None` when either is missing |
| `TestObjects.Details` | nose_json/plugin.py:151-158 | for a test with `test.test`: `test.test.details` when present and not None, otherwise `test.test.test.details` when present, otherwise None; a non-None result comes from one of the two |
| `TestObjects.DetailsKey` | nose_json/plugin.py:160-161 | the contract is the definition: the `details` key is present exactly when the lookup found a non-None value, and then holds it |
| `Outcomes.ErrorHookKind` | nose_json/plugin.py:97-102 | the contract is the definition: `addError` classifies as skipped iff the exception class is a `SkipTest` subclass, and as error otherwise |
| `Outcomes.SubclassTransitive` | nose_json/plugin.py:97 | `issubclass` over declared bases is transitive |
| `Outcomes.IndirectSkipIsSkipped` | nose_json/plugin.py:97-99 | an exception derived through any chain of bases from `SkipTest` is classified skipped |
| `Outcomes.ErrorFieldsOf` | nose_json/plugin.py:103-113 | the contract is the definition, plumbing to the uninterpreted helpers: `errtype` is `nice_classname` of the class, `message` is `exc_message`, `tb` is the concatenated formatted traceback |
| `Outcomes.CountAppend` | nose_json/plugin.py:105 | appending one record adds one to the count of its own kind and leaves the other counts unchanged |
| `Outcomes.CountsSum` | nose_json/plugin.py:72-74 | the four per-kind counts add up to the number of records |
| `Outcomes.Finalized` | nose_json/plugin.py:72-74 | `report` keeps the four counters, sets `encoding` to UTF-8 and sets `total` to errors + failures + passes + skipped |
| `Outcomes.TotalCountsRecords` | nose_json/plugin.py:72-74 | when the counters agree with the records, `total` is the number of records and each counter is the number of records of its kind |
| `Outcomes.FinalizedIdempotent` | nose_json/plugin.py:72-74 | `total` is recomputed from the counters only, so a second `report` gives the same statistics |

## Left out

- `options` (nose_json/plugin.py:39-47): command-line and environment plumbing for the output path.
- Directory creation in `configure` and the file write in `report` (nose_json/plugin.py:63-67, 76-82): filesystem I/O, `codecs` replacement of unencodable characters, and the `simplejson` serializer. `report` is modelled as returning the `{stats, results}` value.
- `configure` on a disabled plugin, a second `configure` on the same instance, the `Plugin` base class, and the `name`/`score` attributes: framework glue. The constructor stands for instance creation followed by `configure` on an enabled plugin.
- `time()` and `rdtsc()`: clock values are integer parameters. Float seconds and the 64-bit width of the cycle counter are not modelled.
- `TestIds.IdSplit`: models only nose's plain branch of `id_split` (the last-dot split of the id). The branch for generator tests, whose ids end in a parenthesised argument list, is not part of this model.
- `nice_classname`, `exc_message` and `traceback.format_exception`: foreign code, kept uninterpreted as fields of `NoseHelpers`.
- `Outcomes.IsSubclass`: covers declared base classes only. Virtual subclasses, `__subclasscheck__`, and an `err[0]` that is not a class are not modelled.
- The `capt` and `tb_info` arguments of the hooks: the source ignores them.
- `test.id()`: modelled as a stored string rather than a method call.
