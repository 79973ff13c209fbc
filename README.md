# gocheck call context, modelled in Dafny

This project models the per-test "call" context of the gocheck test helper
(`src/gochecktest.go`). A test body gets a context `T`. The context keeps a
status (running, failed or succeeded), an optional expected-failure reason and
a log buffer. The test body changes the context through the status calls
(`Fail`, `Succeed`, `FailNow`, `SucceedNow`, `ExpectFailure`), the logging
calls (`Log`, `Logf`, `Error`, `Errorf`, `Fatal`, `Fatalf`) and the
assertions (`CheckEqual`, `CheckNotEqual`, `AssertEqual`, `AssertNotEqual`,
`CheckErr`, `AssertErr`).

Files:

- `wrappers.dfy`: `Option`, used for Go's `*string` and for optional capabilities.
- `values.dfy` (module `GoValues`): interface values with a dynamic-type tag.
  It defines the type-identity test (`reflect.Typeof(a) == reflect.Typeof(b)`),
  native `==` (`FastEqual`, undefined for slices and for structs that hold
  them), `reflect.DeepEqual` (`DeepEqual`) and `checkEqual` (`ValuesEqual`):
  the fast comparison where it is defined, the deep one otherwise.
- `gocheck.dfy` (module `GoCheck`): log entries, the pure decision and
  log-block functions of the two assertion engines, the class `T` with fields
  `status`, `expectedFailure` and `logv`, and two client methods.

How the model stands in for the foreign pieces:

- `stopNow` is a non-local exit in the source. Here, every call that may stop
  the test body returns a `Flow` value (`Continue` or `Stop`).
- `testing.MatchString` is a function parameter of type `Matcher`.
- The `hasString` type assertion and the `String()` call are a function
  parameter of type `Stringer`.
- `fmt` formatting is not performed. A log entry records the arguments it
  would format (`Text`) and which log helper wrote it (`LogEntry`).

Where the code and its design description disagree, the model follows the code:

- Status is a last-write field: `Succeed` after `Fail` leaves the context not
  failed (`StatusIsLastWrite`). It is not "once failed, always failed".
- A failed pattern match does not log the caller's issue text.
- "Can't compile match expression" is logged only when the matcher reports a
  match together with a compile error. A matcher that answers "no match" on a
  compile error, as `testing.MatchString` does, gets a malformed expression
  reported as "Expected to match expression" (`CompileErrorReportedAsMismatch`).

Without pointers, maps, functions and floats among the values, deep equality
coincides with equality of values (`DeepEqualIsIdentity`). So `checkEqual`
decides value equality, and its fallback never changes a verdict: it only
removes the panic.

## Model

| member | source | states |
|---|---|---|
| `GoCheck.T.Failed` | src/gochecktest.go:19-21 | the result is true exactly when status is failed; nothing is modified |
| `GoCheck.T.Fail` | src/gochecktest.go:23-25 | status becomes failed; only status may change |
| `GoCheck.T.FailNow` | src/gochecktest.go:27-30 | status becomes failed, then the body is stopped |
| `GoCheck.T.Succeed` | src/gochecktest.go:32-34 | status becomes succeeded, overwriting an earlier failure |
| `GoCheck.T.SucceedNow` | src/gochecktest.go:36-39 | status becomes succeeded, then the body is stopped |
| `GoCheck.T.ExpectFailure` | src/gochecktest.go:41-43 | the reason is recorded; status and log are unchanged |
| `GoCheck.T.GetLog` | src/gochecktest.go:49-51 | returns the whole log buffer |
| `GoCheck.T.Log` | src/gochecktest.go:53-55 | appends one entry holding the arguments; status unchanged |
| `GoCheck.T.Logf` | src/gochecktest.go:57-59 | appends one entry holding the format and arguments; status unchanged |
| `GoCheck.T.Error` | src/gochecktest.go:61-64 | appends exactly one caller-located "Error: " entry (skip 1), fails, does not stop |
| `GoCheck.T.Errorf` | src/gochecktest.go:66-69 | as Error, with "Error: " prefixed to the format |
| `GoCheck.T.Fatal` | src/gochecktest.go:71-74 | as Error, and the body is stopped after status is set |
| `GoCheck.T.Fatalf` | src/gochecktest.go:76-79 | as Errorf with the prefix outside the formatted text, and the body is stopped |
| `GoCheck.T.CheckEqual` | src/gochecktest.go:85-89 | true iff obtained equals expected; on failure exactly the equality block with its summary is appended and status is failed; on success nothing changes |
| `GoCheck.T.CheckNotEqual` | src/gochecktest.go:91-95 | true iff the values differ; failure block uses the single "Both" line |
| `GoCheck.T.AssertEqual` | src/gochecktest.go:97-103 | stops the body iff the values differ, after logging the block and failing |
| `GoCheck.T.AssertNotEqual` | src/gochecktest.go:105-111 | stops the body iff the values are equal, after logging the block and failing |
| `GoCheck.T.InternalCheckEqual` | src/gochecktest.go:114-134 | result is `(sameType && checkEqual) == equal`; a pass changes nothing; a failure appends the block and sets status to failed |
| `GoCheck.T.ReportEqualFailure` | src/gochecktest.go:119-131 | appends caller summary (skip 2), Obtained then Expected or a single Both, issue text only if given, blank line; then fails |
| `GoCheck.EqualCheckDecision` | src/gochecktest.go:114-118 | an equality assertion holds iff equality of the values is the polarity asked for |
| `GoCheck.DifferentTypesNeverEqual` | src/gochecktest.go:116-118 | values of different dynamic types fail CheckEqual and pass CheckNotEqual |
| `GoCheck.NotEqualToItselfFails` | src/gochecktest.go:114-118 | CheckNotEqual(v, v) fails and CheckEqual(v, v) passes, for every value |
| `GoCheck.EqualCheckSymmetric` | src/gochecktest.go:116-118 | swapping obtained and expected does not change the verdict |
| `GoCheck.EqualFailureLogLayout` | src/gochecktest.go:119-129 | the failure block's length, order of entries, issue line present iff issue given, ending in a blank line |
| `GoValues.DeepEqualIsIdentity` | src/gochecktest.go:136-145 | deep structural equality holds exactly for equal values |
| `GoValues.FastAgreesWithDeep` | src/gochecktest.go:138-144 | wherever native `==` is defined, deep equality gives the same answer |
| `GoValues.ValuesEqualIsIdentity` | src/gochecktest.go:136-145 | checkEqual is total and holds exactly for equal values, fast path or fallback |
| `GoCheck.T.AssertErr` | src/gochecktest.go:151-162 | summary chosen by `expected == nil`; stops iff the error check fails |
| `GoCheck.T.CheckErr` | src/gochecktest.go:164-173 | summary chosen by `expected == nil`; result is the error check with equal fixed to true |
| `GoCheck.T.InternalCheckErr` | src/gochecktest.go:175-223 | string `b`: anchored match against the candidate text; otherwise the type-identity and equality rule; a pass changes nothing, a failure appends its block and fails |
| `GoCheck.T.ReportMatchFailure` | src/gochecktest.go:193-205 | mismatch logs the Error value then "Expected to match expression"; otherwise only "Can't compile match expression"; no issue text |
| `GoCheck.T.ReportErrFailure` | src/gochecktest.go:207-221 | logs Error, and Expected only for a non-nil `b`, then the issue text if given and a blank line |
| `GoCheck.PatternDecision` | src/gochecktest.go:180-193 | with a string `b`, passes iff a candidate exists and `^b$` matches it with no error; the polarity is ignored |
| `GoCheck.NoCandidateNeverMatches` | src/gochecktest.go:184-202 | a value that is neither string nor has String() fails, logging Error and "Expected to match expression" and no issue text |
| `GoCheck.CompileMessageOnlyWhenMatched` | src/gochecktest.go:193-202 | "Can't compile" appears iff the matcher reported a match and a non-empty error; the Error line appears iff it reported no match |
| `GoCheck.CompileErrorReportedAsMismatch` | src/gochecktest.go:191-202 | with a matcher that reports no match on a compile error, "Can't compile" is never logged |
| `GoCheck.NilExpectedDecision` | src/gochecktest.go:207-214 | with nil `expected` the check passes iff obtained is nil; its failure block has an Error line and no Expected line |
| `GoCheck.ValueExpectedDecision` | src/gochecktest.go:207 | with a non-string `expected` the check passes iff obtained equals expected |
| `GoCheck.StatusIsLastWrite` | src/gochecktest.go:19-43 | Fail twice leaves the context failed; Succeed after Fail makes Failed() false; ExpectFailure leaves the status alone |
| `GoCheck.LogKeepsOrder` | src/gochecktest.go:49-55 | two Log calls come back from GetLog in call order, neither dropped nor merged |

## Left out

- Pointers, maps, channels, function values, arrays, floats and complex numbers among the values. Because of this, the model has no NaN inequality and no address equality under `==`, and no cyclic structures, so deep equality needs no cycle guard.
- Go's exact rules for which shapes panic under `==`: slices, and structs holding one, stand for every uncomparable shape.
- Integer widths: an `IntVal` carries its kind as a type tag, but its number is not restricted to that kind's range.
- Nil slices versus empty slices: they are not distinguished.
- `reflect.DeepEqual` is modelled for the shapes above only.
- The regular-expression semantics of `testing.MatchString` and the bodies of `String()` methods: these are foreign code, passed in as functions.
- `fmt.Sprint`, `fmt.Sprintf` and `%#v` formatting, and rendering the log buffer to one string: `GetLog` returns the sequence of entries.
- The caller-location lookup behind `logCaller`: an entry records the frame count to skip, not a file and line.
- The `log`, `logf`, `logCaller`, `logValue`, `logString` and `logNewLine` helpers, the `call` struct and the status constants are not part of this model. The helpers are modelled as appends of tagged entries (`T.LogCaller`, `T.LogValue`, `T.LogString`, `T.LogNewLine`).
- `stopNow`'s unwinding: the model returns `Stop`, and the caller is trusted not to go on.
- The harness that creates contexts (the constructor stands in for it), runs tests in parallel and reads the final status and expected-failure reason.
