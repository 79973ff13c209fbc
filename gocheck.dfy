/**
 * The per-test call context: a pass/fail status, an optional expected-failure
 * reason and a log, together with the equality and error assertions that
 * write to it.
 *
 * Stopping the test body (stopNow, a non-local exit in the source) is a
 * returned Flow value. Formatting is not performed: a log entry records what
 * would be formatted. The regular-expression engine and a value's String()
 * method are calls into code outside the model and are passed in as functions.
 */
module GoCheck {
  import opened Wrappers
  import opened GoValues

  datatype Status = RunningSt | FailedSt | SucceededSt

  /** What happens to the test body after a call: it goes on, or it is stopped. */
  datatype Flow = Continue | Stop

  /** A message as handed to fmt, not yet formatted. */
  datatype Text =
    | Plain(s: string)                           // a literal string
    | Sprint(args: seq<Value>)                   // fmt.Sprint(args...)
    | Sprintf(format: string, args: seq<Value>)  // fmt.Sprintf(format, args...)
    | Prefixed(prefix: string, rest: Text)       // fmt.Sprint(prefix, rest)

  /** One entry of the log buffer, tagged by the helper that wrote it. */
  datatype LogEntry =
    | Line(text: Text)                    // log / logf
    | CallerLine(skip: nat, text: Text)   // logCaller: located `skip` frames up the stack
    | ValueLine(name: string, v: Value)  // logValue
    | StringLine(text: Text)              // logString
    | NewLine                             // logNewLine

  /** testing.MatchString(pattern, s): (matched, compile error or ""). */
  type Matcher = (string, string) -> (bool, string)

  /** The hasString capability: Some(v.String()) when v's type has the method. */
  type Stringer = Value -> Option<string>

  const MatchFailedFormat := "Expected to match expression: %#v"
  const CompileFailedFormat := "Can't compile match expression: %#v"

  // -----------------------------------------------------------------------
  // Equality testing, as decisions and log effects.

  /** The extra text a caller passed, logged only when there is some. */
  function IssueLines(issue: seq<Value>): seq<LogEntry>
  {
    if |issue| != 0 then [StringLine(Sprint(issue))] else []
  }

  /** Whether an equality assertion of polarity `equal` holds. */
  predicate EqualCheckPasses(a: Value, b: Value, equal: bool)
  {
    (SameType(a, b) && ValuesEqual(a, b)) == equal
  }

  /** The block an equality assertion logs when it does not hold. */
  function EqualFailureLog(a: Value, b: Value, equal: bool, summary: string, issue: seq<Value>): seq<LogEntry>
  {
    [CallerLine(2, Plain(summary))]
    + (if equal then [ValueLine("Obtained", a), ValueLine("Expected", b)] else [ValueLine("Both", a)])
    + IssueLines(issue)
    + [NewLine]
  }

  /** An equality assertion holds exactly when equality of the values is what it asks for. */
  lemma EqualCheckDecision(a: Value, b: Value, equal: bool)
    ensures EqualCheckPasses(a, b, equal) <==> ((a == b) == equal)
  {
    ValuesEqualIsIdentity(a, b);
  }

  /** Values of different dynamic types never compare equal, whatever they hold. */
  lemma DifferentTypesNeverEqual(a: Value, b: Value)
    requires !SameType(a, b)
    ensures !EqualCheckPasses(a, b, true)
    ensures EqualCheckPasses(a, b, false)
  {
  }

  /** CheckNotEqual(v, v) always fails: no value differs from itself. */
  lemma NotEqualToItselfFails(v: Value)
    ensures !EqualCheckPasses(v, v, false)
    ensures EqualCheckPasses(v, v, true)
  {
    ValuesEqualIsIdentity(v, v);
  }

  /** The verdict does not depend on which operand is the obtained one. */
  lemma EqualCheckSymmetric(a: Value, b: Value, equal: bool)
    ensures EqualCheckPasses(a, b, equal) == EqualCheckPasses(b, a, equal)
  {
    ValuesEqualIsIdentity(a, b);
    ValuesEqualIsIdentity(b, a);
  }

  /** A failed equality assertion logs a caller-located block ending in a blank line. */
  lemma EqualFailureLogLayout(a: Value, b: Value, equal: bool, summary: string, issue: seq<Value>)
    ensures var log := EqualFailureLog(a, b, equal, summary, issue);
      && |log| == (if equal then 3 else 2) + (if |issue| != 0 then 1 else 0) + 1
      && log[0] == CallerLine(2, Plain(summary))
      && log[1] == (if equal then ValueLine("Obtained", a) else ValueLine("Both", a))
      && (equal ==> log[2] == ValueLine("Expected", b))
      && (StringLine(Sprint(issue)) in log <==> |issue| != 0)
      && log[|log| - 1] == NewLine
  {
    var log := EqualFailureLog(a, b, equal, summary, issue);
    if |issue| != 0 {
      assert log[|log| - 2] == StringLine(Sprint(issue));
    }
  }

  // -----------------------------------------------------------------------
  // Error testing, as decisions and log effects.

  /** The text a match expression is tried against: a string, or its String(). */
  function Candidate(a: Value, stringer: Stringer): Option<string>
  {
    if a.StrVal? then Some(a.s)
    else if a.Nil? then None  // a type assertion on the nil interface never succeeds
    else stringer(a)
  }

  /** (matches, err) as the source leaves them: (false, "") when there is no candidate. */
  function MatchOutcome(a: Value, expr: string, matcher: Matcher, stringer: Stringer): (bool, string)
  {
    match Candidate(a, stringer)
    case None => (false, "")
    case Some(s) => matcher("^" + expr + "$", s)
  }

  /** Whether an error assertion holds: a match for a string, equality otherwise. */
  predicate ErrCheckPasses(a: Value, b: Value, equal: bool, matcher: Matcher, stringer: Stringer)
  {
    if b.StrVal? then MatchOutcome(a, b.s, matcher, stringer) == (true, "")
    else
      EqualCheckPasses(a, b, equal)
  }

  /** The block an error assertion logs when it does not hold. */
  function ErrFailureLog(a: Value, b: Value, summary: string, issue: seq<Value>,
                         matcher: Matcher, stringer: Stringer): seq<LogEntry>
  {
    if b.StrVal? then
      [CallerLine(2, Plain(summary))]
      + (if !MatchOutcome(a, b.s, matcher, stringer).0 then [ValueLine("Error", a), StringLine(Sprintf(MatchFailedFormat, [b]))]
         else [StringLine(Sprintf(CompileFailedFormat, [b]))])
      + [NewLine]
    else
      [CallerLine(2, Plain(summary)), ValueLine("Error", a)]
      + (if b.Nil? then [] else [ValueLine("Expected", b)])
      + IssueLines(issue)
      + [NewLine]
  }

  function CheckErrSummary(expected: Value): string
  {
    if expected.Nil? then "CheckErr(error, nil):" else "CheckErr(error, expected):"
  }

  function AssertErrSummary(expected: Value): string
  {
    if expected.Nil? then "AssertErr(error, nil):" else "AssertErr(error, expected):"
  }

  /**
   * A string `expected` is a whole-string pattern: the check holds exactly when
   * the obtained value has a candidate text and the anchored expression
   * matches it without a compile error. The polarity plays no part.
   */
  lemma PatternDecision(a: Value, b: Value, equal: bool, matcher: Matcher, stringer: Stringer)
    requires b.StrVal?
    ensures ErrCheckPasses(a, b, equal, matcher, stringer) <==>
      (Candidate(a, stringer).Some? && matcher("^" + b.s + "$", Candidate(a, stringer).value) == (true, ""))
    ensures ErrCheckPasses(a, b, equal, matcher, stringer) == ErrCheckPasses(a, b, !equal, matcher, stringer)
  {
  }

  /**
   * An obtained value that is neither a string nor has String() never matches:
   * the log names it as "Error", says it was expected to match, and carries no
   * caller-supplied text.
   */
  lemma NoCandidateNeverMatches(a: Value, b: Value, summary: string, issue: seq<Value>,
                                matcher: Matcher, stringer: Stringer)
    requires b.StrVal? && Candidate(a, stringer).None?
    ensures !ErrCheckPasses(a, b, true, matcher, stringer)
    ensures ErrFailureLog(a, b, summary, issue, matcher, stringer) ==
      [CallerLine(2, Plain(summary)), ValueLine("Error", a), StringLine(Sprintf(MatchFailedFormat, [b])), NewLine]
  {
  }

  /** "Can't compile" is logged only when the matcher reported a match and an error. */
  lemma CompileMessageOnlyWhenMatched(a: Value, b: Value, summary: string, issue: seq<Value>,
                                      matcher: Matcher, stringer: Stringer)
    requires b.StrVal? && !ErrCheckPasses(a, b, true, matcher, stringer)
    ensures StringLine(Sprintf(CompileFailedFormat, [b])) in ErrFailureLog(a, b, summary, issue, matcher, stringer)
      <==> (Candidate(a, stringer).Some? &&
            var (matches, err) := matcher("^" + b.s + "$", Candidate(a, stringer).value);
            matches && err != "")
    ensures ValueLine("Error", a) in ErrFailureLog(a, b, summary, issue, matcher, stringer)
      <==> !MatchOutcome(a, b.s, matcher, stringer).0
  {
    var log := ErrFailureLog(a, b, summary, issue, matcher, stringer);
    if MatchOutcome(a, b.s, matcher, stringer).0 {
      assert log == [CallerLine(2, Plain(summary)), StringLine(Sprintf(CompileFailedFormat, [b])), NewLine];
    } else {
      assert log == [CallerLine(2, Plain(summary)), ValueLine("Error", a), StringLine(Sprintf(MatchFailedFormat, [b])), NewLine];
      assert StringLine(Sprintf(CompileFailedFormat, [b])) != log[2];
    }
  }

  /**
   * With a matcher that answers "no match" whenever it cannot compile the
   * expression, a malformed expression is reported as a mismatch: the
   * "Can't compile" message is never logged.
   */
  lemma CompileErrorReportedAsMismatch(a: Value, b: Value, summary: string, issue: seq<Value>,
                                       matcher: Matcher, stringer: Stringer)
    requires b.StrVal? && !ErrCheckPasses(a, b, true, matcher, stringer)
    requires forall p, s :: matcher(p, s).1 != "" ==> !matcher(p, s).0
    ensures StringLine(Sprintf(CompileFailedFormat, [b])) !in ErrFailureLog(a, b, summary, issue, matcher, stringer)
    ensures ValueLine("Error", a) in ErrFailureLog(a, b, summary, issue, matcher, stringer)
  {
    var log := ErrFailureLog(a, b, summary, issue, matcher, stringer);
    assert log == [CallerLine(2, Plain(summary)), ValueLine("Error", a), StringLine(Sprintf(MatchFailedFormat, [b])), NewLine];
    assert StringLine(Sprintf(CompileFailedFormat, [b])) != log[2];
  }

  /**
   * With a nil `expected`, the check holds only for a nil obtained value, and
   * its failure block logs the obtained value as "Error" with no "Expected" line.
   */
  lemma NilExpectedDecision(a: Value, summary: string, issue: seq<Value>,
                            matcher: Matcher, stringer: Stringer)
    ensures ErrCheckPasses(a, Nil, true, matcher, stringer) <==> a == Nil
    ensures var log := ErrFailureLog(a, Nil, summary, issue, matcher, stringer);
      && log[..2] == [CallerLine(2, Plain(summary)), ValueLine("Error", a)]
      && forall e | e in log :: !(e.ValueLine? && e.name == "Expected")
  {
    EqualCheckDecision(a, Nil, true);
  }

  /** A non-string `expected` is compared exactly as CheckEqual compares. */
  lemma ValueExpectedDecision(a: Value, b: Value, matcher: Matcher, stringer: Stringer)
    requires !b.StrVal?
    ensures ErrCheckPasses(a, b, true, matcher, stringer) <==> a == b
  {
    EqualCheckDecision(a, b, true);
  }

  // -----------------------------------------------------------------------
  // The context itself.

  /** The context handed to a test body. */
  class T {
    var status: Status
    var expectedFailure: Option<string>
    var logv: seq<LogEntry>

    /** A fresh context as the harness creates it. */
    constructor ()
      ensures status == RunningSt && expectedFailure == None && logv == []
    {
      status := RunningSt;
      expectedFailure := None;
      logv := [];
    }

    method Failed() returns (r: bool)
      ensures r <==> status == FailedSt
    {
      r := status == FailedSt;
    }

    method Fail()
      modifies this`status
      ensures status == FailedSt
    {
      status := FailedSt;
    }

    /** Fails, then stops the test body. */
    method FailNow() returns (flow: Flow)
      modifies this`status
      ensures status == FailedSt && flow == Stop
    {
      Fail();
      flow := Stop;
    }

    method Succeed()
      modifies this`status
      ensures status == SucceededSt
    {
      status := SucceededSt;
    }

    /** Succeeds, then stops the test body. */
    method SucceedNow() returns (flow: Flow)
      modifies this`status
      ensures status == SucceededSt && flow == Stop
    {
      Succeed();
      flow := Stop;
    }

    /** Records the reason; status and log are untouched. */
    method ExpectFailure(reason: string)
      modifies this`expectedFailure
      ensures expectedFailure == Some(reason)
      ensures status == old(status) && logv == old(logv)
    {
      expectedFailure := Some(reason);
    }

    // ---------------------------------------------------------------------
    // Logging.

    method GetLog() returns (log: seq<LogEntry>)
      ensures log == logv
    {
      log := logv;
    }

    method Log(args: seq<Value>)
      modifies this`logv
      ensures logv == old(logv) + [Line(Sprint(args))]
      ensures status == old(status)
    {
      logv := logv + [Line(Sprint(args))];
    }

    method Logf(format: string, args: seq<Value>)
      modifies this`logv
      ensures logv == old(logv) + [Line(Sprintf(format, args))]
      ensures status == old(status)
    {
      logv := logv + [Line(Sprintf(format, args))];
    }

    /** Logs one caller-located error line and fails; the body goes on. */
    method Error(args: seq<Value>)
      modifies this`status, this`logv
      ensures logv == old(logv) + [CallerLine(1, Prefixed("Error: ", Sprint(args)))]
      ensures status == FailedSt
    {
      LogCaller(1, Prefixed("Error: ", Sprint(args)));
      Fail();
    }

    /** Logs one caller-located error line and fails; the body goes on. */
    method Errorf(format: string, args: seq<Value>)
      modifies this`status, this`logv
      ensures logv == old(logv) + [CallerLine(1, Sprintf("Error: " + format, args))]
      ensures status == FailedSt
    {
      LogCaller(1, Sprintf("Error: " + format, args));
      Fail();
    }

    /** Logs one caller-located error line, fails, then stops the body. */
    method Fatal(args: seq<Value>) returns (flow: Flow)
      modifies this`status, this`logv
      ensures logv == old(logv) + [CallerLine(1, Prefixed("Error: ", Sprint(args)))]
      ensures status == FailedSt && flow == Stop
    {
      LogCaller(1, Prefixed("Error: ", Sprint(args)));
      flow := FailNow();
    }

    /** Logs one caller-located error line, fails, then stops the body. */
    method Fatalf(format: string, args: seq<Value>) returns (flow: Flow)
      modifies this`status, this`logv
      ensures logv == old(logv) + [CallerLine(1, Prefixed("Error: ", Sprintf(format, args)))]
      ensures status == FailedSt && flow == Stop
    {
      LogCaller(1, Prefixed("Error: ", Sprintf(format, args)));
      flow := FailNow();
    }

    method LogCaller(skip: nat, text: Text)
      modifies this`logv
      ensures logv == old(logv) + [CallerLine(skip, text)]
    {
      logv := logv + [CallerLine(skip, text)];
    }

    method LogValue(name: string, v: Value)
      modifies this`logv
      ensures logv == old(logv) + [ValueLine(name, v)]
    {
      logv := logv + [ValueLine(name, v)];
    }

    method LogString(text: Text)
      modifies this`logv
      ensures logv == old(logv) + [StringLine(text)]
    {
      logv := logv + [StringLine(text)];
    }

    method LogNewLine()
      modifies this`logv
      ensures logv == old(logv) + [NewLine]
    {
      logv := logv + [NewLine];
    }

    // ---------------------------------------------------------------------
    // Equality testing.

    method CheckEqual(obtained: Value, expected: Value, issue: seq<Value>) returns (ok: bool)
      modifies this`status, this`logv
      ensures ok <==> obtained == expected
      ensures logv == old(logv) + (if ok then [] else EqualFailureLog(obtained, expected, true, "CheckEqual(obtained, expected):", issue))
      ensures status == (if ok then old(status) else FailedSt)
    {
      ok := InternalCheckEqual(obtained, expected, true, "CheckEqual(obtained, expected):", issue);
      EqualCheckDecision(obtained, expected, true);
    }

    method CheckNotEqual(obtained: Value, expected: Value, issue: seq<Value>) returns (ok: bool)
      modifies this`status, this`logv
      ensures ok <==> obtained != expected
      ensures logv == old(logv) + (if ok then [] else EqualFailureLog(obtained, expected, false, "CheckNotEqual(obtained, unexpected):", issue))
      ensures status == (if ok then old(status) else FailedSt)
    {
      ok := InternalCheckEqual(obtained, expected, false, "CheckNotEqual(obtained, unexpected):", issue);
      EqualCheckDecision(obtained, expected, false);
    }

    /** As CheckEqual, and the body is stopped exactly when the check fails. */
    method AssertEqual(obtained: Value, expected: Value, issue: seq<Value>) returns (flow: Flow)
      modifies this`status, this`logv
      ensures flow == (if obtained == expected then Continue else Stop)
      ensures logv == old(logv) + (if flow == Continue then [] else EqualFailureLog(obtained, expected, true, "AssertEqual(obtained, expected):", issue))
      ensures status == (if flow == Continue then old(status) else FailedSt)
    {
      var ok := InternalCheckEqual(obtained, expected, true, "AssertEqual(obtained, expected):", issue);
      EqualCheckDecision(obtained, expected, true);
      flow := Continue;
      if !ok {
        flow := Stop;
      }
    }

    /** As CheckNotEqual, and the body is stopped exactly when the check fails. */
    method AssertNotEqual(obtained: Value, expected: Value, issue: seq<Value>) returns (flow: Flow)
      modifies this`status, this`logv
      ensures flow == (if obtained != expected then Continue else Stop)
      ensures logv == old(logv) + (if flow == Continue then [] else EqualFailureLog(obtained, expected, false, "AssertNotEqual(obtained, unexpected):", issue))
      ensures status == (if flow == Continue then old(status) else FailedSt)
    {
      var ok := InternalCheckEqual(obtained, expected, false, "AssertNotEqual(obtained, unexpected):", issue);
      EqualCheckDecision(obtained, expected, false);
      flow := Continue;
      if !ok {
        flow := Stop;
      }
    }

    /**
     * Holds iff type identity and value equality together give `equal`; a pass
     * changes nothing, a failure logs its block and fails the context.
     */
    method InternalCheckEqual(a: Value, b: Value, equal: bool, summary: string, issue: seq<Value>) returns (ok: bool)
      modifies this`status, this`logv
      ensures ok == EqualCheckPasses(a, b, equal)
      ensures logv == old(logv) + (if ok then [] else EqualFailureLog(a, b, equal, summary, issue))
      ensures status == (if ok then old(status) else FailedSt)
    {
      var typeA := TypeOf(a);
      var typeB := TypeOf(b);
      if (typeA == typeB && ValuesEqual(a, b)) != equal {
        ReportEqualFailure(a, b, equal, summary, issue);
        return false;
      }
      return true;
    }

    /** The failure branch of InternalCheckEqual: its log block, then Fail. */
    method ReportEqualFailure(a: Value, b: Value, equal: bool, summary: string, issue: seq<Value>)
      modifies this`status, this`logv
      ensures logv == old(logv) + EqualFailureLog(a, b, equal, summary, issue)
      ensures status == FailedSt
    {
      LogCaller(2, Plain(summary));
      ghost var added := [CallerLine(2, Plain(summary))];
      if equal {
        LogValue("Obtained", a);
        LogValue("Expected", b);
        added := added + [ValueLine("Obtained", a), ValueLine("Expected", b)];
      } else {
        LogValue("Both", a);
        added := added + [ValueLine("Both", a)];
      }
      assert logv == old(logv) + added;
      if |issue| != 0 {
        LogString(Sprint(issue));
      }
      added := added + IssueLines(issue);
      assert logv == old(logv) + added;
      LogNewLine();
      Fail();
    }

    // ---------------------------------------------------------------------
    // Error testing.

    /** As CheckErr, and the body is stopped exactly when the check fails. */
    method AssertErr(obtained: Value, expected: Value, issue: seq<Value>,
                     matcher: Matcher, stringer: Stringer) returns (flow: Flow)
      modifies this`status, this`logv
      ensures flow == (if ErrCheckPasses(obtained, expected, true, matcher, stringer) then Continue else Stop)
      ensures logv == old(logv) +
        (if flow == Continue then [] else ErrFailureLog(obtained, expected, AssertErrSummary(expected), issue, matcher, stringer))
      ensures status == (if flow == Continue then old(status) else FailedSt)
    {
      var summary: string;
      if expected.Nil? {
        summary := "AssertErr(error, nil):";
      } else {
        summary := "AssertErr(error, expected):";
      }
      var ok := InternalCheckErr(obtained, expected, true, summary, issue, matcher, stringer);
      flow := Continue;
      if !ok {
        flow := Stop;
      }
    }

    method CheckErr(obtained: Value, expected: Value, issue: seq<Value>,
                    matcher: Matcher, stringer: Stringer) returns (ok: bool)
      modifies this`status, this`logv
      ensures ok == ErrCheckPasses(obtained, expected, true, matcher, stringer)
      ensures logv == old(logv) +
        (if ok then [] else ErrFailureLog(obtained, expected, CheckErrSummary(expected), issue, matcher, stringer))
      ensures status == (if ok then old(status) else FailedSt)
    {
      var summary: string;
      if expected.Nil? {
        summary := "CheckErr(error, nil):";
      } else {
        summary := "CheckErr(error, expected):";
      }
      ok := InternalCheckErr(obtained, expected, true, summary, issue, matcher, stringer);
    }

    /**
     * A string `b` is matched as an anchored expression against `a` or its
     * String(); any other `b` is compared as in InternalCheckEqual. A pass
     * changes nothing, a failure logs its block and fails the context.
     */
    method InternalCheckErr(a: Value, b: Value, equal: bool, summary: string, issue: seq<Value>,
                            matcher: Matcher, stringer: Stringer) returns (ok: bool)
      modifies this`status, this`logv
      ensures ok == ErrCheckPasses(a, b, equal, matcher, stringer)
      ensures logv == old(logv) + (if ok then [] else ErrFailureLog(a, b, summary, issue, matcher, stringer))
      ensures status == (if ok then old(status) else FailedSt)
    {
      var typeA := TypeOf(a);
      var typeB := TypeOf(b);
      if b.StrVal? {
        var bStr := b.s;
        var err := "";
        var matches := false;
        var aStr := Candidate(a, stringer);
        if aStr.Some? {
          var outcome := matcher("^" + bStr + "$", aStr.value);
          matches, err := outcome.0, outcome.1;
        }
        assert (matches, err) == MatchOutcome(a, bStr, matcher, stringer);
        if !matches || err != "" {
          ReportMatchFailure(a, b, matches, summary);
          return false;
        }
      } else if (typeA == typeB && ValuesEqual(a, b)) != equal {
        ReportErrFailure(a, b, summary, issue);
        return false;
      }
      return true;
    }

    /**
     * The failure branch of a match: a mismatch names the obtained value and
     * the expression; a match with a compile error names only the expression.
     */
    method ReportMatchFailure(a: Value, b: Value, matches: bool, summary: string)
      modifies this`status, this`logv
      ensures logv == old(logv) + [CallerLine(2, Plain(summary))]
        + (if !matches then [ValueLine("Error", a), StringLine(Sprintf(MatchFailedFormat, [b]))]
           else [StringLine(Sprintf(CompileFailedFormat, [b]))])
        + [NewLine]
      ensures status == FailedSt
    {
      LogCaller(2, Plain(summary));
      var msg: Text;
      if !matches {
        LogValue("Error", a);
        msg := Sprintf(MatchFailedFormat, [b]);
      } else {
        msg := Sprintf(CompileFailedFormat, [b]);
      }
      LogString(msg);
      LogNewLine();
      Fail();
    }

    /** The failure branch of a value comparison: no "Expected" line for a nil `b`. */
    method ReportErrFailure(a: Value, b: Value, summary: string, issue: seq<Value>)
      modifies this`status, this`logv
      ensures logv == old(logv) + [CallerLine(2, Plain(summary)), ValueLine("Error", a)]
        + (if b.Nil? then [] else [ValueLine("Expected", b)]) + IssueLines(issue) + [NewLine]
      ensures status == FailedSt
    {
      LogCaller(2, Plain(summary));
      ghost var added := [CallerLine(2, Plain(summary)), ValueLine("Error", a)];
      if b.Nil? {
        LogValue("Error", a);
      } else {
        LogValue("Error", a);
        LogValue("Expected", b);
        added := added + [ValueLine("Expected", b)];
      }
      assert logv == old(logv) + added;
      if |issue| != 0 {
        LogString(Sprint(issue));
      }
      added := added + IssueLines(issue);
      assert logv == old(logv) + added;
      LogNewLine();
      Fail();
    }
  }

  // -----------------------------------------------------------------------
  // What a test body observes through the status calls.

  /**
   * Fail is idempotent, and status is a last-write field: Succeed after Fail
   * leaves the context not failed. ExpectFailure does not touch the status.
   */
  method StatusIsLastWrite(t: T, reason: string) returns (afterFails: bool, afterSucceed: bool, afterExpect: bool)
    modifies t
    ensures afterFails && !afterSucceed && !afterExpect
    ensures t.status == SucceededSt && t.expectedFailure == Some(reason)
  {
    t.Fail();
    t.Fail();
    afterFails := t.Failed();
    t.Succeed();
    afterSucceed := t.Failed();
    t.ExpectFailure(reason);
    afterExpect := t.Failed();
  }

  /**
   * Log entries come back in call order, none merged or dropped.
   */
  method LogKeepsOrder(t: T, first: seq<Value>, second: seq<Value>) returns (log: seq<LogEntry>)
    modifies t
    ensures log == old(t.logv) + [Line(Sprint(first)), Line(Sprint(second))]
  {
    t.Log(first);
    t.Log(second);
    log := t.GetLog();
  }
}
