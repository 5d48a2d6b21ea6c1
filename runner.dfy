/**
 * The test runner, Tests.Perform: it walks the targets, their test methods and
 * each method's Test attributes in order, reconciles every invocation's outcome
 * with ShouldFail, keeps the test and failure counters, writes the console
 * lines, and ends with the session summary.
 *
 * Reflection is replaced by data: a target lists its methods in the order
 * GetMethods returns them, a method lists its Test attributes in attachment
 * order, and each attribute comes with how invoking the method with its
 * arguments completes. The console is the sequence of lines written to it.
 */
module Runner {
  import opened Wrappers
  import opened Decimal
  import opened Exceptions
  import opened TestAttributes

  /** One run of a test method: an attached attribute and how `method.Invoke(instance, attribute.Arguments)` completes. */
  datatype Case = Case(attribute: TestAttribute, invocation: Completion)

  /** A method as reflection sees it: its display text, whether it is static, and its test runs. */
  datatype MethodInfo = MethodInfo(name: string, isStatic: bool, cases: seq<Case>)

  /** A class and its methods, static and instance, in GetMethods order. */
  datatype TypeInfo = TypeInfo(name: string, methods: seq<MethodInfo>)

  /** An element of Perform's `objects`: null, a Type object, or an instance of a class. */
  datatype Target = Null | TypeObject(cls: TypeInfo) | Instance(id: nat, cls: TypeInfo)

  /** `objects.Concat(new[] { typeof(Tests) })`: the harness's own class is always tested last. */
  function Targets(objects: seq<Target>, tests: TypeInfo): seq<Target>
  {
    objects + [TypeObject(tests)]
  }

  /** The methods of `ms` that are static exactly when `wantStatic`, in their order. */
  function Filter(ms: seq<MethodInfo>, wantStatic: bool): (r: seq<MethodInfo>)
    ensures forall m :: m in r <==> m in ms && m.isStatic == wantStatic
    ensures |r| <= |ms|
    decreases |ms|
  {
    if |ms| == 0 then []
    else if ms[0].isStatic == wantStatic then [ms[0]] + Filter(ms[1..], wantStatic)
    else Filter(ms[1..], wantStatic)
  }

  /**
   * `type.GetMethods(ALL | Static)` for a Type object, `GetMethods(ALL | Instance)`
   * on the runtime class of any other object; no methods for null.
   */
  function SelectMethods(obj: Target): (r: seq<MethodInfo>)
    ensures obj.Null? ==> r == []
    ensures forall m :: m in r ==> !obj.Null? && m in obj.cls.methods && (m.isStatic <==> obj.TypeObject?)
    ensures !obj.Null? ==> forall m :: m in obj.cls.methods && (m.isStatic <==> obj.TypeObject?) ==> m in r
  {
    if obj.Null? then [] else Filter(obj.cls.methods, obj.TypeObject?)
  }

  /** `method.IsStatic ? null : obj`: the receiver Invoke is given. */
  function Receiver(obj: Target, m: MethodInfo): (r: Option<Target>)
    requires m in SelectMethods(obj)
    ensures r.None? <==> obj.TypeObject?
    ensures r.Some? ==> r.value == obj && obj.Instance?
  {
    if m.isStatic then None else Some(obj)
  }

  /**
   * `while (e is TargetInvocationException) e = e.InnerException`: the first
   * exception down the chain that is no wrapper, None when a wrapper has no
   * inner exception.
   */
  function Unwrap(e: Exn): (r: Option<Exn>)
    ensures !IsSubtype(e.kind, TargetInvocationException) ==> r == Some(e)
    ensures IsSubtype(e.kind, TargetInvocationException) && e.inner.None? ==> r.None?
    ensures r.Some? ==> !IsSubtype(r.value.kind, TargetInvocationException)
    decreases e
  {
    if !IsSubtype(e.kind, TargetInvocationException) then Some(e)
    else if e.inner.None? then None
    else Unwrap(e.inner.value)
  }

  /** The failure Perform throws at itself when a ShouldFail test returns normally; it has no frame. */
  const ForcedMessage: string := "Excepted test to fail, but it succeeded."
  const ForcedFailure: Exn := NewAssertionException(ForcedMessage, None, None)

  /** The forced failure is no wrapper, and its text is its message. */
  lemma ForcedFailureUnwraps()
    ensures Unwrap(ForcedFailure) == Some(ForcedFailure)
    ensures AssertionText(ForcedFailure) == ForcedMessage
  {
    assert !IsSubtype(Exception, TargetInvocationException);
    assert !IsSubtype(AssertionException, TargetInvocationException);
  }

  /** PrintSuccess: the success line and a blank line. */
  const SuccessLines: seq<string> := ["  Test successful.", ""]

  const TestFailed: string := "  Test failed."
  const UnexpectedError: string := "  Unexpected error in test."

  /** How the try statement around one invocation ends. */
  datatype Verdict =
    | Success
    | Failure(report: seq<string>)   // caught; the lines the catch block writes
    | Escape(report: seq<string>)    // a NullReferenceException leaves the catch block

  /**
   * Reconciles an invocation's completion with ShouldFail: the test passes
   * exactly when it threw and was expected to; otherwise the exception (the
   * forced failure for an unexpected success) is unwrapped and reported as an
   * assertion failure, with its ToString, or as an unexpected error, with its
   * Message.
   */
  function Classify(shouldFail: bool, invocation: Completion): (r: Verdict)
    ensures r.Success? <==> (shouldFail <==> invocation.Throw?)
    ensures shouldFail && invocation.Normal? ==>
      r == Failure([TestFailed, "  -> " + ForcedMessage])
    ensures r.Escape? <==> !shouldFail && invocation.Throw? && Unwrap(invocation.exn).None?
    ensures r.Escape? ==> r.report == [UnexpectedError]
    ensures !shouldFail && invocation.Throw? && Unwrap(invocation.exn).Some? ==>
      var e := Unwrap(invocation.exn).value;
      r == if IsSubtype(e.kind, AssertionException) then Failure([TestFailed, "  -> " + AssertionText(e)])
           else Failure([UnexpectedError, "  -> " + e.message])
  {
    ForcedFailureUnwraps();
    if shouldFail == invocation.Throw? then Success
    else
      var thrown := if invocation.Normal? then ForcedFailure else invocation.exn;
      match Unwrap(thrown)
      case None => Escape([UnexpectedError])
      case Some(e) =>
        if IsSubtype(e.kind, AssertionException) then Failure([TestFailed, "  -> " + AssertionText(e)])
        else Failure([UnexpectedError, "  -> " + e.message])
  }

  /** The console so far and the two counters, nbtests and nbfails. */
  datatype Tally = Tally(log: seq<string>, tests: nat, fails: nat)

  /** How one pass of the attribute loop ends: `continue` (or its end), `break`, or an exception leaving Perform. */
  datatype Step = Continue(tally: Tally) | Break(tally: Tally) | Escaped(tally: Tally)

  /** How a loop over attributes, methods or targets ends: it finishes, or an exception leaves Perform. */
  datatype Flow = Finished(tally: Tally) | Aborted(tally: Tally)

  predicate Runs(c: Case)
  {
    !c.attribute.skip
  }

  predicate Fails(c: Case)
  {
    Runs(c) && Classify(c.attribute.shouldFail, c.invocation).Failure?
  }

  predicate Escapes(c: Case)
  {
    Runs(c) && Classify(c.attribute.shouldFail, c.invocation).Escape?
  }

  /** One pass of the attribute loop, for method `name` and run `c`. */
  function RunCase(name: string, c: Case, t: Tally): Step
  {
    if c.attribute.skip then Continue(t)
    else
      var started := Tally(t.log + ["Now testing " + name], t.tests + 1, t.fails);
      match Classify(c.attribute.shouldFail, c.invocation)
      case Success => Continue(started.(log := started.log + SuccessLines))
      case Failure(report) =>
        var failed := Tally(started.log + report, started.tests, started.fails + 1);
        if c.attribute.isFatal then Break(failed) else Continue(failed.(log := failed.log + [""]))
      case Escape(report) => Escaped(started.(log := started.log + report))
  }

  /** A run that passes: its "Now testing" line, PrintSuccess, and the next pass. */
  lemma SuccessStep(name: string, c: Case, t: Tally)
    requires Runs(c) && Classify(c.attribute.shouldFail, c.invocation) == Success
    ensures RunCase(name, c, t) == Continue(Tally(t.log + ["Now testing " + name] + SuccessLines, t.tests + 1, t.fails))
  {
  }

  /** A run that fails: its report, one more failure, then `break` if it is fatal or a blank line. */
  lemma FailureStep(name: string, c: Case, t: Tally, report: seq<string>)
    requires Runs(c) && Classify(c.attribute.shouldFail, c.invocation) == Failure(report)
    ensures var failed := Tally(t.log + ["Now testing " + name] + report, t.tests + 1, t.fails + 1);
      RunCase(name, c, t) == if c.attribute.isFatal then Break(failed) else Continue(failed.(log := failed.log + [""]))
  {
  }

  /** A run whose exception cannot be reported: Perform ends after the first report line. */
  lemma EscapeStep(name: string, c: Case, t: Tally)
    requires Runs(c) && Classify(c.attribute.shouldFail, c.invocation).Escape?
    ensures RunCase(name, c, t) == Escaped(Tally(t.log + ["Now testing " + name] + [UnexpectedError], t.tests + 1, t.fails))
  {
  }

  /**
   * The attribute loop of one method: each run at most once, a fatal failure
   * ends the loop, an escaping exception ends Perform.
   */
  function RunCases(name: string, cases: seq<Case>, t: Tally): Flow
    decreases |cases|
  {
    if |cases| == 0 then Finished(t)
    else
      match RunCase(name, cases[0], t)
      case Continue(t') => RunCases(name, cases[1..], t')
      case Break(t') => Finished(t')
      case Escaped(t') => Aborted(t')
  }

  /** What the rest of the attribute loop makes of one pass ending in `step`. */
  function AfterCase(step: Step, name: string, rest: seq<Case>): Flow
  {
    match step
    case Continue(t) => RunCases(name, rest, t)
    case Break(t) => Finished(t)
    case Escaped(t) => Aborted(t)
  }

  lemma UnfoldRunCases(name: string, cases: seq<Case>, i: nat, t: Tally)
    requires i < |cases|
    ensures RunCases(name, cases[i..], t) == AfterCase(RunCase(name, cases[i], t), name, cases[i + 1..])
  {
    assert cases[i..][0] == cases[i];
    assert cases[i..][1..] == cases[i + 1..];
  }

  /** The method loop of one target. */
  function RunMethods(ms: seq<MethodInfo>, t: Tally): Flow
    decreases |ms|
  {
    if |ms| == 0 then Finished(t)
    else
      match RunCases(ms[0].name, ms[0].cases, t)
      case Finished(t') => RunMethods(ms[1..], t')
      case Aborted(t') => Aborted(t')
  }

  /** Going on with the methods `ms` after a flow: only if it finished. */
  function ThenMethods(f: Flow, ms: seq<MethodInfo>): Flow
  {
    match f
    case Finished(t) => RunMethods(ms, t)
    case Aborted(_) => f
  }

  /** The target loop. */
  function RunTargets(ts: seq<Target>, t: Tally): Flow
    decreases |ts|
  {
    if |ts| == 0 then Finished(t)
    else
      match RunMethods(SelectMethods(ts[0]), t)
      case Finished(t') => RunTargets(ts[1..], t')
      case Aborted(t') => Aborted(t')
  }

  /** Going on with the targets `ts` after a flow: only if it finished. */
  function ThenTargets(f: Flow, ts: seq<Target>): Flow
  {
    match f
    case Finished(t) => RunTargets(ts, t)
    case Aborted(_) => f
  }

  /** "s" when more than one test passed. */
  function Plural(passed: int): string
  {
    if passed > 1 then "s" else ""
  }

  const SummaryPrefix: string := "Unit tests session over: "

  /** The last console line: the prefix, then the verdict on the counters. */
  function SummaryLine(tests: int, fails: int): string
  {
    var s := Plural(tests - fails);
    if fails == 0 then SummaryPrefix + "all test" + s + " successful."
    else if tests != 0 then SummaryPrefix + IntToString(tests - fails) + "/" + IntToString(tests) + " test" + s + " successful."
    else SummaryPrefix
  }

  /** What one call of Perform leaves behind: the console, the counters, and whether an exception left it. */
  datatype SessionResult = SessionResult(console: seq<string>, tests: nat, fails: nat, escaped: bool)

  /**
   * A whole session: the caller's targets and then the harness's own class;
   * unless an exception left Perform, the console ends with the summary line.
   */
  function Session(objects: seq<Target>, tests: TypeInfo): SessionResult
  {
    match RunTargets(Targets(objects, tests), Tally([], 0, 0))
    case Finished(t) => SessionResult(t.log + [SummaryLine(t.tests, t.fails)], t.tests, t.fails, false)
    case Aborted(t) => SessionResult(t.log, t.tests, t.fails, true)
  }

  /**
   * One pass of Perform's attribute loop for method `name`: skip, or write
   * "Now testing", count the test, run the try statement around the
   * invocation and its two catch clauses, count a failure, and stop the
   * method's loop on a fatal one. A `continue` of the loop is a return here.
   */
  method RunTest(name: string, attribute: TestAttribute, invocation: Completion, t: Tally) returns (step: Step)
    ensures step == RunCase(name, Case(attribute, invocation), t)
  {
    ghost var c := Case(attribute, invocation);
    if attribute.skip {
      return Continue(t);
    }
    var console := t.log + ["Now testing " + name];
    var nbtests := t.tests + 1;
    var nbfails := t.fails;
    var forcedFail := false;
    // try: invoke, throw at itself if the test should have failed, else report success
    var thrown: Exn;
    if invocation.Normal? {
      if attribute.shouldFail {
        forcedFail := true;
        thrown := ForcedFailure;
      } else {
        SuccessStep(name, c, t);
        return Continue(Tally(console + SuccessLines, nbtests, nbfails));
      }
    } else {
      thrown := invocation.exn;
    }
    // catch when (ShouldFail && !forcedFail)
    if attribute.shouldFail && !forcedFail {
      SuccessStep(name, c, t);
      return Continue(Tally(console + SuccessLines, nbtests, nbfails));
    }
    // catch (Exception e): peel the reflection wrappers
    var e: Option<Exn> := Some(thrown);
    while e.Some? && IsSubtype(e.value.kind, TargetInvocationException)
      invariant Unwrap(thrown) == if e.Some? then Unwrap(e.value) else None
      decreases e
    {
      e := e.value.inner;
    }
    ghost var report: seq<string>;
    if e.Some? && IsSubtype(e.value.kind, AssertionException) {
      report := [TestFailed, "  -> " + AssertionText(e.value)];
      console := console + [TestFailed, "  -> " + AssertionText(e.value)];
    } else {
      console := console + [UnexpectedError];
      if e.None? {
        // e.Message on null: a NullReferenceException leaves Perform
        EscapeStep(name, c, t);
        return Escaped(Tally(console, nbtests, nbfails));
      }
      report := [UnexpectedError, "  -> " + e.value.message];
      console := console + ["  -> " + e.value.message];
    }
    FailureStep(name, c, t, report);
    nbfails := nbfails + 1;
    if attribute.isFatal {
      return Break(Tally(console, nbtests, nbfails));
    }
    console := console + [""];
    return Continue(Tally(console, nbtests, nbfails));
  }

  /**
   * The body of Perform's target loop for a non-null target: its method loop
   * and, inside, each method's attribute loop, which a fatal failure leaves
   * with `break`.
   */
  method TestTarget(obj: Target, t: Tally) returns (flow: Flow)
    requires !obj.Null?
    ensures flow == RunMethods(SelectMethods(obj), t)
  {
    var console, nbtests, nbfails := t.log, t.tests, t.fails;
    var methods := SelectMethods(obj);
    var j := 0;
    assert methods[j..] == methods;
    while j < |methods|
      invariant 0 <= j <= |methods|
      invariant RunMethods(methods, t) == RunMethods(methods[j..], Tally(console, nbtests, nbfails))
    {
      assert methods[j..][0] == methods[j] && methods[j..][1..] == methods[j + 1..];
      var m := methods[j];
      j := j + 1;
      var instance := Receiver(obj, m);
      var i := 0;
      assert m.cases[i..] == m.cases;
      while i < |m.cases|
        invariant 0 <= i <= |m.cases|
        invariant RunMethods(methods, t) ==
          ThenMethods(RunCases(m.name, m.cases[i..], Tally(console, nbtests, nbfails)), methods[j..])
      {
        UnfoldRunCases(m.name, m.cases, i, Tally(console, nbtests, nbfails));
        var step := RunTest(m.name, m.cases[i].attribute, m.cases[i].invocation, Tally(console, nbtests, nbfails));
        i := i + 1;
        console, nbtests, nbfails := step.tally.log, step.tally.tests, step.tally.fails;
        if step.Escaped? {
          return Aborted(step.tally);
        }
        if step.Break? {
          break;
        }
      }
      assert i == |m.cases| ==> m.cases[i..] == [];
    }
    return Finished(Tally(console, nbtests, nbfails));
  }

  /**
   * Tests.Perform(objects), with the harness's own class `tests`: what it
   * writes to the console and its two counters are those of Session, and
   * `escaped` says that Perform ended by throwing.
   */
  method Perform(objects: seq<Target>, tests: TypeInfo) returns (console: seq<string>, nbtests: nat, nbfails: nat, escaped: bool)
    ensures Session(objects, tests) == SessionResult(console, nbtests, nbfails, escaped)
  {
    nbfails, nbtests := 0, 0;
    console, escaped := [], false;
    var targets := Targets(objects, tests);
    var k := 0;
    while k < |targets|
      invariant 0 <= k <= |targets|
      invariant RunTargets(targets, Tally([], 0, 0)) == RunTargets(targets[k..], Tally(console, nbtests, nbfails))
    {
      assert targets[k..][0] == targets[k] && targets[k..][1..] == targets[k + 1..];
      var obj := targets[k];
      k := k + 1;
      if obj.Null? {
        continue;
      }
      var flow := TestTarget(obj, Tally(console, nbtests, nbfails));
      console, nbtests, nbfails := flow.tally.log, flow.tally.tests, flow.tally.fails;
      if flow.Aborted? {
        escaped := true;
        return;
      }
    }
    assert targets[k..] == [];
    var s := if nbtests - nbfails > 1 then "s" else "";
    var summary := SummaryPrefix;
    if nbfails == 0 {
      summary := summary + "all test" + s + " successful.";
    } else if nbtests != 0 {
      summary := summary + IntToString(nbtests - nbfails) + "/" + IntToString(nbtests) + " test" + s + " successful.";
    }
    console := console + [summary];
  }
}
