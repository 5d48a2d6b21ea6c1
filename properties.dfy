/**
 * What the runner guarantees: how one attribute pass changes the counters and
 * the console, the counting invariants of whole loops and of a session, the
 * reach of a fatal failure, null targets, and the wording of the summary.
 */
module RunnerProperties {
  import opened Wrappers
  import opened Decimal
  import opened Exceptions
  import opened TestAttributes
  import opened Runner
  import opened Assertions

  /** Number of runs that are not skipped. */
  function ActiveCount(cases: seq<Case>): nat
    decreases |cases|
  {
    if |cases| == 0 then 0 else (if Runs(cases[0]) then 1 else 0) + ActiveCount(cases[1..])
  }

  /** Number of runs that are not skipped and fail. */
  function FailCount(cases: seq<Case>): nat
    decreases |cases|
  {
    if |cases| == 0 then 0 else (if Fails(cases[0]) then 1 else 0) + FailCount(cases[1..])
  }

  function ActiveInMethods(ms: seq<MethodInfo>): nat
    decreases |ms|
  {
    if |ms| == 0 then 0 else ActiveCount(ms[0].cases) + ActiveInMethods(ms[1..])
  }

  function ActiveInTargets(ts: seq<Target>): nat
    decreases |ts|
  {
    if |ts| == 0 then 0 else ActiveInMethods(SelectMethods(ts[0])) + ActiveInTargets(ts[1..])
  }

  ghost predicate CannotEscape(cases: seq<Case>)
  {
    forall i :: 0 <= i < |cases| ==> !Escapes(cases[i])
  }

  ghost predicate MethodsCannotEscape(ms: seq<MethodInfo>)
  {
    forall j :: 0 <= j < |ms| ==> CannotEscape(ms[j].cases)
  }

  ghost predicate TargetsCannotEscape(ts: seq<Target>)
  {
    forall k :: 0 <= k < |ts| ==> MethodsCannotEscape(SelectMethods(ts[k]))
  }

  /** A run that ends its method's attribute loop or the whole of Perform. */
  predicate Halts(c: Case)
  {
    Escapes(c) || (Fails(c) && c.attribute.isFatal)
  }

  // ---------------------------------------------------------------------------
  // One attribute pass

  /**
   * A skipped run writes nothing and counts nothing; any other run writes its
   * "Now testing" line first and counts one test, and one failure exactly when
   * it fails; it breaks the loop exactly when it fails and is fatal, in which
   * case no blank separator follows its report.
   */
  lemma RunCaseEffect(name: string, c: Case, t: Tally)
    ensures var r := RunCase(name, c, t);
      && (!Runs(c) ==> r == Continue(t))
      && (Runs(c) ==> r.tally.tests == t.tests + 1 && t.log + ["Now testing " + name] <= r.tally.log)
      && r.tally.fails == (if Fails(c) then t.fails + 1 else t.fails)
      && (r.Break? <==> Fails(c) && c.attribute.isFatal)
      && (r.Escaped? <==> Escapes(c))
      && (r.Break? ==> r.tally.log[|r.tally.log| - 1] != "")
      && (r.Continue? && Runs(c) ==> r.tally.log[|r.tally.log| - 1] == "")
  {
    if Runs(c) {
      var v := Classify(c.attribute.shouldFail, c.invocation);
      if v.Failure? {
        assert v.report[|v.report| - 1] != "";
      }
    }
  }

  /**
   * ShouldFail inverts the outcome: a run expected to fail that throws passes
   * silently, whatever it threw; one that returns is a failure reported as
   * the forced AssertionException's message.
   */
  lemma ShouldFailInverts(name: string, c: Case, t: Tally)
    requires Runs(c) && c.attribute.shouldFail
    ensures c.invocation.Throw? ==>
      RunCase(name, c, t) == Continue(Tally(t.log + ["Now testing " + name] + SuccessLines, t.tests + 1, t.fails))
    ensures c.invocation.Normal? ==>
      var failed := Tally(t.log + ["Now testing " + name, TestFailed, "  -> " + ForcedMessage], t.tests + 1, t.fails + 1);
      RunCase(name, c, t) == if c.attribute.isFatal then Break(failed) else Continue(failed.(log := failed.log + [""]))
  {
    if c.invocation.Normal? {
      FailureStep(name, c, t, [TestFailed, "  -> " + ForcedMessage]);
      assert t.log + ["Now testing " + name] + [TestFailed, "  -> " + ForcedMessage]
          == t.log + ["Now testing " + name, TestFailed, "  -> " + ForcedMessage];
    }
  }

  /** Wrapping by MethodInfo.Invoke changes nothing in how a failure is classified. */
  lemma {:induction false} UnwrapWrapped(e: Exn)
    ensures Unwrap(Wrapped(e)) == Unwrap(e)
  {
  }

  /** A failing AssertionException, however deeply wrapped, is reported with its ToString. */
  lemma AssertionFailureReported(name: string, c: Case, t: Tally, e: Exn)
    requires Runs(c) && !c.attribute.shouldFail
    requires c.invocation.Throw? && Unwrap(c.invocation.exn) == Some(e) && e.kind == AssertionException
    ensures RunCase(name, c, t).tally.log[|t.log|..] ==
      ["Now testing " + name, TestFailed, "  -> " + AssertionText(e)] + (if c.attribute.isFatal then [] else [""])
    ensures RunCase(name, c, t).tally.fails == t.fails + 1
  {
    FailureStep(name, c, t, [TestFailed, "  -> " + AssertionText(e)]);
  }

  /** Any other exception is reported as unexpected, with its Message. */
  lemma UnexpectedErrorReported(name: string, c: Case, t: Tally, e: Exn)
    requires Runs(c) && !c.attribute.shouldFail
    requires c.invocation.Throw? && Unwrap(c.invocation.exn) == Some(e) && !IsSubtype(e.kind, AssertionException)
    ensures RunCase(name, c, t).tally.log[|t.log|..] ==
      ["Now testing " + name, UnexpectedError, "  -> " + e.message] + (if c.attribute.isFatal then [] else [""])
    ensures RunCase(name, c, t).tally.fails == t.fails + 1
  {
    FailureStep(name, c, t, [UnexpectedError, "  -> " + e.message]);
  }

  // ---------------------------------------------------------------------------
  // Whole loops

  /**
   * The attribute loop of one method only appends to the console, counts each
   * run that is not skipped at most once, and counts at most one failure per
   * counted test; without a run whose exception escapes it always finishes.
   */
  lemma {:induction false} RunCasesBounds(name: string, cases: seq<Case>, t: Tally)
    ensures var r := RunCases(name, cases, t);
      && t.log <= r.tally.log && t.tests <= r.tally.tests && t.fails <= r.tally.fails
      && r.tally.fails - t.fails <= r.tally.tests - t.tests <= ActiveCount(cases)
      && (CannotEscape(cases) ==> r.Finished?)
    decreases |cases|
  {
    if |cases| > 0 {
      RunCaseEffect(name, cases[0], t);
      assert CannotEscape(cases) ==> !Escapes(cases[0]);
      assert CannotEscape(cases) ==> CannotEscape(cases[1..]) by {
        forall i | 0 <= i < |cases[1..]| ensures cases[1..][i] == cases[i + 1] { }
      }
      match RunCase(name, cases[0], t)
      case Continue(t') =>
        RunCasesBounds(name, cases[1..], t');
      case Break(t') =>
      case Escaped(t') =>
    }
  }

  lemma {:induction false} RunMethodsBounds(ms: seq<MethodInfo>, t: Tally)
    ensures var r := RunMethods(ms, t);
      && t.log <= r.tally.log && t.tests <= r.tally.tests && t.fails <= r.tally.fails
      && r.tally.fails - t.fails <= r.tally.tests - t.tests <= ActiveInMethods(ms)
      && (MethodsCannotEscape(ms) ==> r.Finished?)
    decreases |ms|
  {
    if |ms| > 0 {
      RunCasesBounds(ms[0].name, ms[0].cases, t);
      assert MethodsCannotEscape(ms) ==> CannotEscape(ms[0].cases);
      assert MethodsCannotEscape(ms) ==> MethodsCannotEscape(ms[1..]) by {
        forall j | 0 <= j < |ms[1..]| ensures ms[1..][j] == ms[j + 1] { }
      }
      match RunCases(ms[0].name, ms[0].cases, t)
      case Finished(t') =>
        RunMethodsBounds(ms[1..], t');
      case Aborted(t') =>
    }
  }

  lemma {:induction false} RunTargetsBounds(ts: seq<Target>, t: Tally)
    ensures var r := RunTargets(ts, t);
      && t.log <= r.tally.log && t.tests <= r.tally.tests && t.fails <= r.tally.fails
      && r.tally.fails - t.fails <= r.tally.tests - t.tests <= ActiveInTargets(ts)
      && (TargetsCannotEscape(ts) ==> r.Finished?)
    decreases |ts|
  {
    if |ts| > 0 {
      RunMethodsBounds(SelectMethods(ts[0]), t);
      assert TargetsCannotEscape(ts) ==> MethodsCannotEscape(SelectMethods(ts[0]));
      assert TargetsCannotEscape(ts) ==> TargetsCannotEscape(ts[1..]) by {
        forall k | 0 <= k < |ts[1..]| ensures ts[1..][k] == ts[k + 1] { }
      }
      match RunMethods(SelectMethods(ts[0]), t)
      case Finished(t') =>
        RunTargetsBounds(ts[1..], t');
      case Aborted(t') =>
    }
  }

  /**
   * Over a whole session: nbfails <= nbtests <= the number of runs that are
   * not skipped; unless an exception left Perform the console ends with the
   * summary line, and no exception leaves it when no run's exception escapes.
   */
  lemma SessionCounts(objects: seq<Target>, tests: TypeInfo)
    ensures var r := Session(objects, tests);
      && r.fails <= r.tests <= ActiveInTargets(Targets(objects, tests))
      && (!r.escaped ==> |r.console| > 0 && r.console[|r.console| - 1] == SummaryLine(r.tests, r.fails))
      && (TargetsCannotEscape(Targets(objects, tests)) ==> !r.escaped)
  {
    RunTargetsBounds(Targets(objects, tests), Tally([], 0, 0));
  }

  /**
   * When no run halts, the attribute loop counts every run that is not
   * skipped exactly once and every failing one exactly once.
   */
  lemma {:induction false} CountsExact(name: string, cases: seq<Case>, t: Tally)
    requires forall i :: 0 <= i < |cases| ==> !Halts(cases[i])
    ensures RunCases(name, cases, t).Finished?
    ensures RunCases(name, cases, t).tally.tests == t.tests + ActiveCount(cases)
    ensures RunCases(name, cases, t).tally.fails == t.fails + FailCount(cases)
    decreases |cases|
  {
    if |cases| > 0 {
      RunCaseEffect(name, cases[0], t);
      assert !Halts(cases[0]);
      forall i | 0 <= i < |cases[1..]| ensures !Halts(cases[1..][i]) {
        assert cases[1..][i] == cases[i + 1];
      }
      CountsExact(name, cases[1..], RunCase(name, cases[0], t).tally);
    }
  }

  /** Skipped runs leave the attribute loop with nothing written and nothing counted. */
  lemma {:induction false} SkippedRunsAreInert(name: string, cases: seq<Case>, t: Tally)
    requires forall i :: 0 <= i < |cases| ==> !Runs(cases[i])
    ensures RunCases(name, cases, t) == Finished(t)
    decreases |cases|
  {
    if |cases| > 0 {
      assert !Runs(cases[0]);
      forall i | 0 <= i < |cases[1..]| ensures !Runs(cases[1..][i]) {
        assert cases[1..][i] == cases[i + 1];
      }
      SkippedRunsAreInert(name, cases[1..], t);
    }
  }

  /**
   * A fatal failure ends its method's attribute loop: the runs attached after
   * it are neither invoked nor counted nor mentioned on the console.
   */
  lemma {:induction false} FatalDropsRestOfMethod(name: string, before: seq<Case>, c: Case, after: seq<Case>, t: Tally)
    requires forall i :: 0 <= i < |before| ==> !Halts(before[i])
    requires Fails(c) && c.attribute.isFatal
    ensures RunCases(name, before + [c] + after, t) == RunCases(name, before + [c], t)
    ensures RunCases(name, before + [c] + after, t).Finished?
    decreases |before|
  {
    if |before| == 0 {
      RunCaseEffect(name, c, t);
      assert (before + [c] + after)[0] == c && (before + [c])[0] == c;
    } else {
      var c0 := before[0];
      RunCaseEffect(name, c0, t);
      assert !Halts(c0);
      assert (before + [c] + after)[0] == c0 && (before + [c])[0] == c0;
      assert (before + [c] + after)[1..] == before[1..] + [c] + after;
      assert (before + [c])[1..] == before[1..] + [c];
      forall i | 0 <= i < |before[1..]| ensures !Halts(before[1..][i]) {
        assert before[1..][i] == before[i + 1];
      }
      FatalDropsRestOfMethod(name, before[1..], c, after, RunCase(name, c0, t).tally);
    }
  }

  /**
   * A fatal failure does not end the method loop: once a method's attribute
   * loop has finished, for whatever reason, the next methods run.
   */
  lemma FatalKeepsLaterMethods(m: MethodInfo, ms: seq<MethodInfo>, t: Tally)
    requires RunCases(m.name, m.cases, t).Finished?
    ensures RunMethods([m] + ms, t) == RunMethods(ms, RunCases(m.name, m.cases, t).tally)
  {
    assert ([m] + ms)[0] == m && ([m] + ms)[1..] == ms;
  }

  /**
   * A fatal failure in a method ends only that method: its later runs are
   * dropped, and the next methods run from the state the failure left.
   */
  lemma FatalThenNextMethod(m: MethodInfo, before: seq<Case>, c: Case, after: seq<Case>, ms: seq<MethodInfo>, t: Tally)
    requires m.cases == before + [c] + after
    requires forall i :: 0 <= i < |before| ==> !Halts(before[i])
    requires Fails(c) && c.attribute.isFatal
    ensures RunMethods([m] + ms, t) == RunMethods(ms, RunCases(m.name, before + [c], t).tally)
  {
    FatalDropsRestOfMethod(m.name, before, c, after, t);
    FatalKeepsLaterMethods(m, ms, t);
  }

  /** Running targets one list after another is running the concatenated list. */
  lemma {:induction false} RunTargetsAppend(a: seq<Target>, b: seq<Target>, t: Tally)
    ensures RunTargets(a + b, t) == ThenTargets(RunTargets(a, t), b)
    decreases |a|
  {
    if |a| == 0 {
      assert a + b == b;
    } else {
      assert (a + b)[0] == a[0] && (a + b)[1..] == a[1..] + b;
      match RunMethods(SelectMethods(a[0]), t)
      case Finished(t') =>
        RunTargetsAppend(a[1..], b, t');
      case Aborted(t') =>
    }
  }

  /** A null entry among the targets is passed over. */
  lemma NullTargetIgnored(before: seq<Target>, after: seq<Target>, t: Tally)
    ensures RunTargets(before + [Null] + after, t) == RunTargets(before + after, t)
  {
    RunTargetsAppend(before, [Null] + after, t);
    RunTargetsAppend(before, after, t);
    assert before + [Null] + after == before + ([Null] + after);
    assert ([Null] + after)[0] == Null && ([Null] + after)[1..] == after;
    match RunTargets(before, t)
    case Finished(t') =>
      assert RunTargets([Null] + after, t') == RunTargets(after, t');
    case Aborted(_) =>
  }

  /** The caller's targets run first, then the harness's own class. */
  lemma HarnessRunsLast(objects: seq<Target>, tests: TypeInfo, t: Tally)
    ensures RunTargets(Targets(objects, tests), t) == ThenTargets(RunTargets(objects, t), [TypeObject(tests)])
  {
    RunTargetsAppend(objects, [TypeObject(tests)], t);
  }

  // ---------------------------------------------------------------------------
  // The summary line

  predicate EndsWith(s: string, suffix: string)
  {
    |suffix| <= |s| && s[|s| - |suffix|..] == suffix
  }

  /** The ending of a verdict "<head> test<s> successful." depends on the plural mark alone. */
  lemma VerdictEnding(head: string, mark: string)
    requires mark == "s" || mark == ""
    ensures EndsWith(head + " test" + mark + " successful.", "tests successful.") <==> mark == "s"
    ensures EndsWith(head + " test" + mark + " successful.", " successful.")
  {
    var line := head + " test" + mark + " successful.";
    assert line[|line| - 12..] == " successful.";
    if mark == "s" {
      assert line[|line| - 17..] == "tests successful.";
    } else {
      assert line[|line| - 17..] == " test successful.";
    }
  }

  /**
   * Whenever a verdict follows the prefix, "tests" is plural exactly when more
   * than one test passed, whatever the total.
   */
  lemma SummaryPlural(tests: int, fails: int)
    requires fails == 0 || tests != 0
    ensures EndsWith(SummaryLine(tests, fails), "tests successful.") <==> tests - fails > 1
    ensures EndsWith(SummaryLine(tests, fails), " successful.")
  {
    var mark := Plural(tests - fails);
    var head := if fails == 0 then SummaryPrefix + "all" else SummaryPrefix + IntToString(tests - fails) + "/" + IntToString(tests);
    assert SummaryLine(tests, fails) == head + " test" + mark + " successful.";
    VerdictEnding(head, mark);
  }

  /** With nbfails <= nbtests the else branch without a verdict is never taken. */
  lemma SummaryHasVerdict(tests: nat, fails: nat)
    requires fails <= tests
    ensures SummaryLine(tests, fails) != SummaryPrefix
    ensures fails == 0 ==> SummaryLine(tests, fails) == SummaryPrefix + "all test" + Plural(tests) + " successful."
    ensures fails > 0 ==> tests > 0
  {
    if fails == 0 {
      assert |SummaryLine(tests, fails)| > |SummaryPrefix|;
    } else {
      assert |SummaryLine(tests, fails)| > |SummaryPrefix|;
    }
  }

  /** The boundary wordings: the plural follows the number of passed tests. */
  lemma SummaryExamples()
    ensures SummaryLine(0, 0) == "Unit tests session over: all test successful."
    ensures SummaryLine(1, 0) == "Unit tests session over: all test successful."
    ensures SummaryLine(2, 0) == "Unit tests session over: all tests successful."
    ensures SummaryLine(2, 1) == "Unit tests session over: 1/2 test successful."
    ensures SummaryLine(3, 1) == "Unit tests session over: 2/3 tests successful."
  {
    assert IntToString(1) == "1" && IntToString(2) == "2" && IntToString(3) == "3";
  }

  // ---------------------------------------------------------------------------
  // Whole sessions

  /** The harness's own class: the one skipped Template method. */
  const Harness: TypeInfo :=
    TypeInfo("Tests", [MethodInfo("Void Template()", true, [Case(NewTestAttribute([]).(skip := true), Normal)])])

  /** With nothing else to test, the harness reports an empty run as a full success. */
  lemma HarnessAlone()
    ensures Session([], Harness) == SessionResult(["Unit tests session over: all test successful."], 0, 0, false)
  {
    var t0 := Tally([], 0, 0);
    var m := Harness.methods[0];
    assert Targets([], Harness) == [TypeObject(Harness)];
    assert SelectMethods(TypeObject(Harness)) == [m];
    assert RunCase(m.name, m.cases[0], t0) == Continue(t0);
    assert RunCases(m.name, m.cases, t0) == Finished(t0);
    assert RunMethods([m], t0) == Finished(t0);
    assert RunTargets([TypeObject(Harness)], t0) == Finished(t0);
    SummaryExamples();
  }

  /** The call site of the failing assertion in the scenario below. */
  const Caller: Frame := Frame(Some("Program.cs"), 12, 9)

  /** A static method whose first run fails an assertion fatally; its second run would pass. */
  const FirstMethod: MethodInfo := MethodInfo("Void First()", true,
    [ Case(NewTestAttribute([]).(isFatal := true), Assert(false, Some("bad"), Caller)),
      Case(NewTestAttribute([]), Normal) ])

  /** A static method whose one run passes. */
  const SecondMethod: MethodInfo := MethodInfo("Void Second()", true, [Case(NewTestAttribute([]), Normal)])

  const ProgramType: TypeInfo := TypeInfo("Program", [FirstMethod, SecondMethod])

  /** The failure FirstMethod's first run throws. */
  const FirstFailure: Exn := NewAssertionException("bad", None, Some(Caller))

  /** The fatal failure ends FirstMethod after one counted, failed test and its report. */
  lemma FirstMethodRun(t: Tally)
    ensures RunCases(FirstMethod.name, FirstMethod.cases, t) ==
      Finished(Tally(t.log + ["Now testing " + FirstMethod.name, TestFailed, "  -> " + AssertionText(FirstFailure)], t.tests + 1, t.fails + 1))
  {
    var c := FirstMethod.cases[0];
    assert c.invocation == Throw(FirstFailure);
    assert !IsSubtype(AssertionException, TargetInvocationException);
    assert Classify(c.attribute.shouldFail, c.invocation) == Failure([TestFailed, "  -> " + AssertionText(FirstFailure)]);
    FailureStep(FirstMethod.name, c, t, [TestFailed, "  -> " + AssertionText(FirstFailure)]);
  }

  /** SecondMethod's run passes. */
  lemma SecondMethodRun(t: Tally)
    ensures RunCases(SecondMethod.name, SecondMethod.cases, t) ==
      Finished(Tally(t.log + ["Now testing " + SecondMethod.name] + SuccessLines, t.tests + 1, t.fails))
  {
    var c := SecondMethod.cases[0];
    assert Classify(c.attribute.shouldFail, c.invocation) == Success;
    SuccessStep(SecondMethod.name, c, t);
    assert SecondMethod.cases[1..] == [];
  }

  /** The harness's Template method is skipped, whatever came before. */
  lemma HarnessRun(t: Tally)
    ensures RunTargets([TypeObject(Harness)], t) == Finished(t)
  {
    var m := Harness.methods[0];
    assert SelectMethods(TypeObject(Harness)) == [m];
    assert RunCases(m.name, m.cases, t) == Finished(t);
    assert RunMethods([m], t) == Finished(t);
  }

  /**
   * A fatal failure in one method does not stop the next: FirstMethod loses
   * its second run, SecondMethod still runs and passes, and the summary
   * counts one pass out of two tests.
   */
  lemma FatalScenario()
    ensures Session([TypeObject(ProgramType)], Harness) == SessionResult(
      [ "Now testing " + FirstMethod.name, TestFailed, "  -> " + AssertionText(FirstFailure),
        "Now testing " + SecondMethod.name ] + SuccessLines + [SummaryLine(2, 1)], 2, 1, false)
  {
    var t0 := Tally([], 0, 0);
    FirstMethodRun(t0);
    var t1 := RunCases(FirstMethod.name, FirstMethod.cases, t0).tally;
    SecondMethodRun(t1);
    var t2 := RunCases(SecondMethod.name, SecondMethod.cases, t1).tally;
    assert SelectMethods(TypeObject(ProgramType)) == [FirstMethod, SecondMethod];
    assert [FirstMethod, SecondMethod][1..] == [SecondMethod];
    assert RunMethods([SecondMethod], t1) == Finished(t2);
    assert RunMethods([FirstMethod, SecondMethod], t0) == Finished(t2);
    var ts := Targets([TypeObject(ProgramType)], Harness);
    assert ts == [TypeObject(ProgramType), TypeObject(Harness)] && ts[1..] == [TypeObject(Harness)];
    HarnessRun(t2);
    assert RunTargets(ts, t0) == Finished(t2);
  }
}
