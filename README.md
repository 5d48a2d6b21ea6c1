# A verified model of the `Tests` unit-test harness

The repository ships a small, hand-written unit-test harness. It comes in two
nearly identical copies, `2017-12-15/PokemonException.cs` and `Template.cs`, and
this project models both with one Dafny model.

- **`Tests.Perform(objects)`** walks its targets: the given objects, then the
  harness's own class `Tests`. For each target it walks the methods reflection
  returns, and for each method it walks the `[Test]` attributes attached to it.
  - Each attribute is one run. It is skipped, or the method is invoked.
  - The outcome is reconciled with `ShouldFail`, the counters `nbtests` and
    `nbfails` are kept, and fixed lines are written to the console.
  - A failing `IsFatal` run ends the attribute loop of its method.
  - The session ends with the line `Unit tests session over: ...`.
- **`Assert`, `AssertException<T>` and `AssertException`** are the assertion
  primitives. They are modelled on top of an explicit semantics of C#'s
  `try`/`catch`, so the "did not fail" failure each primitive throws inside its
  own `try` block meets that block's own catch clauses.
- **`AssertionException.ToString`** puts the message behind
  `(file :: line:column) `, or returns the message alone when there is no frame.
- **`TestAttribute`** holds the three flags, which default to false, and the
  argument array.

Modules:

- `Wrappers` (`wrappers.dfy`): `Option` and C#'s `??`.
- `Decimal` (`decimal.dfy`): decimal formatting of the counters and frame positions.
- `Exceptions` (`exceptions.dfy`): exception classes with single inheritance, exception objects, completions, `AssertionException.ToString`.
- `Assertions` (`assertions.dfy`): `try`/`catch` and the three primitives, as written and as intended.
- `TestAttributes` (`attributes.dfy`): the attribute.
- `Runner` (`runner.dfy`): the reference definitions of one run, of the three nested loops and of a whole session. It also holds the imperative `Perform`, split into `RunTest` (one attribute pass), `TestTarget` (the method and attribute loops of one target) and `Perform` (the target loop and the summary). Each method is proved equal to its reference definition.
- `RunnerProperties` (`properties.dfy`): what a session guarantees (counting, fatal failures, null targets, summary wording) and two whole sessions worked out.

Reflection is replaced by data.

- A target is `Null`, a `TypeObject` or an `Instance` of a class.
- A class lists its methods in the order `GetMethods` returns them.
- A method lists its runs, one per attached attribute. The order `GetCustomAttributes` returns them in is an input, as .NET does not fix it.
- Each run pairs an attribute with the completion of `method.Invoke`: it returns normally, or it throws an exception, possibly wrapped in `TargetInvocationException` layers.
- The console is the sequence of lines the harness itself writes. `Console.Write` of the summary prefix and the `WriteLine` after it form one line. Output of the test methods themselves is not part of it (see Left out).

Where a doc comment and the code disagree, the model follows the code:

- **Fatal failures.** The `TestAttribute.IsFatal` comment says a fatal failure skips all following tests. The `break` leaves only the attribute loop of the current method. Later methods and targets still run (`FatalThenNextMethod`, `FatalScenario`).
- **The untyped `AssertException`.** Its doc example says it fails when the action does not throw. It never fails (see Findings).

A `TargetInvocationException` without an inner exception leaves `e` null after the peel loop. `"  Unexpected error in test."` is still written, and then `e.Message` throws a `NullReferenceException` out of `Perform`. The model reports this as an escaped session: the console ends after that line, and no summary line is written.

## Model

| member | source | states |
|---|---|---|
| Runner.Perform | 2017-12-15/PokemonException.cs:180-272 | The imperative session, with its target loop, `continue` on null targets and the summary branches: its console, counters and escape flag are exactly those of `Session` |
| Runner.TestTarget | 2017-12-15/PokemonException.cs:195-258 | The nested method and attribute loops of one non-null target, with `break` on a fatal failure and return on an escaping exception: the result is exactly `RunMethods` of the target's methods |
| Runner.RunTest | 2017-12-15/PokemonException.cs:198-257 | One imperative attribute pass, with skip, `forcedFail`, the two catch clauses, the peel loop, `nbfails++`, `break` and the blank line: the result is exactly `RunCase` |
| Runner.Classify | 2017-12-15/PokemonException.cs:209-249 | A run passes exactly when it threw and `ShouldFail` holds. An unexpected normal return is reported as the forced message. Otherwise the unwrapped exception is reported: an AssertionException as "  Test failed." and its ToString, any other class as "  Unexpected error in test." and its Message. It escapes exactly when unwrapping finds no inner exception |
| Runner.Unwrap | 2017-12-15/PokemonException.cs:231-232 | Peels TargetInvocationException layers. The result is never a wrapper, a non-wrapper is kept as it is, and a wrapper without an inner exception gives none |
| Runner.ForcedFailureUnwraps | Template.cs:86 | The forced should-fail AssertionException is no wrapper and has no frame, so its reported text is exactly its message |
| Runner.SelectMethods | Template.cs:51-58 | A Type object contributes exactly its class's static methods and an instance exactly its instance methods; null contributes none |
| Runner.Receiver | Template.cs:69 | A static method (a method of a Type target) is invoked with no receiver, an instance method on the target itself |
| RunnerProperties.RunCaseEffect | 2017-12-15/PokemonException.cs:198-257 | A skipped run changes nothing. Any other run writes "Now testing" first and counts exactly one test. It counts a failure exactly when it fails, breaks exactly when it fails and is fatal (with no blank line after the report), and escapes exactly when its exception cannot be reported |
| RunnerProperties.ShouldFailInverts | 2017-12-15/PokemonException.cs:211-228 | With ShouldFail, any exception passes without a failure, and a normal return is one failure reported as "  -> Excepted test to fail, but it succeeded." |
| RunnerProperties.UnwrapWrapped | 2017-12-15/PokemonException.cs:231-232 | A TargetInvocationException layer added by Invoke does not change what is reported |
| RunnerProperties.AssertionFailureReported | 2017-12-15/PokemonException.cs:234-241 | An AssertionException behind any number of wrappers writes "  Test failed." and "  -> " with its ToString, and counts a failure |
| RunnerProperties.UnexpectedErrorReported | 2017-12-15/PokemonException.cs:242-249 | Any other exception writes "  Unexpected error in test." and "  -> " with its Message, and counts a failure |
| RunnerProperties.SkippedRunsAreInert | 2017-12-15/PokemonException.cs:198-199 | Skipped runs write nothing, invoke nothing and leave both counters unchanged |
| RunnerProperties.RunCasesBounds | 2017-12-15/PokemonException.cs:196-258 | The attribute loop only appends to the console. It counts at most one test per non-skipped run and at most one failure per counted test, and it always finishes when no run can escape |
| RunnerProperties.RunMethodsBounds | 2017-12-15/PokemonException.cs:195-258 | The same bounds over all the methods of a target |
| RunnerProperties.RunTargetsBounds | 2017-12-15/PokemonException.cs:188-259 | The same bounds over all targets |
| RunnerProperties.SessionCounts | 2017-12-15/PokemonException.cs:180-272 | nbfails <= nbtests <= the number of non-skipped runs. Unless an exception escaped, the console ends with the summary line for the final counters, and none escapes when no run's exception can |
| RunnerProperties.CountsExact | Template.cs:59-67 | Without a fatal failure or an escape, a method with several attributes runs once per attribute: every non-skipped run counts exactly once, and every failing one adds exactly one failure |
| RunnerProperties.FatalDropsRestOfMethod | 2017-12-15/PokemonException.cs:252-257 | After a fatal failure, the remaining runs of the same method are neither invoked, counted nor written |
| RunnerProperties.FatalThenNextMethod | 2017-12-15/PokemonException.cs:252-258 | A fatal failure inside a method drops that method's later runs, and the next methods then run from the state the failure left: the `break` leaves only the attribute loop |
| RunnerProperties.RunTargetsAppend | 2017-12-15/PokemonException.cs:188 | Running two lists of targets in sequence is running their concatenation |
| RunnerProperties.NullTargetIgnored | Template.cs:51-56 | A null entry among the targets changes nothing |
| RunnerProperties.HarnessRunsLast | Template.cs:51 | The given objects are tested first and the harness's own class last |
| RunnerProperties.SummaryPlural | 2017-12-15/PokemonException.cs:261-269 | Whenever a verdict follows the prefix, it ends in " successful.", and "tests" is plural exactly when more than one test passed |
| RunnerProperties.SummaryHasVerdict | Template.cs:134-139 | With nbfails <= nbtests, the line always has a verdict, a failure implies a test ran, and no failures gives "all test[s] successful." |
| RunnerProperties.SummaryExamples | Template.cs:134-139 | 0/0 and 1/0 give "all test successful.", 2/0 "all tests successful.", 1 pass of 2 "1/2 test successful." and 2 of 3 "2/3 tests successful." |
| RunnerProperties.HarnessAlone | Template.cs:20-23 | With no objects, the only attribute is the harness's skipped Template, and the console is the single line "Unit tests session over: all test successful." |
| RunnerProperties.FatalScenario | Template.cs:79-128 | A fatal assertion failure in one static method drops that method's second run, the next method still runs and passes, and the session ends with 2 tests, 1 failure and the 1/2 summary |
| Assertions.TryCatch | 2017-12-15/PokemonException.cs:304-317 | A normal completion passes through a try statement; an exception goes to the first clause whose class it derives from, or propagates unchanged when none matches |
| Assertions.Assert | 2017-12-15/PokemonException.cs:285-289 | Returns exactly when the condition holds; otherwise throws an AssertionException with the message (default "Assertion failed."), no inner exception and the caller's frame |
| Assertions.AssertExceptionOf | 2017-12-15/PokemonException.cs:302-318 | As written. Returns exactly when the action throws a T, or returns normally while AssertionException derives from T. Otherwise throws an AssertionException with the caller's frame, wrapping the action's exception (or the "did not fail" failure) and naming its class |
| Assertions.AssertExceptionAnyNeverFails | Template.cs:200-212 | As written, the untyped AssertException never throws, whatever the action does |
| Assertions.AssertExceptionOfCatchesOwnFailure | Template.cs:172-188 | As written, AssertException<T> passes an action that returns normally whenever AssertionException derives from T |
| Assertions.AssertExceptionOfIntended | 2017-12-15/PokemonException.cs:302-318 | Corrected: passes exactly when the action throws a T; a normal return throws the "did not fail" failure; another class is reported with the action's exception as inner |
| Assertions.AssertExceptionAnyIntended | 2017-12-15/PokemonException.cs:330-342 | Corrected: passes exactly when the action throws; a normal return throws the "did not fail" failure |
| Assertions.AssertExceptionOfAgreesOnThrow | 2017-12-15/PokemonException.cs:304-317 | On every action that throws, the code as written and the corrected version agree |
| Assertions.ApplicationExceptionCatchesWrapper | 2017-12-15/PokemonException.cs:310-313 | `catch (T)` with T = ApplicationException catches a TargetInvocationException, which derives from it, so AssertException<ApplicationException> passes a wrapped exception |
| Exceptions.NewAssertionException | 2017-12-15/PokemonException.cs:397-399 | The constructed exception has class AssertionException and exactly the given message, inner exception and frame |
| Exceptions.AssertionTextShape | 2017-12-15/PokemonException.cs:401-409 | ToString always ends with the message; without a frame it is the message; with a frame it starts with "(" |
| Exceptions.EveryTypeIsException | 2017-12-15/PokemonException.cs:229 | Every exception class derives from Exception, so `catch (Exception e)` catches everything a test can throw |
| TestAttributes.NewTestAttribute | Template.cs:227-250 | IsFatal, ShouldFail and Skip default to false, and Arguments is exactly the constructor's params array |
| Decimal.IntToString | 2017-12-15/PokemonException.cs:269 | The decimal text of a counter is non-empty, has a leading '-' exactly for negative values, and is the plain digits otherwise |
| Decimal.ParseNatToString | 2017-12-15/PokemonException.cs:408 | The decimal text of a line or column number reads back as that number |

## Left out

- Reflection (`GetMethods`, `GetCustomAttributes`, `MethodInfo.Invoke`) is replaced by data. The method order `GetMethods` returns is an input, because .NET does not fix it. The completion of each invocation is given per run, so an argument-count mismatch is just a given non-assertion exception.
- The receiver passed to `Invoke` is computed (`Runner.Receiver`), but it cannot influence the run: each run's completion is given.
- The text of `MethodInfo.ToString` in "Now testing {0}" is an opaque name.
- Console colours and `Console.ResetColor` are not modelled; the console is a sequence of lines.
- `Output` and `Output<T>` (2017-12-15/PokemonException.cs:112-156) are not modelled. They redirect the process-wide `Console.Out`, which is I/O plumbing.
- `StackFrame` capture and `Path.GetFileName` are not modelled. A frame is given as an optional file name, already reduced to its last component, plus a line and a column.
- The fixture tests `TestGetterSetter`, `TestPokemon` and `TestTrain` (2017-12-15/PokemonException.cs:28-103) are not modelled. They exercise classes that are not part of this model.
- Runner.Perform: `nbtests` and `nbfails` are C# `int`s but are modelled unbounded, so wrap-around after 2^31 runs is not captured.
- Console output written by the test methods themselves during `method.Invoke` is not modelled. In the source it appears between "Now testing" and the result lines, and a trailing `Console.Write` would share a line with the result. The console equalities stated for one run and for the scenarios therefore describe tests that print nothing.
- `Tests.Perform(null)` is not modelled. C# binds the null to the `params` array itself, and `objects.Concat` throws an ArgumentNullException before any line is written; a sequence of targets cannot be null. Null entries inside the array are modelled (`RunnerProperties.NullTargetIgnored`).
- Exceptions.AssertionTextShape: states the shape of ToString (message at the end, the bare message without a frame, the opening parenthesis), not the full `(file :: line:column) ` layout. The layout is the definition of `Exceptions.AssertionText`.
- The two copies differ only in form: `PrintSuccess` is a private static method in one and a local function in the other, and the peel loop uses an `as` cast in one and a pattern in the other. The model covers both.

## Findings

| source | as written | input that shows it | evidently intended | confidence | as-written member | corrected member |
|---|---|---|---|---|---|---|
| Template.cs:200-212 | The "did not fail" AssertionException is thrown inside the `try`, and the bare `catch` swallows it | An action that returns normally, as in the doc example `AssertException(() => { })` | An action that returns normally makes AssertException throw "Expected action to fail, but it did not." | not executed | Assertions.AssertExceptionAnyNeverFails | Assertions.AssertExceptionAnyIntended |
| 2017-12-15/PokemonException.cs:302-318 | The "did not fail" AssertionException meets `catch (T)`. It is swallowed when AssertionException derives from T, and reported as a wrong-type failure otherwise | T = Exception and an action that returns normally | An action that returns normally always fails with "Expected action to fail, but it did not." | not executed | Assertions.AssertExceptionOfCatchesOwnFailure | Assertions.AssertExceptionOfIntended |
