/**
 * The assertion primitives test bodies call: Assert and the two AssertException
 * overloads, built from the semantics of C#'s try/catch so that a failure the
 * primitive throws inside its own `try` meets that statement's own catch clauses.
 */
module Assertions {
  import opened Wrappers
  import opened Exceptions

  /** `first; second`: the second statement runs only if the first completes normally. */
  function Then(first: Completion, second: Completion): (r: Completion)
    ensures first.Throw? ==> r == first
    ensures first.Normal? ==> r == second
  {
    if first.Throw? then first else second
  }

  /** One clause `catch (Filter e) { handler }` of a try statement. */
  datatype CatchClause = CatchClause(filter: ExceptionType, handler: Exn -> Completion)

  /** The clause `i` is the first whose filter the class `t` derives from. */
  predicate FirstMatch(t: ExceptionType, clauses: seq<CatchClause>, i: nat)
  {
    i < |clauses| && IsSubtype(t, clauses[i].filter)
    && forall j :: 0 <= j < i ==> !IsSubtype(t, clauses[j].filter)
  }

  /**
   * `try { body } catch ...`: a normal completion passes through; a thrown
   * exception goes to the first clause whose filter it derives from, and
   * propagates unchanged when no clause matches.
   */
  function TryCatch(body: Completion, clauses: seq<CatchClause>): (r: Completion)
    ensures body.Normal? ==> r == Normal
    ensures body.Throw? ==> forall i: nat :: FirstMatch(body.exn.kind, clauses, i) ==> r == clauses[i].handler(body.exn)
    ensures body.Throw? && (forall i :: 0 <= i < |clauses| ==> !IsSubtype(body.exn.kind, clauses[i].filter)) ==> r == body
    decreases |clauses|
  {
    if body.Normal? || |clauses| == 0 then body
    else if IsSubtype(body.exn.kind, clauses[0].filter) then clauses[0].handler(body.exn)
    else
      var r := TryCatch(body, clauses[1..]);
      assert forall i: nat :: FirstMatch(body.exn.kind, clauses, i) ==> i > 0 && FirstMatch(body.exn.kind, clauses[1..], i - 1);
      r
  }

  const AssertionFailed: string := "Assertion failed."
  const DidNotFail: string := "Expected action to fail, but it did not."

  /** Message of AssertException<T> when the action threw an exception of class `actual`. */
  function WrongTypeMessage(expected: ExceptionType, actual: ExceptionType): string
  {
    "Expected an exception of type " + Name(expected) + ", but got an exception of type " + Name(actual) + "."
  }

  /**
   * `Assert(assertion, message)` called from `caller`: nothing happens when the
   * condition holds; otherwise an AssertionException with the message (or the
   * default one) and the caller's frame is thrown.
   */
  function Assert(assertion: bool, message: Option<string>, caller: Frame): (r: Completion)
    ensures r.Normal? <==> assertion
    ensures r.Throw? ==> r.exn.kind == AssertionException && r.exn.inner.None? && r.exn.frame == Some(caller)
    ensures r.Throw? && message.Some? ==> r.exn.message == message.value
    ensures r.Throw? && message.None? ==> r.exn.message == AssertionFailed
  {
    if !assertion then Throw(NewAssertionException(Coalesce(message, AssertionFailed), None, Some(caller)))
    else Normal
  }

  /** The failure AssertException throws, inside its `try`, after an action that returned. */
  function DidNotFailException(message: Option<string>, caller: Frame): Exn
  {
    NewAssertionException(Coalesce(message, DidNotFail), None, Some(caller))
  }

  /**
   * `AssertException<T>(action, message)` as written: the action and the
   * "did not fail" throw share one try statement, whose clauses are `catch (T)`
   * (swallow) and `catch (Exception e)` (throw a wrong-type AssertionException
   * wrapping `e`).
   */
  function AssertExceptionOf(t: ExceptionType, action: Completion, message: Option<string>, caller: Frame): (r: Completion)
    ensures r.Normal? <==>
      (action.Throw? && IsSubtype(action.exn.kind, t)) || (action.Normal? && IsSubtype(AssertionException, t))
    ensures r.Throw? ==> r.exn.kind == AssertionException && r.exn.frame == Some(caller)
    ensures r.Throw? && action.Throw? ==>
      r.exn.inner == Some(action.exn) && r.exn.message == Coalesce(message, WrongTypeMessage(t, action.exn.kind))
    ensures r.Throw? && action.Normal? ==>
      r.exn.inner == Some(DidNotFailException(message, caller))
      && r.exn.message == Coalesce(message, WrongTypeMessage(t, AssertionException))
  {
    var body := Then(action, Throw(DidNotFailException(message, caller)));
    var thrown := body.exn;
    EveryTypeIsException(thrown.kind);
    assert !IsSubtype(thrown.kind, t) ==> FirstMatch(thrown.kind, WrongTypeClauses(t, message, caller), 1);
    assert IsSubtype(thrown.kind, t) ==> FirstMatch(thrown.kind, WrongTypeClauses(t, message, caller), 0);
    TryCatch(body, WrongTypeClauses(t, message, caller))
  }

  /** The catch clauses of AssertException<T>. */
  function WrongTypeClauses(t: ExceptionType, message: Option<string>, caller: Frame): seq<CatchClause>
  {
    [ CatchClause(t, (e: Exn) => Normal),
      CatchClause(Exception, (e: Exn) => Throw(NewAssertionException(Coalesce(message, WrongTypeMessage(t, e.kind)), Some(e), Some(caller)))) ]
  }

  /**
   * `AssertException(action, message)` as written: the same try statement
   * with one bare `catch`, which also catches the "did not fail" failure.
   */
  function AssertExceptionAny(action: Completion, message: Option<string>, caller: Frame): Completion
  {
    TryCatch(Then(action, Throw(DidNotFailException(message, caller))), [CatchClause(Exception, e => Normal)])
  }

  /** The untyped AssertException never throws, whatever the action does. */
  lemma AssertExceptionAnyNeverFails(action: Completion, message: Option<string>, caller: Frame)
    ensures AssertExceptionAny(action, message, caller) == Normal
  {
    var body := Then(action, Throw(DidNotFailException(message, caller)));
    EveryTypeIsException(body.exn.kind);
    assert FirstMatch(body.exn.kind, [CatchClause(Exception, e => Normal)], 0);
  }

  /**
   * AssertException<T> passes an action that returns normally when
   * AssertionException derives from T (T = Exception or AssertionException).
   */
  lemma AssertExceptionOfCatchesOwnFailure(t: ExceptionType, message: Option<string>, caller: Frame)
    requires IsSubtype(AssertionException, t)
    ensures AssertExceptionOf(t, Normal, message, caller) == Normal
  {
  }

  /**
   * AssertException<T> as its documentation describes it: the "did not fail"
   * failure thrown after the try statement, so that only the action's own
   * exception meets the catch clauses.
   */
  function AssertExceptionOfIntended(t: ExceptionType, action: Completion, message: Option<string>, caller: Frame): (r: Completion)
    ensures r.Normal? <==> action.Throw? && IsSubtype(action.exn.kind, t)
    ensures action.Normal? ==> r == Throw(DidNotFailException(message, caller))
    ensures r.Throw? && action.Throw? ==>
      r.exn.kind == AssertionException && r.exn.inner == Some(action.exn)
      && r.exn.message == Coalesce(message, WrongTypeMessage(t, action.exn.kind))
  {
    if action.Normal? then Throw(DidNotFailException(message, caller))
    else
      EveryTypeIsException(action.exn.kind);
      assert !IsSubtype(action.exn.kind, t) ==> FirstMatch(action.exn.kind, WrongTypeClauses(t, message, caller), 1);
      assert IsSubtype(action.exn.kind, t) ==> FirstMatch(action.exn.kind, WrongTypeClauses(t, message, caller), 0);
      TryCatch(action, WrongTypeClauses(t, message, caller))
  }

  /** The untyped AssertException as documented: passes exactly when the action throws. */
  function AssertExceptionAnyIntended(action: Completion, message: Option<string>, caller: Frame): (r: Completion)
    ensures r.Normal? <==> action.Throw?
    ensures action.Normal? ==> r == Throw(DidNotFailException(message, caller))
  {
    if action.Normal? then Throw(DidNotFailException(message, caller))
    else
      EveryTypeIsException(action.exn.kind);
      assert FirstMatch(action.exn.kind, [CatchClause(Exception, e => Normal)], 0);
      TryCatch(action, [CatchClause(Exception, e => Normal)])
  }

  /** Where the intended and the written AssertException<T> agree: on every action that throws. */
  lemma AssertExceptionOfAgreesOnThrow(t: ExceptionType, action: Completion, message: Option<string>, caller: Frame)
    requires action.Throw?
    ensures AssertExceptionOf(t, action, message, caller) == AssertExceptionOfIntended(t, action, message, caller)
  {
  }

  /**
   * TargetInvocationException derives from ApplicationException, so
   * AssertException<ApplicationException> swallows a wrapped exception.
   */
  lemma ApplicationExceptionCatchesWrapper(inner: Exn, message: Option<string>, caller: Frame)
    ensures AssertExceptionOf(ApplicationException, Throw(Wrapped(inner)), message, caller) == Normal
  {
    assert BaseType(TargetInvocationException) == Some(ApplicationException);
  }
}
