/**
 * The exceptions the harness raises, catches and reports: the classes it
 * distinguishes with their inheritance, exception objects, how a piece of code
 * completes, and AssertionException with its ToString override.
 */
module Exceptions {
  import opened Wrappers
  import opened Decimal

  /**
   * Exception classes, with single inheritance. AssertionException and
   * TargetInvocationException are the two sealed classes the runner tests for
   * with `is`; TargetInvocationException derives from ApplicationException, as
   * in .NET. Every other class is named and given its base class. The datatype
   * also admits classes derived from the two sealed ones, which C# forbids; no
   * member here builds one.
   */
  datatype ExceptionType =
    | Exception
    | ApplicationException
    | AssertionException
    | TargetInvocationException
    | Other(name: string, base: ExceptionType)

  /** `Type.Name` of the class. */
  function Name(t: ExceptionType): string
  {
    match t
    case Exception => "Exception"
    case ApplicationException => "ApplicationException"
    case AssertionException => "AssertionException"
    case TargetInvocationException => "TargetInvocationException"
    case Other(n, _) => n
  }

  /** Base class, None for System.Exception itself. */
  function BaseType(t: ExceptionType): Option<ExceptionType>
  {
    match t
    case Exception => None
    case ApplicationException => Some(Exception)
    case AssertionException => Some(Exception)
    case TargetInvocationException => Some(ApplicationException)
    case Other(_, b) => Some(b)
  }

  /** Number of base classes above `t`. */
  function Depth(t: ExceptionType): nat
  {
    match t
    case Exception => 0
    case ApplicationException => 1
    case AssertionException => 1
    case TargetInvocationException => 2
    case Other(_, b) => Depth(b) + 1
  }

  /** `t` is `ancestor` or derives from it: what `e is T` and `catch (T)` test. */
  predicate IsSubtype(t: ExceptionType, ancestor: ExceptionType)
    decreases Depth(t)
  {
    t == ancestor || (BaseType(t).Some? && IsSubtype(BaseType(t).value, ancestor))
  }

  /** Every exception class derives from System.Exception. */
  lemma {:induction false} EveryTypeIsException(t: ExceptionType)
    ensures IsSubtype(t, Exception)
    decreases Depth(t)
  {
    if t.Other? {
      EveryTypeIsException(t.base);
    } else if t == TargetInvocationException {
      EveryTypeIsException(ApplicationException);
    }
  }

  /** The StackFrame an assertion captures: file name (null when unknown), line and column. */
  datatype Frame = Frame(file: Option<string>, line: nat, column: nat)

  /**
   * A thrown exception object: its runtime class, Message, InnerException and,
   * for an AssertionException, its Frame property.
   */
  datatype Exn = Exn(kind: ExceptionType, message: string, inner: Option<Exn>, frame: Option<Frame>)

  /** How a statement or a call finishes: normally, or by throwing an exception. */
  datatype Completion = Normal | Throw(exn: Exn)

  /** `new AssertionException(message, inner) { Frame = frame }`. */
  function NewAssertionException(message: string, inner: Option<Exn>, frame: Option<Frame>): (e: Exn)
    ensures e.kind == AssertionException
    ensures e.message == message && e.inner == inner && e.frame == frame
  {
    Exn(AssertionException, message, inner, frame)
  }

  const UnknownFile: string := "<unknown file>"

  /**
   * AssertionException.ToString: the message alone without a frame, otherwise
   * the message behind "(file :: line:column) ".
   */
  function AssertionText(e: Exn): string
  {
    match e.frame
    case None => e.message
    case Some(f) =>
      "(" + Coalesce(f.file, UnknownFile) + " :: " + NatToString(f.line) + ":"
      + NatToString(f.column) + ") " + e.message
  }

  /** The text of an assertion always ends with its message; without a frame it is the message. */
  lemma AssertionTextShape(e: Exn)
    ensures |e.message| <= |AssertionText(e)|
    ensures AssertionText(e)[|AssertionText(e)| - |e.message|..] == e.message
    ensures e.frame.None? ==> AssertionText(e) == e.message
    ensures e.frame.Some? ==> AssertionText(e)[0] == '('
  {
  }

  /** The TargetInvocationException that `MethodInfo.Invoke` wraps around what a test method throws. */
  function Wrapped(inner: Exn): (e: Exn)
    ensures IsSubtype(e.kind, TargetInvocationException) && e.inner == Some(inner)
  {
    Exn(TargetInvocationException, "Exception has been thrown by the target of an invocation.", Some(inner), None)
  }
}
