/** The `[Test]` attribute that marks a method as a test and configures one run of it. */
module TestAttributes {

  /** A constant argument written in `[Test(...)]`. */
  datatype Value = NullValue | BoolValue(b: bool) | IntValue(i: int) | StringValue(s: string)

  /**
   * TestAttribute: IsFatal, ShouldFail and Skip (settable named properties)
   * and the read-only Arguments passed to the method when it is invoked.
   */
  datatype TestAttribute = TestAttribute(isFatal: bool, shouldFail: bool, skip: bool, arguments: seq<Value>)

  /** `new TestAttribute(params arguments)`: every flag off, the arguments kept as given. */
  function NewTestAttribute(arguments: seq<Value>): (a: TestAttribute)
    ensures !a.isFatal && !a.shouldFail && !a.skip
    ensures a.arguments == arguments
  {
    TestAttribute(false, false, false, arguments)
  }
}
