/**
 * The values of the test runner: method identities, the scripted calls a test body
 * makes, assertion records, report events, the fatal signal and the configuration errors.
 */
module Records {

  /** The identity of a compiled method (a `MethodInfo`): the key of the test registry. */
  datatype MethodRef = MethodRef(owner: string, name: string)

  /**
   * One call to an assertion operation made by a test body. The caller-supplied
   * metadata (argument text, file path, line number) are plain fields.
   */
  datatype Step =
    | CallPass(file: string, line: int)
    | CallFail(message: string, file: string, line: int)
    | CallFatal(message: string, file: string, line: int)
    | CallTrue(expr: bool, message: string, file: string, line: int)
    | CallTrueFatal(expr: bool, message: string, file: string, line: int)
    | CallFalse(expr: bool, message: string, file: string, line: int)
    | CallFalseFatal(expr: bool, message: string, file: string, line: int)

  /** A test body: the delegate's method, its `fingerprint` in the registry, and the calls it makes, in order. */
  datatype Body = Body(fingerprint: MethodRef, script: seq<Step>)

  /** An immutable assertion record: message, origin and verdict. */
  datatype Assertion = Assertion(what: string, file: string, line: int, passed: bool)

  /** How a run ended: normally, or by the fatal signal carrying the fatal assertion's message. */
  datatype Outcome = Normal | FatalAbort(message: string)

  /** One report event, in execution order, standing for one piece of console output or one hook run. */
  datatype Event =
    | SuiteHeader(suite: string)                   // " SUITE: <name>:"
    | TestHeader(test: string)                     // "   TEST: <name>... "
    | Verdict(ok: bool)                            // "OK" or "FAIL"
    | FailureLine(index: nat, assertion: Assertion) // "     [<index>] <file> @<line>: <message>"
    | EngineFatal                                  // "       FATAL"
    | SetupRan(hook: MethodRef)
    | CleanupRan(hook: MethodRef)

  /** The exception classes of the library, each with its message. */
  datatype Error =
    | EngineException(message: string)
    | SuiteException(message: string)
    | TestException(message: string)
    | AssertException(message: string)

  const DuplicateSuite: Error := EngineException("Duplicate Suite")
  const DuplicateTestInSuite: Error := SuiteException("Duplicate Test")
  const EmptyTest: Error := TestException("Empty Test")
  const DuplicateTest: Error := TestException("Duplicate Test")
  const NotRegistered: Error := TestException("Test not registered")
  const NotInTest: Error := AssertException("Not in test")

  /** The fixed message of a passing assertion. */
  const PassMessage: string := "PASS"
}
