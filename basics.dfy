/** Outcomes of the program's operations: a value, or the reason the program
    calls exit() together with the sysexits.h status it exits with. */
module Basics {

  datatype Option<+T> = None | Some(value: T)

  /** Why the program stops. Every `exit(...)` call of the core, and the
      `usage` call for -h, is one reason. */
  datatype Error =
    | Help                          // -h / --help: usage text, exit status EX_OK
    | BothModes                     // -c and -r given together
    | RegressionWithoutLabel        // -r without -l
    | ClassificationWithLabel       // -c together with -l
    | LabelMismatch                 // a non-real field outside the given label column
    | NonRealForRegression          // regression asked for, data holds a non-real field
    | MultipleNonReal               // more than one non-real column on the second line
    | NoClassificationLabel         // no label column known when parsing (classification)
    | NoRegressionLabel             // no label column known when parsing (regression)
    | ImproperFeatureCount          // training point and query differ in feature count

  datatype Outcome<+T> = Ok(value: T) | Fail(error: Error)

  // The status codes of sysexits.h used by the program.
  const EX_OK: int := 0
  const EX_USAGE: int := 64
  const EX_DATAERR: int := 65

  /** The process exit status the program ends with for each reason. */
  function ExitStatus(e: Error): (s: int)
    ensures s == EX_OK || s == EX_USAGE || s == EX_DATAERR
    ensures s == EX_OK <==> e == Help
    ensures s == EX_USAGE <==> e == BothModes || e == RegressionWithoutLabel || e == ClassificationWithLabel
  {
    match e
    case Help => EX_OK
    case BothModes | RegressionWithoutLabel | ClassificationWithLabel => EX_USAGE
    case _ => EX_DATAERR
  }

  /** size_t on a 64-bit target: a C int converted to size_t wraps modulo 2^64. */
  const SIZE_MODULUS: int := 0x1_0000_0000_0000_0000

  function ToSize(v: int): (r: nat)
    ensures r < SIZE_MODULUS
    ensures 0 <= v < SIZE_MODULUS ==> r == v
    ensures -SIZE_MODULUS <= v < 0 ==> r == v + SIZE_MODULUS
  {
    v % SIZE_MODULUS
  }

  /** The size_t value of the C literal -1, which process_args stores as the
      "no label column" default. */
  const NO_COLUMN: nat := SIZE_MODULUS - 1

  /** uint16_t arithmetic wraps modulo 2^16. */
  const U16_MODULUS: int := 0x1_0000

  function ToU16(v: int): (r: nat)
    ensures r < U16_MODULUS
    ensures 0 <= v < U16_MODULUS ==> r == v
    ensures v == -1 ==> r == U16_MODULUS - 1
  {
    v % U16_MODULUS
  }

  /** Incrementing a uint16_t wraps 65535 to 0. */
  lemma U16Increment(v: int)
    ensures ToU16(v + 1) == if ToU16(v) == U16_MODULUS - 1 then 0 else ToU16(v) + 1
  {
  }

  /** Decrementing a uint16_t wraps 0 to 65535. */
  lemma U16Decrement(v: int)
    ensures ToU16(v - 1) == if ToU16(v) == 0 then U16_MODULUS - 1 else ToU16(v) - 1
  {
  }
}
