/**
  The validation guards of QueryBuilder and the error each raises. A guard
  either passes (the Java method returns `this`) or fails with the error its
  exception would carry; the fields of each error are the arguments of that
  exception's constructor.
*/
module Guards {
  import opened Optional
  import opened Utf8

  datatype ValidationError =
      /** `NegativeValueException(name, value)` */
    | NegativeValue(name: string, number: int)
      /** `MaxLengthInBytesExceededException(name, value, maxLengthInBytes)` */
    | MaxLengthExceeded(name: string, value: string, maxLengthInBytes: int)
      /** `ValueOutOfBoundsException(name, begin, end, actual)` */
    | OutOfBounds(name: string, begin: int, end: int, actual: int)
      /** `InvalidQueueTime(queueTimeMillis)` */
    | InvalidQueueTime(queueTimeMillis: int)

  /** What a guard or a setter does: return normally, or throw `error`. */
  datatype Outcome = Pass | Fail(error: ValidationError)

  /**
    Guards run one after the other: the first one that fails decides the
    outcome, and the ones after it never run.
  */
  function FirstFailure(checks: seq<Outcome>): (r: Outcome)
    ensures r.Pass? <==> forall i :: 0 <= i < |checks| ==> checks[i].Pass?
    ensures r.Fail? ==>
      exists i :: 0 <= i < |checks| && checks[i] == r && forall j :: 0 <= j < i ==> checks[j].Pass?
    decreases |checks|
  {
    if checks == [] then Pass
    else if checks[0].Fail? then checks[0]
    else
      var r := FirstFailure(checks[1..]);
      assert r.Fail? ==> exists i :: 0 <= i < |checks| && checks[i] == r && forall j :: 0 <= j < i ==> checks[j].Pass? by {
        if r.Fail? {
          var i :| 0 <= i < |checks[1..]| && checks[1..][i] == r && forall j :: 0 <= j < i ==> checks[1..][j].Pass?;
          assert checks[i + 1] == r;
          assert forall j :: 0 <= j < i + 1 ==> checks[j].Pass? by {
            forall j | 0 <= j < i + 1 ensures checks[j].Pass? {
              if j > 0 { assert checks[j] == checks[1..][j - 1]; }
            }
          }
        }
      }
      r
  }

  /** Guards that pass make no difference to the outcome of those after them. */
  lemma {:induction false} FirstFailureSkipsPasses(passed: seq<Outcome>, rest: seq<Outcome>)
    requires forall i :: 0 <= i < |passed| ==> passed[i].Pass?
    ensures FirstFailure(passed + rest) == FirstFailure(rest)
    decreases |passed|
  {
    if passed == [] {
      assert passed + rest == rest;
    } else {
      assert (passed + rest)[1..] == passed[1..] + rest;
      FirstFailureSkipsPasses(passed[1..], rest);
    }
  }

  /** `assertNotNegative` (both the `int` and the `long` overload). */
  function AssertNotNegative(name: string, value: int): (r: Outcome)
    ensures r.Pass? <==> value >= 0
    ensures r.Fail? ==> r.error == NegativeValue(name, value)
  {
    if value < 0 then Fail(NegativeValue(name, value)) else Pass
  }

  /** `checkSizeOf`: the value's UTF-8 encoding may take at most `maxLengthInBytes` bytes. */
  function CheckSizeOf(parameterName: string, parameterValue: string, maxLengthInBytes: int): (r: Outcome)
    ensures r.Pass? <==> ByteLength(parameterValue) <= maxLengthInBytes
    ensures r.Fail? ==> r.error == MaxLengthExceeded(parameterName, parameterValue, maxLengthInBytes)
  {
    if maxLengthInBytes < ByteLength(parameterValue) then
      Fail(MaxLengthExceeded(parameterName, parameterValue, maxLengthInBytes))
    else Pass
  }

  /** `assertBetween`: both bounds are inclusive. */
  function AssertBetween(name: string, begin: int, end: int, actual: int): (r: Outcome)
    ensures r.Pass? <==> begin <= actual <= end
    ensures r.Fail? ==> r.error == OutOfBounds(name, begin, end, actual)
  {
    if !(begin <= actual && actual <= end) then Fail(OutOfBounds(name, begin, end, actual)) else Pass
  }

  /** The guard `withQt` applies, as the code writes it: every value up to and including 0 is refused. */
  function CheckQueueTime(queueTimeMillis: int): (r: Outcome)
    ensures r.Pass? <==> queueTimeMillis > 0
    ensures r.Fail? ==> r.error == InvalidQueueTime(queueTimeMillis)
  {
    if queueTimeMillis <= 0 then Fail(InvalidQueueTime(queueTimeMillis)) else Pass
  }

  /**
    The guard `withQt` is documented to apply: a queue time must be greater
    than or equal to 0, and the exception's message speaks of negative values.
  */
  function CheckQueueTimeIntended(queueTimeMillis: int): (r: Outcome)
    ensures r.Pass? <==> queueTimeMillis >= 0
    ensures r.Fail? ==> r.error == InvalidQueueTime(queueTimeMillis)
  {
    if queueTimeMillis < 0 then Fail(InvalidQueueTime(queueTimeMillis)) else Pass
  }

  /** The queue-time guard as written refuses 0, which the documented guard accepts. */
  lemma QueueTimeZeroRejected()
    ensures CheckQueueTime(0) == Fail(InvalidQueueTime(0))
    ensures CheckQueueTimeIntended(0) == Pass
  {
  }

  /** The two queue-time guards disagree on 0 and nowhere else. */
  lemma QueueTimeGuardsDifferOnlyAtZero(queueTimeMillis: int)
    ensures CheckQueueTime(queueTimeMillis) == CheckQueueTimeIntended(queueTimeMillis) <==> queueTimeMillis != 0
  {
  }

  /** `asBoolean`: the protocol's encoding of a flag. */
  function AsBoolean(value: bool): (s: string)
    ensures s == "1" <==> value
    ensures s == "0" <==> !value
  {
    if value then "1" else "0"
  }

  /** Reads a flag back; anything but "1" and "0" is not a flag. */
  function ParseBoolean(s: string): Option<bool> {
    if s == "1" then Some(true) else if s == "0" then Some(false) else None
  }

  /** `asBoolean` is inverted by `ParseBoolean`, and its results are the only strings that parse. */
  lemma AsBooleanRoundTrip(value: bool, s: string)
    ensures ParseBoolean(AsBoolean(value)) == Some(value)
    ensures ParseBoolean(s).Some? <==> s == AsBoolean(true) || s == AsBoolean(false)
  {
  }
}
