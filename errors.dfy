/**
 * The error taxonomy of the worker manager (`WorkerError`) and the text
 * each variant displays, together with the decimal rendering of an app id
 * that `lookup` embeds in its "not registered" error.
 */
module Errors {

  /** Upper bound of Rust's `u64`. */
  const U64_LIMIT: int := 0x1_0000_0000_0000_0000
  type U64 = x: int | 0 <= x < U64_LIMIT

  /**
   * The scheduler's own error type lives outside this model; only the text it
   * displays matters here.
   */
  datatype SchedError = SchedError(description: string)

  /** The four ways a worker-manager operation can fail. */
  datatype WorkerError =
    | WorkerStorageError
    | WorkerNotRegistered(appNameOrId: string)
    | LookupFail(serverIp: string)
    | SchedulerFailed(source: SchedError)

  /** `Result<T, WorkerError>`, the return type of every fallible operation. */
  datatype Result<T> = Ok(value: T) | Err(error: WorkerError)

  const STORAGE_ERROR_MESSAGE: string := "WorkerManager storage error."
  const NOT_REGISTERED_PREFIX: string := "App name or id "
  const NOT_REGISTERED_SUFFIX: string := " is not registered, please register the app first."
  const LOOKUP_FAIL_PREFIX: string := "server "
  const LOOKUP_FAIL_SUFFIX: string := " lookup failed"
  const SCHEDULER_FAILED_PREFIX: string := "WorkerManager scheduler encounter error: "

  /** The text `Display` shows for an error. */
  function Message(e: WorkerError): string {
    match e
    case WorkerStorageError => STORAGE_ERROR_MESSAGE
    case WorkerNotRegistered(name) => NOT_REGISTERED_PREFIX + name + NOT_REGISTERED_SUFFIX
    case LookupFail(ip) => LOOKUP_FAIL_PREFIX + ip + LOOKUP_FAIL_SUFFIX
    case SchedulerFailed(source) => SCHEDULER_FAILED_PREFIX + source.description
  }

  /** The cause a scheduler failure wraps. */
  function Source(e: WorkerError): (s: SchedError)
    requires e.SchedulerFailed?
    ensures Message(e) == SCHEDULER_FAILED_PREFIX + s.description
  {
    e.source
  }

  /** The payload a message carries sits verbatim right after the variant's fixed prefix. */
  lemma MessageEmbedsPayload(e: WorkerError)
    ensures e.WorkerNotRegistered? ==>
      Message(e)[|NOT_REGISTERED_PREFIX|..|NOT_REGISTERED_PREFIX| + |e.appNameOrId|] == e.appNameOrId
    ensures e.LookupFail? ==>
      Message(e)[|LOOKUP_FAIL_PREFIX|..|LOOKUP_FAIL_PREFIX| + |e.serverIp|] == e.serverIp
    ensures e.SchedulerFailed? ==>
      Message(e)[|SCHEDULER_FAILED_PREFIX|..] == e.source.description
  {
  }

  lemma {:induction false} FramedIsInjective(p: string, x: string, y: string, q: string)
    requires p + x + q == p + y + q
    ensures x == y
  {
    var m := p + x + q;
    assert |x| == |y|;
    assert x == m[|p|..|p| + |x|];
    assert y == (p + y + q)[|p|..|p| + |y|];
  }

  /** The first character of a message, and the sixteenth, tell the variants apart. */
  lemma MessageHead(e: WorkerError)
    ensures |Message(e)| > 15
    ensures e.WorkerStorageError? ==> Message(e)[0] == 'W' && Message(e)[15] == 't'
    ensures e.WorkerNotRegistered? ==> Message(e)[0] == 'A'
    ensures e.LookupFail? ==> Message(e)[0] == 's'
    ensures e.SchedulerFailed? ==> Message(e)[0] == 'W' && Message(e)[15] == 'c'
  {
  }

  /**
   * Different errors display different texts: the message alone determines
   * the variant and its payload.
   */
  lemma {:induction false} MessageDeterminesError(e1: WorkerError, e2: WorkerError)
    requires Message(e1) == Message(e2)
    ensures e1 == e2
  {
    MessageHead(e1);
    MessageHead(e2);
    match e1
    case WorkerStorageError =>
    case WorkerNotRegistered(a) =>
      FramedIsInjective(NOT_REGISTERED_PREFIX, a, e2.appNameOrId, NOT_REGISTERED_SUFFIX);
    case LookupFail(a) =>
      FramedIsInjective(LOOKUP_FAIL_PREFIX, a, e2.serverIp, LOOKUP_FAIL_SUFFIX);
    case SchedulerFailed(s) =>
      var m := Message(e1);
      assert s.description == m[|SCHEDULER_FAILED_PREFIX|..];
      assert e2.source.description == Message(e2)[|SCHEDULER_FAILED_PREFIX|..];
  }

  // ---------------------------------------------------------------------
  // Decimal rendering of an unsigned integer (Rust's `u64::to_string`).

  predicate IsDigit(c: char) {
    '0' <= c <= '9'
  }

  function DigitChar(d: nat): (c: char)
    requires d < 10
    ensures IsDigit(c) && c as int - '0' as int == d
  {
    ('0' as int + d) as char
  }

  /** The shortest decimal text of `n`, most significant digit first. */
  function DecimalString(n: nat): (s: string)
    ensures |s| >= 1
    ensures forall i :: 0 <= i < |s| ==> IsDigit(s[i])
    ensures |s| > 1 ==> s[0] != '0'
    decreases n
  {
    if n < 10 then [DigitChar(n)] else DecimalString(n / 10) + [DigitChar(n % 10)]
  }

  /** Reads a string of decimal digits back as a number. */
  function ParseDecimal(s: string): nat
    requires forall i :: 0 <= i < |s| ==> IsDigit(s[i])
  {
    if s == [] then 0
    else
      assert IsDigit(s[|s| - 1]);
      ParseDecimal(s[..|s| - 1]) * 10 + (s[|s| - 1] as int - '0' as int)
  }

  /** Reading the rendered id gives back the id. */
  lemma {:induction false} DecimalRoundTrip(n: nat)
    ensures ParseDecimal(DecimalString(n)) == n
    decreases n
  {
    if n >= 10 {
      var s := DecimalString(n);
      assert s[..|s| - 1] == DecimalString(n / 10);
      DecimalRoundTrip(n / 10);
    }
  }

  /** Distinct ids render as distinct strings. */
  lemma {:induction false} DecimalStringInjective(a: nat, b: nat)
    requires DecimalString(a) == DecimalString(b)
    ensures a == b
  {
    DecimalRoundTrip(a);
    DecimalRoundTrip(b);
  }
}
