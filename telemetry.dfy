/** The library-wide error type and result wrapper (lib.rs), shared by every module. */
module Telemetry {

  /** Optional values; also the model of an f64 that may be the NaN sentinel (None). */
  datatype Option<+T> = None | Some(value: T)

  /** The four failure kinds; each carries a human-readable message. */
  datatype TelemetryError =
    | InvalidData(msg: string)
    | InsufficientData(msg: string)
    | ModelError(msg: string)
    | InvalidParameter(msg: string)

  /** `Result<T>` of the library: a value or one of the errors above. */
  datatype Result<+T> = Ok(value: T) | Err(error: TelemetryError)

  /** The `Display` rendering of an error: a kind-specific prefix followed by the message. */
  function Display(e: TelemetryError): (s: string)
    ensures |s| > |e.msg| && s[|s| - |e.msg|..] == e.msg
  {
    match e
    case InvalidData(m) => "Invalid data: " + m
    case InsufficientData(m) => "Insufficient data: " + m
    case ModelError(m) => "Model error: " + m
    case InvalidParameter(m) => "Invalid parameter: " + m
  }

  /** The characters at positions 0, 2 and 8 of a rendering tell the four kinds apart. */
  lemma DisplayMarks(e: TelemetryError)
    ensures |Display(e)| > 8
    ensures Display(e)[0] == (if e.ModelError? then 'M' else 'I')
    ensures !e.ModelError? ==> Display(e)[2] == (if e.InsufficientData? then 's' else 'v')
    ensures e.InvalidData? || e.InvalidParameter? ==> Display(e)[8] == (if e.InvalidData? then 'd' else 'p')
  {
    match e
    case InvalidData(m) =>
      assert Display(e) == "Invalid data: " + m;
    case InsufficientData(m) =>
      assert Display(e) == "Insufficient data: " + m;
    case ModelError(m) =>
      assert Display(e) == "Model error: " + m;
    case InvalidParameter(m) =>
      assert Display(e) == "Invalid parameter: " + m;
  }

  /** Two errors that display the same are the same error: the rendering loses nothing. */
  lemma DisplayInjective(e1: TelemetryError, e2: TelemetryError)
    requires Display(e1) == Display(e2)
    ensures e1 == e2
  {
    DisplayMarks(e1);
    DisplayMarks(e2);
    var s := Display(e1);
    assert e1.InvalidData? == e2.InvalidData?;
    assert e1.InsufficientData? == e2.InsufficientData?;
    assert e1.ModelError? == e2.ModelError?;
    var prefix := |s| - |e1.msg|;
    assert prefix == |s| - |e2.msg| by {
      match e1
      case InvalidData(_) =>
      case InsufficientData(_) =>
      case ModelError(_) =>
      case InvalidParameter(_) =>
    }
    assert e1.msg == s[prefix..] == e2.msg;
  }

  /** Decimal rendering of a count, as `format!("{}", n)` prints a usize. */
  function NatToString(n: nat): (s: string)
    ensures |s| > 0
    ensures forall i :: 0 <= i < |s| ==> '0' <= s[i] <= '9'
  {
    var digit := "0123456789"[n % 10];
    if n < 10 then [digit] else NatToString(n / 10) + [digit]
  }
}
