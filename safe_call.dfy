/**
 * The OCL_SAFE_CALL macro (oclhelpers.hpp): the status a native call returns
 * is bound once; zero passes, any other status throws an OclHelpersException
 * whose message names the status in hexadecimal and by its error string,
 * followed by the file and line where the macro was expanded.
 */
module SafeCall {

  import opened Wrappers
  import opened Exceptions
  import ErrorCodes
  import NumberFormat

  /** A cl_int status (a 32-bit signed integer). */
  newtype Int32 = x: int | -0x8000_0000 <= x < 0x8000_0000

  const Modulus32: int := 0x1_0000_0000

  /**
   * The value std::hex prints for an int: a negative value is shown as its
   * 32-bit two's-complement bit pattern.
   */
  function Unsigned32(x: Int32): (u: nat)
    ensures u < Modulus32
    ensures u % Modulus32 == (x as int) % Modulus32
    ensures FromUnsigned32(u) == x
  {
    if x < 0 then (x as int) + Modulus32 else x as int
  }

  /** The signed value of a 32-bit pattern. */
  function FromUnsigned32(u: nat): Int32
    requires u < Modulus32
  {
    if u < 0x8000_0000 then u as Int32 else (u - Modulus32) as Int32
  }

  const Prefix: string := "OpenCL error: "

  /** The hexadecimal field of the message. */
  function HexField(status: Int32): string {
    NumberFormat.ToDigits(Unsigned32(status), 16)
  }

  /**
   * The message the macro composes for a status with hex field `hex` and
   * error string `name`: the prefix, the hex field, a space, the name in
   * parentheses, then the site ("\n\tat " file ":" line) and the newline of
   * std::endl.
   */
  function Compose(hex: string, name: string, file: string, line: nat): string {
    Prefix + hex + " (" + name + ")\n\tat " + file + ":" + NumberFormat.ToDigits(line, 10) + "\n"
  }

  /** The message thrown for a nonzero status. */
  function FailureMessage(status: Int32, file: string, line: nat): string {
    Compose(HexField(status), ErrorCodes.ErrorString(status as int), file, line)
  }

  /**
   * OCL_SAFE_CALL applied to the status of one evaluated call, at the given
   * expansion site.
   */
  function SafeCall(status: Int32, file: string, line: nat): (r: Outcome)
    ensures r.Pass? <==> status == 0
    ensures r.Fail? ==> r.error == OclHelpersException(FailureMessage(status, file, line))
  {
    if status != 0 then Fail(OclHelpersException(FailureMessage(status, file, line))) else Pass
  }

  /**
   * The layout of a message: it begins with the prefix, then the hex field
   * (hexadecimal digits only), then " (", the name, and ")".
   */
  lemma ComposeLayout(hex: string, name: string, file: string, line: nat)
    requires NumberFormat.AllDigits(hex, 16)
    ensures var msg, k := Compose(hex, name, file, line), |Prefix| + |hex|;
      && msg[..|Prefix|] == Prefix
      && msg[|Prefix|..k] == hex
      && msg[k..k + 2] == " ("
      && msg[k + 2..k + 2 + |name|] == name
      && msg[k + 2 + |name|] == ')'
  {
    var rest := ")\n\tat " + file + ":" + NumberFormat.ToDigits(line, 10) + "\n";
    var msg := Compose(hex, name, file, line);
    assert msg == Prefix + hex + " (" + name + rest;
  }

  /**
   * When OCL_SAFE_CALL throws, the message begins with the prefix, then the
   * status in hexadecimal, then the error string of the status in
   * parentheses.
   */
  lemma FailureMessageLayout(status: Int32, file: string, line: nat)
    ensures var msg, h, n := FailureMessage(status, file, line), HexField(status), ErrorCodes.ErrorString(status as int);
      var k := |Prefix| + |h|;
      && msg[..|Prefix|] == Prefix
      && msg[|Prefix|..k] == h && h == NumberFormat.ToDigits(Unsigned32(status), 16)
      && msg[k..k + 2] == " ("
      && msg[k + 2..k + 2 + |n|] == n
      && msg[k + 2 + |n|] == ')'
  {
    ComposeLayout(HexField(status), ErrorCodes.ErrorString(status as int), file, line);
  }

  /**
   * Reads the status back from a message: the hex digits after the prefix,
   * taken as a 32-bit pattern.
   */
  function StatusOfMessage(msg: string): Option<Int32> {
    if |msg| < |Prefix| || msg[..|Prefix|] != Prefix then None
    else
      var h := NumberFormat.LeadingDigits(msg[|Prefix|..], 16);
      var u := NumberFormat.FromDigits(h, 16);
      if h == [] || u >= Modulus32 then None else Some(FromUnsigned32(u))
  }

  /** Reading the status back from a composed message gives the status. */
  lemma StatusOfComposed(status: Int32, name: string, file: string, line: nat)
    ensures StatusOfMessage(Compose(HexField(status), name, file, line)) == Some(status)
  {
    var h := HexField(status);
    var tail := " (" + name + ")\n\tat " + file + ":" + NumberFormat.ToDigits(line, 10) + "\n";
    var msg := Compose(h, name, file, line);
    assert msg == Prefix + (h + tail);
    assert msg[..|Prefix|] == Prefix;
    assert msg[|Prefix|..] == h + tail;
    NumberFormat.LeadingDigitsOfConcat(h, tail, 16);
    NumberFormat.FromToHexDigits(Unsigned32(status));
  }

  /** The message of a failing call determines the status it reports. */
  lemma StatusOfFailureMessage(status: Int32, file: string, line: nat)
    ensures StatusOfMessage(FailureMessage(status, file, line)) == Some(status)
  {
    StatusOfComposed(status, ErrorCodes.ErrorString(status as int), file, line);
  }

  /** Distinct failing statuses give distinct messages at the same site. */
  lemma FailureMessageInjective(s1: Int32, s2: Int32, file: string, line: nat)
    ensures FailureMessage(s1, file, line) == FailureMessage(s2, file, line) <==> s1 == s2
  {
    StatusOfFailureMessage(s1, file, line);
    StatusOfFailureMessage(s2, file, line);
  }
}
