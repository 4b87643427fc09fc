/** The records exchanged with the robot, and the pure pieces of command building:
    argument stringification and the normalisation of a turn. */
module Protocol {

  datatype Option<T> = None | Some(value: T)

  /** A JavaScript value as it can arrive in a reply's `msg` or sit in the sensor cache:
      `null`, `undefined`, or any other JSON value, kept as its text. */
  datatype Payload = Null | Undefined | Text(s: string)

  /** A command argument as a caller passes it: absent, a number, or a string. */
  datatype Arg = NoArg | Num(n: int) | Str(s: string)

  /** An outgoing message `{cmd, arg, id}`. */
  datatype Command = Command(cmd: string, arg: Arg, id: string)

  /** The `status` of a reply. `Unknown` stands for a missing status or any other string. */
  datatype Status = Accepted | Complete | Notify | ErrorStatus | Unknown

  /** An incoming message `{id, status, msg}`. */
  datatype Reply = Reply(id: string, status: Status, msg: Payload)

  /** The control-plane commands that bypass the queue. */
  const ImmediateCommands: set<string> := {"stop", "pause", "resume", "ping", "version"}

  predicate IsImmediate(cmd: string) {
    cmd in ImmediateCommands
  }

  /** The reply that latches the driver's error flag. */
  predicate IsFatal(r: Reply) {
    r.status == ErrorStatus && r.msg == Text("Too many connections")
  }

  /** JavaScript truthiness of an argument (`0` and `""` are falsy). */
  predicate Truthy(a: Arg) {
    match a
    case NoArg => false
    case Num(n) => n != 0
    case Str(s) => s != ""
  }

  // ---------------------------------------------------------------------------
  // Decimal text of an integer (Number.prototype.toString on an integer value)
  // ---------------------------------------------------------------------------

  function DigitChar(d: nat): char
    requires d < 10
  {
    "0123456789"[d]
  }

  predicate IsDigit(c: char) {
    '0' <= c <= '9'
  }

  function DigitValue(c: char): nat
    requires IsDigit(c)
  {
    (c - '0') as nat
  }

  /** The decimal digits of `n`, most significant first, without leading zeros. */
  function Digits(n: nat): (r: string)
    ensures |r| > 0
    ensures forall i :: 0 <= i < |r| ==> IsDigit(r[i])
    ensures n > 0 ==> r[0] != '0'
  {
    if n < 10 then [DigitChar(n)] else Digits(n / 10) + [DigitChar(n % 10)]
  }

  /** A non-empty text of digits, optionally after one minus sign. */
  predicate IsDecimalText(s: string) {
    |s| > 0 &&
    if s[0] == '-' then forall i :: 1 <= i < |s| ==> IsDigit(s[i])
    else forall i :: 0 <= i < |s| ==> IsDigit(s[i])
  }

  /** The text JavaScript produces for an integer: an optional minus sign and the digits. */
  function DecimalText(n: int): (r: string)
    ensures IsDecimalText(r)
    ensures (r[0] == '-') == (n < 0)
  {
    if n < 0 then "-" + Digits(-n) else Digits(n)
  }

  /** The value of a string of digits (the inverse of `Digits`). */
  function DigitsValue(s: string): nat
    requires forall i :: 0 <= i < |s| ==> IsDigit(s[i])
  {
    if s == [] then 0 else DigitsValue(s[..|s| - 1]) * 10 + DigitValue(s[|s| - 1])
  }

  /** Reads back an optionally signed decimal text. */
  function ReadDecimal(s: string): int
    requires IsDecimalText(s)
  {
    if s[0] == '-' then 0 - DigitsValue(s[1..]) as int else DigitsValue(s)
  }

  lemma {:induction false} DigitsRoundTrip(n: nat)
    ensures DigitsValue(Digits(n)) == n
  {
    if n >= 10 {
      var r := Digits(n);
      assert r[..|r| - 1] == Digits(n / 10);
      DigitsRoundTrip(n / 10);
    }
  }

  lemma DecimalRoundTripNegative(n: int)
    requires n < 0
    ensures ReadDecimal(DecimalText(n)) == n
  {
    var d := Digits(-n);
    var t := "-" + d;
    assert DecimalText(n) == t;
    ReadNegative(d);
    DigitsRoundTrip(-n);
    assert DigitsValue(d) == -n;
    assert ReadDecimal(t) == n;
  }

  lemma DecimalRoundTripNatural(n: int)
    requires n >= 0
    ensures ReadDecimal(DecimalText(n)) == n
  {
    assert DecimalText(n) == Digits(n) && Digits(n)[0] != '-';
    DigitsRoundTrip(n);
  }

  /** Reading the decimal text of an integer gives the integer back. */
  lemma DecimalRoundTrip(n: int)
    ensures ReadDecimal(DecimalText(n)) == n
  {
    if n < 0 {
      DecimalRoundTripNegative(n);
    } else {
      DecimalRoundTripNatural(n);
    }
  }

  lemma ReadNegative(d: string)
    requires |d| > 0 && forall i :: 0 <= i < |d| ==> IsDigit(d[i])
    ensures IsDecimalText("-" + d) && ReadDecimal("-" + d) == 0 - DigitsValue(d) as int
  {
    assert ("-" + d)[1..] == d;
  }

  /** `if(msg.arg){ msg.arg = msg.arg.toString(); }`: a truthy argument is replaced by its
      text, a falsy one (absent, 0, "") is sent as it is. */
  function Stringify(a: Arg): (r: Arg)
    ensures Truthy(a) ==> r.Str? && Truthy(r)
    ensures !Truthy(a) ==> r == a
    ensures a.Str? ==> r == a
    ensures a.Num? && a.n != 0 ==> r == Str(DecimalText(a.n)) && ReadDecimal(r.s) == a.n
  {
    match a
    case NoArg => a
    case Str(_) => a
    case Num(n) =>
      if n == 0 then a else DecimalRoundTrip(n); Str(DecimalText(n))
  }

  /** Stringifying an already sent argument changes nothing. */
  lemma StringifyIdempotent(a: Arg)
    ensures Stringify(Stringify(a)) == Stringify(a)
  {
  }

  // ---------------------------------------------------------------------------
  // Turns
  // ---------------------------------------------------------------------------

  /** The rotation a `left`/`right` command by `angle` asks for, counter-clockwise positive. */
  function SignedRotation(direction: string, angle: int): int {
    if direction == "left" then angle else -angle
  }

  /** `turn`: a negative angle is made positive and the direction flipped; any direction
      other than "left" flips to "left". */
  function NormalizeTurn(direction: string, angle: int): (r: (string, int))
    ensures r.1 >= 0
    ensures r.1 == angle || r.1 == -angle
    ensures angle >= 0 ==> r == (direction, angle)
    ensures angle < 0 ==> r.0 != direction && r.0 in {"left", "right"}
    ensures direction in {"left", "right"} ==>
              r.0 in {"left", "right"} && SignedRotation(r.0, r.1) == SignedRotation(direction, angle)
  {
    if angle < 0 then
      (if direction == "left" then "right" else "left", -angle)
    else
      (direction, angle)
  }

  /** Normalising a normalised turn changes nothing. */
  lemma NormalizeTurnIdempotent(direction: string, angle: int)
    ensures var r := NormalizeTurn(direction, angle); NormalizeTurn(r.0, r.1) == r
  {
  }
}
