/// The firmware's reading of a position report: `sscanf(line, "%d,%d,%d",
/// &id, &row, &col) == 3` in `handle_serial_line`.
///
/// Each `%d` skips white space, takes an optional sign and then at least one
/// decimal digit; each `,` of the format must match the next character
/// exactly; anything after the third number is ignored. A character that is
/// none of these ends the scan, so an embedded NUL ends it just where the C
/// string would end.
module Scan {
  import opened Wrappers

  /// C's `isspace` in the "C" locale.
  predicate IsSpace(c: char)
  {
    c == ' ' || c == '\t' || c == '\n' || c == '\U{000B}' || c == '\U{000C}' || c == '\r'
  }

  predicate IsDigit(c: char)
  {
    '0' <= c <= '9'
  }

  predicate AllDigits(s: seq<char>)
  {
    forall i :: 0 <= i < |s| ==> IsDigit(s[i])
  }

  function DigitValue(c: char): nat
    requires IsDigit(c)
  {
    c as int - '0' as int
  }

  /// Length of the white space that starts `s`.
  function SpaceRun(s: seq<char>): (n: nat)
    ensures n <= |s|
    ensures forall i :: 0 <= i < n ==> IsSpace(s[i])
    ensures n < |s| ==> !IsSpace(s[n])
  {
    if |s| > 0 && IsSpace(s[0]) then 1 + SpaceRun(s[1..]) else 0
  }

  /// Length of the longest run of digits that starts `s`.
  function DigitRun(s: seq<char>): (n: nat)
    ensures n <= |s|
    ensures AllDigits(s[..n])
    ensures n < |s| ==> !IsDigit(s[n])
  {
    if |s| > 0 && IsDigit(s[0]) then
      var n := 1 + DigitRun(s[1..]);
      assert s[..n] == [s[0]] + s[1..][..n - 1];
      n
    else 0
  }

  /// The number a run of decimal digits denotes, most significant first.
  function DigitsValue(ds: seq<char>): nat
    requires AllDigits(ds)
  {
    if ds == [] then 0 else DigitsValue(ds[..|ds| - 1]) * 10 + DigitValue(ds[|ds| - 1])
  }

  /// A converted number and the input left after it.
  datatype Scanned = Scanned(value: int, rest: seq<char>)

  /// One `%d` conversion.
  function ScanInt(s: seq<char>): (r: Option<Scanned>)
    ensures r.Some? ==> |r.value.rest| < |s| && r.value.rest == s[|s| - |r.value.rest|..]
  {
    var t := s[SpaceRun(s)..];
    var signed := |t| > 0 && (t[0] == '+' || t[0] == '-');
    var u := if signed then t[1..] else t;
    var n := DigitRun(u);
    if n == 0 then None
    else
      var magnitude: int := DigitsValue(u[..n]);
      Some(Scanned(if signed && t[0] == '-' then -magnitude else magnitude, u[n..]))
  }

  /// The three numbers of a position report, in the order sent.
  datatype Report = Report(id: int, row: int, col: int)

  /// `s` with its first character dropped when that character is a comma.
  function Comma(s: seq<char>): Option<seq<char>>
  {
    if |s| > 0 && s[0] == ',' then Some(s[1..]) else None
  }

  /// `sscanf(line, "%d,%d,%d", ...)`: Some exactly when it returns 3.
  function ScanReport(line: seq<char>): Option<Report>
  {
    match ScanInt(line)
    case None => None
    case Some(first) =>
      match Comma(first.rest)
      case None => None
      case Some(s1) =>
        match ScanInt(s1)
        case None => None
        case Some(second) =>
          match Comma(second.rest)
          case None => None
          case Some(s2) =>
            match ScanInt(s2)
            case None => None
            case Some(third) => Some(Report(first.value, second.value, third.value))
  }
}
