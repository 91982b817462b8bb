/**
 * Printing and reading numbers: decimal for ports and addresses, base 16 for
 * certificate serials (`big.Int.Text(16)` and `big.Int.SetString(s, 16)`).
 */
module Numerals {
  import opened Wrappers

  datatype Base = Ten | Sixteen

  function Size(b: Base): nat {
    if b.Ten? then 10 else 16
  }

  function Quotient(n: nat, b: Base): nat {
    if b.Ten? then n / 10 else n / 16
  }

  function LastDigit(n: nat, b: Base): (d: nat)
    ensures d < 16
  {
    if b.Ten? then n % 10 else n % 16
  }

  function Shifted(n: nat, b: Base): nat {
    if b.Ten? then n * 10 else n * 16
  }

  function DigitChar(d: nat): char
    requires d < 16
  {
    if d < 10 then '0' + d as char else 'a' + (d - 10) as char
  }

  function DigitValue(c: char): Option<nat> {
    if '0' <= c <= '9' then Some(c as int - '0' as int)
    else if 'a' <= c <= 'f' then Some(c as int - 'a' as int + 10)
    else if 'A' <= c <= 'F' then Some(c as int - 'A' as int + 10)
    else None
  }

  predicate IsDigit(c: char, b: Base) {
    DigitValue(c).Some? && DigitValue(c).value < Size(b)
  }

  predicate AllDigits(s: string, b: Base) {
    forall i | 0 <= i < |s| :: IsDigit(s[i], b)
  }

  // Shortest form, no leading zeros, lower-case letters.
  function Show(n: nat, b: Base): (s: string)
    ensures s != "" && AllDigits(s, b)
  {
    if n < Size(b) then [DigitChar(n)]
    else Show(Quotient(n, b), b) + [DigitChar(LastDigit(n, b))]
  }

  function Value(s: string, b: Base): nat
    requires AllDigits(s, b)
  {
    if s == "" then 0
    else Shifted(Value(s[..|s| - 1], b), b) + DigitValue(s[|s| - 1]).value
  }

  // A non-empty run of digits and nothing else.
  function Read(s: string, b: Base): Option<nat> {
    if s != "" && AllDigits(s, b) then Some(Value(s, b)) else None
  }

  function Unsigned(s: string): string {
    if s != "" && s[0] in {'-', '+'} then s[1..] else s
  }

  predicate Negative(s: string) {
    s != "" && s[0] == '-'
  }

  // An optional sign, then digits.
  function ReadInt(s: string, b: Base): Option<int> {
    match Read(Unsigned(s), b)
    case None => None
    case Some(n) => var v: int := n; Some(if Negative(s) then -v else v)
  }

  // strconv.Atoi on a 64-bit machine.
  function Atoi(s: string): Option<int> {
    match ReadInt(s, Ten)
    case None => None
    case Some(n) => if -0x8000_0000_0000_0000 <= n < 0x8000_0000_0000_0000 then Some(n) else None
  }

  function ShowInt(n: int): string {
    if n < 0 then "-" + Show(-n, Ten) else Show(n, Ten)
  }

  // serial.Text(16).
  function Hex(serial: nat): string {
    Show(serial, Sixteen)
  }

  // new(big.Int).SetString(s, 16).
  function ParseHex(s: string): Option<int> {
    ReadInt(s, Sixteen)
  }

  lemma {:induction false} ValueOfShow(n: nat, b: Base)
    ensures Value(Show(n, b), b) == n
  {
    var s := Show(n, b);
    if n >= Size(b) {
      ValueOfShow(Quotient(n, b), b);
      assert s[..|s| - 1] == Show(Quotient(n, b), b);
    } else {
      assert s[..0] == "";
    }
  }

  lemma ReadOfShow(n: nat, b: Base)
    ensures Read(Show(n, b), b) == Some(n)
  {
    ValueOfShow(n, b);
  }

  /** A serial printed in hex is never empty and reads back as itself, so no revoked entry is skipped. */
  lemma HexRoundTrip(serial: nat)
    ensures Hex(serial) != ""
    ensures ParseHex(Hex(serial)) == Some(serial)
  {
    ReadOfShow(serial, Sixteen);
    assert IsDigit(Hex(serial)[0], Sixteen);
  }

  // No leading zero, except for zero itself, and no upper-case digit.
  predicate Canonical(s: string) {
    && s != ""
    && (|s| > 1 ==> s[0] != '0')
    && forall i | 0 <= i < |s| :: !('A' <= s[i] <= 'F')
  }

  lemma {:induction false} ValuePositive(s: string, b: Base)
    requires AllDigits(s, b) && s != "" && s[0] != '0'
    ensures Value(s, b) > 0
  {
    if |s| > 1 {
      ValuePositive(s[..|s| - 1], b);
    }
  }

  lemma ShowAppend(v: nat, d: nat, b: Base)
    requires v > 0 && d < Size(b)
    ensures Show(Shifted(v, b) + d, b) == Show(v, b) + [DigitChar(d)]
  {
    var n := Shifted(v, b) + d;
    assert n >= Size(b) && Quotient(n, b) == v && LastDigit(n, b) == d;
  }

  lemma DigitCharOfValue(c: char)
    requires DigitValue(c).Some? && !('A' <= c <= 'F')
    ensures DigitChar(DigitValue(c).value) == c
  {
  }

  /** Reading a canonical numeral and printing the value gives the numeral back. */
  lemma {:induction false} ShowOfValue(s: string, b: Base)
    requires AllDigits(s, b) && Canonical(s)
    ensures Show(Value(s, b), b) == s
  {
    var front, last := s[..|s| - 1], s[|s| - 1];
    assert IsDigit(last, b);
    DigitCharOfValue(last);
    var d := DigitValue(last).value;
    assert Value(s, b) == Shifted(Value(front, b), b) + d;
    if front == "" {
      assert Value(front, b) == 0;
      assert Show(d, b) == [last];
    } else {
      hide Show, DigitValue, DigitChar, Shifted;
      ShowOfValue(front, b);
      ValuePositive(front, b);
      ShowAppend(Value(front, b), d, b);
    }
    assert s == front + [last];
  }
}
