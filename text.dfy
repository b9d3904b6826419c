/** Small value types shared by every module of the model. */
module Common {

  /** A value that may be absent: JavaScript's `null`/`undefined` on one side,
      a present value on the other. */
  datatype Option<+T> = None | Some(value: T) {

    /** The value, or `default` when absent (JavaScript's `x ?? default`). */
    function GetOr(default: T): T {
      match this
      case Some(v) => v
      case None => default
    }
  }

  /** A computation that either produced a value or failed with a message
      (a thrown `Error` in the TypeScript source). */
  datatype Result<+T> = Ok(value: T) | Fail(message: string) {

    predicate IsFailure() {
      Fail?
    }

    function PropagateFailure<U>(): Result<U>
      requires Fail?
    {
      Fail(message)
    }

    function Extract(): T
      requires Ok?
    {
      value
    }
  }
}

/** The string primitives the TypeScript source relies on: `String.prototype.trim`,
    `toLowerCase` as far as the source compares its result with ASCII words,
    `String(n)` for integers and `padStart`. */
module Text {
  import opened Common

  /** JavaScript's WhiteSpace and LineTerminator characters: the set that
      `trim()` strips and that `\s` matches in a regular expression. */
  predicate IsSpace(c: char) {
    c == '\t' || c == '\n' || c == '\U{B}' || c == '\U{C}' || c == '\r' || c == ' '
    || c == '\U{A0}' || c == '\U{1680}' || ('\U{2000}' <= c <= '\U{200A}')
    || c == '\U{2028}' || c == '\U{2029}' || c == '\U{202F}' || c == '\U{205F}'
    || c == '\U{3000}' || c == '\U{FEFF}'
  }

  predicate IsBlank(s: string) {
    forall i :: 0 <= i < |s| ==> IsSpace(s[i])
  }

  /** `s` without its leading white space. */
  function TrimStart(s: string): (r: string)
    ensures |r| <= |s| && r == s[|s| - |r|..]
    ensures r == [] || !IsSpace(r[0])
    ensures forall i :: 0 <= i < |s| - |r| ==> IsSpace(s[i])
  {
    if s != [] && IsSpace(s[0]) then TrimStart(s[1..]) else s
  }

  /** `s` without its trailing white space. */
  function TrimEnd(s: string): (r: string)
    ensures |r| <= |s| && r == s[..|r|]
    ensures r == [] || !IsSpace(r[|r| - 1])
    ensures forall i :: |r| <= i < |s| ==> IsSpace(s[i])
  {
    if s != [] && IsSpace(s[|s| - 1]) then TrimEnd(s[..|s| - 1]) else s
  }

  /** `s.trim()`. */
  function Trim(s: string): string {
    TrimEnd(TrimStart(s))
  }

  /** `s.trim()` neither starts nor ends with white space. */
  lemma TrimEdges(s: string)
    ensures Trim(s) == [] || (!IsSpace(Trim(s)[0]) && !IsSpace(Trim(s)[|Trim(s)| - 1]))
  {
    var t := TrimStart(s);
    var r := TrimEnd(t);
    if r != [] {
      assert r[0] == t[0];
    }
  }

  /** `!s.trim()` holds exactly when `s` is white space only. */
  lemma TrimEmptyIffBlank(s: string)
    ensures Trim(s) == "" <==> IsBlank(s)
  {
    var t := TrimStart(s);
    if Trim(s) == "" {
      assert t == [];
    }
    if IsBlank(s) {
      assert t == [];
    }
  }

  /** Trimming an already trimmed string changes nothing. */
  lemma {:induction false} TrimIdempotent(s: string)
    ensures Trim(Trim(s)) == Trim(s)
  {
    var r := Trim(s);
    TrimEdges(s);
    if r != [] {
      assert TrimStart(r) == r;
      assert TrimEnd(r) == r;
    }
  }

  /** The ASCII lower-case of one character; other characters are kept. */
  function LowerChar(c: char): (d: char)
    ensures 'A' <= c <= 'Z' ==> 'a' <= d <= 'z' && d as int == c as int + 32
    ensures !('A' <= c <= 'Z') ==> d == c
  {
    if 'A' <= c <= 'Z' then (c as int + 32) as char else c
  }

  /** `s.toLowerCase()` as far as the source uses it: the result is only ever
      compared with ASCII words, and the only characters whose JavaScript lower
      case is an ASCII letter are `A`..`Z` and the Kelvin sign (which maps to
      `k`, a letter none of those words contains). */
  function Lower(s: string): (r: string)
    ensures |r| == |s|
  {
    seq(|s|, i requires 0 <= i < |s| => LowerChar(s[i]))
  }

  /** Case-insensitive equality with an all-lower-case ASCII word. */
  predicate EqualsIgnoringCase(s: string, word: string) {
    Lower(s) == word
  }

  /** The words "null" and "undefined" in any mix of cases. */
  predicate IsNullWord(s: string) {
    EqualsIgnoringCase(s, "null") || EqualsIgnoringCase(s, "undefined")
  }

  /** No character of `s` lies outside 0x00..0x7F (`!/[^\x00-\x7F]/.test(s)`). */
  predicate IsAscii(s: string) {
    forall i :: 0 <= i < |s| ==> s[i] as int < 128
  }

  /** How many UTF-16 code units JavaScript stores for a character: two (a
      surrogate pair) beyond U+FFFF, one otherwise. */
  function CodeUnits(c: char): nat {
    if c as int < 0x1_0000 then 1 else 2
  }

  /** `s.length` in JavaScript: the string's length in UTF-16 code units. */
  function Utf16Length(s: string): (n: nat)
    ensures |s| <= n <= 2 * |s|
    ensures n == |s| <==> forall i :: 0 <= i < |s| ==> s[i] as int < 0x1_0000
  {
    if s == [] then 0
    else
      var n := CodeUnits(s[0]) + Utf16Length(s[1..]);
      assert forall i :: 1 <= i < |s| ==> s[i] == s[1..][i - 1];
      n
  }

  /** JavaScript length 1 means one character from the Basic Multilingual Plane. */
  lemma OneCodeUnit(s: string)
    ensures Utf16Length(s) == 1 <==> |s| == 1 && s[0] as int < 0x1_0000
  {
    if |s| == 1 {
      assert s[1..] == [];
    }
  }

  // ---------------------------------------------------------------------
  // Decimal numerals: `String(n)` for integers, and reading them back.

  predicate IsDigit(c: char) { '0' <= c <= '9' }

  predicate IsDigits(s: string) {
    forall i :: 0 <= i < |s| ==> IsDigit(s[i])
  }

  function DigitChar(d: nat): (c: char)
    requires d < 10
    ensures IsDigit(c) && c as int - '0' as int == d
  {
    ('0' as int + d) as char
  }

  function DigitValue(c: char): nat
    requires IsDigit(c)
  {
    c as int - '0' as int
  }

  /** The shortest decimal numeral of `n`: `String(n)` for a non-negative integer. */
  function NatString(n: nat): (s: string)
    ensures |s| >= 1 && IsDigits(s)
    ensures |s| > 1 || n < 10
    ensures n > 0 ==> s[0] != '0'
    ensures n == 0 ==> s == "0"
    decreases n
  {
    if n < 10 then [DigitChar(n)] else NatString(n / 10) + [DigitChar(n % 10)]
  }

  /** `String(i)` for an integer: a minus sign before the magnitude when negative. */
  function IntString(i: int): (s: string)
    ensures |s| >= 1
    ensures i >= 0 ==> s == NatString(i)
    ensures i < 0 ==> s == "-" + NatString(-i)
  {
    if i < 0 then "-" + NatString(-i) else NatString(i)
  }

  /** The value of a string of decimal digits (empty reads as 0). */
  function DigitsValue(s: string): nat
    requires IsDigits(s)
  {
    if s == [] then 0 else DigitsValue(s[..|s| - 1]) * 10 + DigitValue(s[|s| - 1])
  }

  /** Reading `String(n)` back gives `n`. */
  lemma {:induction false} NatStringRoundTrip(n: nat)
    ensures DigitsValue(NatString(n)) == n
    decreases n
  {
    var s := NatString(n);
    if n >= 10 {
      NatStringRoundTrip(n / 10);
      assert s[..|s| - 1] == NatString(n / 10);
    }
  }

  /** Leading zeros do not change the value of a numeral. */
  lemma {:induction false} LeadingZerosValue(z: string, s: string)
    requires forall i :: 0 <= i < |z| ==> z[i] == '0'
    requires IsDigits(s)
    ensures IsDigits(z + s) && DigitsValue(z + s) == DigitsValue(s)
    decreases |s|
  {
    var t := z + s;
    assert IsDigits(t) by {
      forall i | 0 <= i < |t| ensures IsDigit(t[i]) {
        if i < |z| { assert t[i] == z[i]; } else { assert t[i] == s[i - |z|]; }
      }
    }
    if s == [] {
      assert t == z;
      AllZerosValue(z);
    } else {
      LeadingZerosValue(z, s[..|s| - 1]);
      assert t[..|t| - 1] == z + s[..|s| - 1];
    }
  }

  /** A string of zeros reads as 0. */
  lemma {:induction false} AllZerosValue(z: string)
    requires forall i :: 0 <= i < |z| ==> z[i] == '0'
    ensures IsDigits(z) && DigitsValue(z) == 0
    decreases |z|
  {
    if z != [] {
      AllZerosValue(z[..|z| - 1]);
    }
  }

  /** An optionally signed run of decimal digits, the one string form of a
      number this model reads. */
  function ParseInteger(s: string): (r: Option<int>)
    ensures r.Some? <==>
              || (|s| >= 1 && IsDigits(s))
              || (|s| >= 2 && (s[0] == '-' || s[0] == '+') && IsDigits(s[1..]))
  {
    if |s| >= 1 && IsDigits(s) then Some(DigitsValue(s))
    else if |s| >= 2 && s[0] == '-' && IsDigits(s[1..]) then Some(-(DigitsValue(s[1..]) as int))
    else if |s| >= 2 && s[0] == '+' && IsDigits(s[1..]) then Some(DigitsValue(s[1..]))
    else None
  }

  /** Reading `String(i)` back gives `i`, for every integer. */
  lemma IntStringRoundTrip(i: int)
    ensures ParseInteger(IntString(i)) == Some(i)
  {
    if i < 0 {
      NatStringRoundTrip(-i);
      assert IntString(i)[1..] == NatString(-i);
    } else {
      NatStringRoundTrip(i);
    }
  }

  // ---------------------------------------------------------------------
  // padStart

  function Repeat(c: char, n: nat): (r: string)
    ensures |r| == n && forall i :: 0 <= i < n ==> r[i] == c
  {
    if n == 0 then [] else [c] + Repeat(c, n - 1)
  }

  /** `s.padStart(width, fill)` with a one-character fill. */
  function PadStart(s: string, width: nat, fill: char): (r: string)
    ensures |r| == if |s| >= width then |s| else width
    ensures r[|r| - |s|..] == s
    ensures forall i :: 0 <= i < |r| - |s| ==> r[i] == fill
  {
    if |s| >= width then s else Repeat(fill, width - |s|) + s
  }

  /** A counter printed with at least three digits, as every human-facing
      shipment number is: `String(n).padStart(3, '0')`. */
  function Padded3(n: int): string {
    PadStart(IntString(n), 3, '0')
  }

  /** `s` without its leading zeros. */
  function StripZeros(s: string): (r: string)
    ensures |r| <= |s| && r == s[|s| - |r|..]
    ensures r == [] || r[0] != '0'
  {
    if s != [] && s[0] == '0' then StripZeros(s[1..]) else s
  }

  /** The padded numeral of a non-negative counter has at least three
      characters, all digits, reads back as the counter, and dropping its
      leading zeros gives `String(n)` again (for n > 0). */
  lemma PaddedNumberRecovers(n: nat)
    ensures |Padded3(n)| == (if n < 1000 then 3 else |NatString(n)|)
    ensures IsDigits(Padded3(n)) && DigitsValue(Padded3(n)) == n
    ensures n > 0 ==> StripZeros(Padded3(n)) == NatString(n)
  {
    var s := NatString(n);
    var p := Padded3(n);
    assert p == PadStart(s, 3, '0');
    if n < 1000 {
      NatStringBelow1000(n);
    } else {
      NatStringFrom1000(n);
    }
    var z := p[..|p| - |s|];
    assert p == z + s;
    PaddedValue(z, s, n);
    if n > 0 {
      StripLeadingZerosOf(z, s);
    }
  }

  /** Zeros in front of the numeral of `n` still read as `n`. */
  lemma PaddedValue(z: string, s: string, n: nat)
    requires forall i :: 0 <= i < |z| ==> z[i] == '0'
    requires s == NatString(n)
    ensures IsDigits(z + s) && DigitsValue(z + s) == n
  {
    NatStringRoundTrip(n);
    LeadingZerosValue(z, s);
  }

  /** A numeral from 1000 on has at least four digits. */
  lemma NatStringFrom1000(n: nat)
    requires n >= 1000
    ensures |NatString(n)| >= 4
  {
    assert NatString(n) == NatString(n / 10) + [DigitChar(n % 10)];
    assert NatString(n / 10) == NatString(n / 100) + [DigitChar(n / 10 % 10)];
    assert n / 100 >= 10;
  }

  /** A numeral below 1000 has at most three digits. */
  lemma NatStringBelow1000(n: nat)
    requires n < 1000
    ensures |NatString(n)| <= 3
  {
    if n >= 10 {
      assert |NatString(n / 10)| <= 2 by {
        if n / 10 >= 10 { assert n / 100 < 10; }
      }
    }
  }

  lemma {:induction false} StripLeadingZerosOf(z: string, s: string)
    requires forall i :: 0 <= i < |z| ==> z[i] == '0'
    requires s == [] || s[0] != '0'
    ensures StripZeros(z + s) == s
    decreases |z|
  {
    if z != [] {
      assert (z + s)[1..] == z[1..] + s;
      StripLeadingZerosOf(z[1..], s);
    } else {
      assert z + s == s;
    }
  }
}
