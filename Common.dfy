/**
 * Values and string operations shared by every component: an optional value,
 * a JavaScript number restricted to whole numbers (or NaN), ASCII lower-casing,
 * the `includes` substring test, and the decimal rendering and parsing of
 * amounts (`Number.prototype.toString` and `parseFloat`).
 */
module Common {

  datatype Option<+T> = None | Some(value: T)

  /** A JavaScript number as the model sees it: a whole number or NaN. */
  datatype Num = Finite(value: int) | NaN

  /** The outcome of a call that may throw an `Error` with a message. */
  datatype Result<+T> = Ok(value: T) | Thrown(message: string)

  // ---------------------------------------------------------------------
  // Lower-casing (`toLowerCase`) on the ASCII letters
  // ---------------------------------------------------------------------

  predicate IsUpper(c: char) { 'A' <= c <= 'Z' }

  function LowerChar(c: char): (r: char)
    ensures !IsUpper(r)
    ensures IsUpper(c) ==> r as int == c as int + 32
    ensures !IsUpper(c) ==> r == c
  {
    if IsUpper(c) then (c as int + 32) as char else c
  }

  function Lower(s: string): (r: string)
    ensures |r| == |s|
    ensures forall i :: 0 <= i < |r| ==> !IsUpper(r[i])
  {
    if s == [] then [] else [LowerChar(s[0])] + Lower(s[1..])
  }

  // ---------------------------------------------------------------------
  // `haystack.includes(needle)`
  // ---------------------------------------------------------------------

  /** True when `sub` occurs in `s` as a contiguous run of characters. */
  predicate Includes(s: string, sub: string)
    decreases |s|
  {
    if sub <= s then true
    else if |s| == 0 then false
    else Includes(s[1..], sub)
  }

  /** `sub` occurs in `s` starting at offset `i`. */
  predicate OccursAt(s: string, sub: string, i: int) {
    0 <= i <= |s| - |sub| && s[i..i + |sub|] == sub
  }

  /** Where `includes` succeeds, the offset at which it found the needle. */
  lemma {:induction false} IncludesWitness(s: string, sub: string) returns (i: int)
    requires Includes(s, sub)
    ensures OccursAt(s, sub, i)
    decreases |s|
  {
    if sub <= s {
      i := 0;
      assert s[0..|sub|] == sub;
    } else {
      var j := IncludesWitness(s[1..], sub);
      i := j + 1;
      assert s[i..i + |sub|] == s[1..][j..j + |sub|];
    }
  }

  /** An occurrence at any offset is found by `includes`. */
  lemma {:induction false} OccurrenceIsIncluded(s: string, sub: string, i: int)
    requires OccursAt(s, sub, i)
    ensures Includes(s, sub)
    decreases i
  {
    if i == 0 {
      assert s[..|sub|] == sub;
    } else if !(sub <= s) {
      assert s[1..][i - 1..i - 1 + |sub|] == s[i..i + |sub|];
      OccurrenceIsIncluded(s[1..], sub, i - 1);
    }
  }

  /** `includes` is exactly "occurs at some offset". */
  lemma IncludesIffOccursAt(s: string, sub: string)
    ensures Includes(s, sub) <==> exists i :: OccursAt(s, sub, i)
  {
    if Includes(s, sub) {
      var i := IncludesWitness(s, sub);
    }
    if exists i :: OccursAt(s, sub, i) {
      var i :| OccursAt(s, sub, i);
      OccurrenceIsIncluded(s, sub, i);
    }
  }

  /** A needle longer than the haystack never occurs in it. */
  lemma {:induction false} IncludesNeedsRoom(s: string, sub: string)
    requires |sub| > |s|
    ensures !Includes(s, sub)
    decreases |s|
  {
    if |s| > 0 {
      IncludesNeedsRoom(s[1..], sub);
    }
  }

  /** The empty needle occurs in every string, so an empty search term keeps everything. */
  lemma IncludesEmpty(s: string)
    ensures Includes(s, "")
  {
  }

  // ---------------------------------------------------------------------
  // Decimal rendering of whole numbers (`amount.toString()`)
  // ---------------------------------------------------------------------

  predicate IsDigit(c: char) { '0' <= c <= '9' }

  function DigitChar(d: nat): (c: char)
    requires d < 10
    ensures IsDigit(c) && c as int - '0' as int == d
  {
    ('0' as int + d) as char
  }

  function NatToString(n: nat): (r: string)
    ensures |r| > 0
    ensures forall i :: 0 <= i < |r| ==> IsDigit(r[i])
  {
    if n < 10 then [DigitChar(n)] else NatToString(n / 10) + [DigitChar(n % 10)]
  }

  function IntToString(n: int): (r: string)
    ensures |r| > 0
    ensures n >= 0 ==> forall i :: 0 <= i < |r| ==> IsDigit(r[i])
    ensures n < 0 ==> r[0] == '-'
  {
    if n < 0 then "-" + NatToString(-n) else NatToString(n)
  }

  /** A number in a template literal: its decimal digits, or "NaN". */
  function NumText(n: Num): (r: string)
    ensures n.Finite? ==> r == IntToString(n.value)
    ensures n.NaN? ==> r == "NaN"
  {
    match n
    case Finite(v) => IntToString(v)
    case NaN => "NaN"
  }

  // ---------------------------------------------------------------------
  // `parseFloat` on whole numbers: skip leading white space, read an
  // optional sign and the longest run of digits, ignore the rest; NaN when
  // there is no digit.
  // ---------------------------------------------------------------------

  /**
   * What `parseFloat` skips before the number: ECMAScript's white space
   * (tab, vertical tab, form feed, space, no-break space, the byte order mark
   * and the other space separators of Unicode category Zs) and its line
   * terminators (LF, CR, U+2028 and U+2029).
   */
  predicate IsSpace(c: char) {
    || c == '\t' || c == '\U{000B}' || c == '\U{000C}' || c == ' ' || c == '\U{00A0}' || c == '\U{FEFF}'
    || c == '\U{1680}' || ('\U{2000}' <= c <= '\U{200A}') || c == '\U{202F}' || c == '\U{205F}' || c == '\U{3000}'
    || c == '\n' || c == '\r' || c == '\U{2028}' || c == '\U{2029}'
  }

  function SkipSpaces(s: string): (r: string)
    ensures |r| <= |s| && r == s[|s| - |r|..]
    ensures r == [] || !IsSpace(r[0])
  {
    if s != [] && IsSpace(s[0]) then SkipSpaces(s[1..]) else s
  }

  /** The longest prefix of `s` made of digits. */
  function LeadingDigits(s: string): (r: string)
    ensures r <= s
    ensures forall i :: 0 <= i < |r| ==> IsDigit(r[i])
    ensures |r| == |s| || !IsDigit(s[|r|])
  {
    if s != [] && IsDigit(s[0]) then [s[0]] + LeadingDigits(s[1..]) else []
  }

  function DigitValue(c: char): nat
    requires IsDigit(c)
  {
    c as int - '0' as int
  }

  function DigitsValue(ds: string): nat
    requires forall i :: 0 <= i < |ds| ==> IsDigit(ds[i])
  {
    if ds == [] then 0
    else DigitsValue(ds[..|ds| - 1]) * 10 + DigitValue(ds[|ds| - 1])
  }

  function ParseUnsigned(s: string): Num {
    var ds := LeadingDigits(s);
    if ds == [] then NaN else Finite(DigitsValue(ds))
  }

  function ParseAmount(s: string): Num
  {
    var t := SkipSpaces(s);
    if t != [] && t[0] == '-' then
      match ParseUnsigned(t[1..])
      case Finite(v) => Finite(-v)
      case NaN => NaN
    else if t != [] && t[0] == '+' then ParseUnsigned(t[1..])
    else ParseUnsigned(t)
  }

  /** Only text holding a digit parses to a number. */
  lemma ParsedNumberHasDigit(s: string)
    ensures ParseAmount(s).Finite? ==> exists i :: 0 <= i < |s| && IsDigit(s[i])
  {
    var t := SkipSpaces(s);
    if ParseAmount(s).Finite? {
      var u := if t != [] && (t[0] == '-' || t[0] == '+') then t[1..] else t;
      var ds := LeadingDigits(u);
      assert ds != [] && IsDigit(ds[0]);
      assert s[|s| - |u|] == ds[0];
    }
  }

  lemma {:induction false} DigitsValueOfNat(n: nat)
    ensures DigitsValue(NatToString(n)) == n
  {
    if n >= 10 {
      DigitsValueOfNat(n / 10);
      var r := NatToString(n);
      assert r[..|r| - 1] == NatToString(n / 10);
    }
  }

  lemma {:induction false} LeadingDigitsOfDigits(s: string)
    requires forall i :: 0 <= i < |s| ==> IsDigit(s[i])
    ensures LeadingDigits(s) == s
  {
    if s != [] {
      LeadingDigitsOfDigits(s[1..]);
    }
  }

  lemma ParseUnsignedOfNat(n: nat)
    ensures ParseUnsigned(NatToString(n)) == Finite(n)
  {
    DigitsValueOfNat(n);
    LeadingDigitsOfDigits(NatToString(n));
  }

  /** Text that starts with a digit or a minus sign has no white space to skip. */
  lemma NothingToSkip(s: string)
    requires s != [] && (IsDigit(s[0]) || s[0] == '-')
    ensures SkipSpaces(s) == s
  {
    assert !IsSpace(s[0]);
  }

  /** Rendering a whole number and parsing it back gives the number again. */
  lemma ParseRendersBack(n: int)
    ensures ParseAmount(IntToString(n)) == Finite(n)
  {
    var r := IntToString(n);
    NothingToSkip(r);
    if n < 0 {
      ParseUnsignedOfNat(-n);
      assert r[1..] == NatToString(-n);
    } else {
      ParseUnsignedOfNat(n);
    }
  }
}
