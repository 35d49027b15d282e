/** Decimal digits inside type and transform names: the `\d+` and `\s*` pieces of the
    grammars, Rust's `str::parse` for unsigned integers, and Rust's `Display` for them. */
module NumberText {
  import opened Wrappers
  import opened JsonValue

  /** Rust's `str::starts_with`. */
  predicate StartsWith(s: string, prefix: string)
  {
    |prefix| <= |s| && s[..|prefix|] == prefix
  }

  predicate IsDigit(c: char) { '0' <= c <= '9' }

  predicate AllDigits(s: string) { forall i :: 0 <= i < |s| ==> IsDigit(s[i]) }

  /** The code points of Unicode White_Space, which is what `\s` matches in the Rust regex crate. */
  const WHITE_SPACE: set<int> := {
    0x09, 0x0A, 0x0B, 0x0C, 0x0D, 0x20, 0x85, 0xA0, 0x1680,
    0x2000, 0x2001, 0x2002, 0x2003, 0x2004, 0x2005, 0x2006, 0x2007, 0x2008, 0x2009, 0x200A,
    0x2028, 0x2029, 0x202F, 0x205F, 0x3000 }

  predicate IsSpace(c: char) { c as int in WHITE_SPACE }

  predicate AllSpace(s: string) { forall i :: 0 <= i < |s| ==> IsSpace(s[i]) }

  lemma DigitIsNotSpace(c: char)
    requires IsDigit(c)
    ensures !IsSpace(c) && c != ',' && c != ')' && c != ']'
  {
  }

  function DigitValue(c: char): nat
    requires IsDigit(c)
  {
    c as int - '0' as int
  }

  /** The value of a digit string, most significant digit first. */
  function DigitsValue(s: string): nat
    requires AllDigits(s)
  {
    if |s| == 0 then 0 else DigitsValue(s[..|s| - 1]) * 10 + DigitValue(s[|s| - 1])
  }

  function DigitChar(d: nat): (c: char)
    requires d < 10
    ensures IsDigit(c) && DigitValue(c) == d
  {
    ('0' as int + d) as char
  }

  /** Rust's `Display` for an unsigned integer: shortest decimal text, no sign. */
  function NatToDigits(n: nat): (s: string)
    ensures 0 < |s| && AllDigits(s)
    ensures DigitsValue(s) == n
    ensures s[0] == '0' ==> n == 0 && s == "0"
  {
    if n < 10 then [DigitChar(n)]
    else
      var prefix := NatToDigits(n / 10);
      var s := prefix + [DigitChar(n % 10)];
      assert s[..|s| - 1] == prefix;
      s
  }

  /** `str::parse::<u32>` on a digit string: fails exactly on overflow. */
  function ParseU32(digits: string, text: string): (r: Result<U32>)
    requires AllDigits(digits)
    ensures r.Ok? <==> DigitsValue(digits) < 0x1_0000_0000
    ensures r.Ok? ==> r.value == DigitsValue(digits)
    ensures r.Err? ==> r == Err(InvalidNumber(text))
  {
    if DigitsValue(digits) < 0x1_0000_0000 then Ok(DigitsValue(digits)) else Err(InvalidNumber(text))
  }

  // ----- `name[N]`: the grammar of fixed[N], bucket[N] and truncate[N] -----

  /** `s` is `name[digits]` with a non-empty run of digits. */
  ghost predicate Bracketed(name: string, s: string, digits: string)
  {
    s == name + "[" + digits + "]" && 0 < |digits| && AllDigits(digits)
  }

  lemma BracketedDigits(name: string, s: string, digits: string)
    requires Bracketed(name, s, digits)
    ensures |name| + 1 < |s| - 1 && s[..|name| + 1] == name + "["
    ensures s[|s| - 1] == ']' && s[|name| + 1..|s| - 1] == digits
  {
    var k := |name| + 1;
    assert s[..k] == (name + "[" + digits + "]")[..k];
    assert s[k..|s| - 1] == (name + "[" + digits + "]")[k..|s| - 1];
  }

  /** Matches `^name\[(\d+)\]$` and reads the digits as a u32. A string that does not match
      is a format error; matching digits that overflow u32 are a number error. */
  function ParseBracketed(name: string, s: string): (r: Result<U32>)
    ensures r.Ok? <==> exists d :: Bracketed(name, s, d) && DigitsValue(d) < 0x1_0000_0000
    ensures r.Ok? ==> exists d :: Bracketed(name, s, d) && DigitsValue(d) == r.value
    ensures (forall d :: !Bracketed(name, s, d)) ==> r == Err(WrongFormat(s))
  {
    var k := |name| + 1;
    if k < |s| - 1 && s[..k] == name + "[" && s[|s| - 1] == ']' && AllDigits(s[k..|s| - 1]) then
      var d := s[k..|s| - 1];
      assert s == s[..k] + d + [s[|s| - 1]];
      assert Bracketed(name, s, d);
      assert forall d' :: Bracketed(name, s, d') ==> d' == d by {
        forall d' | Bracketed(name, s, d') ensures d' == d { BracketedDigits(name, s, d'); }
      }
      ParseU32(d, s)
    else
      assert forall d :: !Bracketed(name, s, d) by {
        forall d | Bracketed(name, s, d) ensures false { BracketedDigits(name, s, d); }
      }
      Err(WrongFormat(s))
  }

  /** Digit literals and their values. */
  lemma TwoDigits(s: string, v: nat)
    requires |s| == 2 && IsDigit(s[0]) && IsDigit(s[1]) && v == DigitValue(s[0]) * 10 + DigitValue(s[1])
    ensures AllDigits(s) && DigitsValue(s) == v
  {
    var h := s[..1];
    assert h[..0] == [] && h[0] == s[0];
    assert DigitsValue(h) == DigitValue(s[0]);
    assert s[..|s| - 1] == h;
  }

  lemma OneDigit(s: string, v: nat)
    requires |s| == 1 && IsDigit(s[0]) && v == DigitValue(s[0])
    ensures AllDigits(s) && DigitsValue(s) == v
  {
    assert s[..0] == [];
  }

  lemma ThreeDigits(s: string, v: nat)
    requires |s| == 3 && IsDigit(s[0]) && IsDigit(s[1]) && IsDigit(s[2])
    requires v == (DigitValue(s[0]) * 10 + DigitValue(s[1])) * 10 + DigitValue(s[2])
    ensures AllDigits(s) && DigitsValue(s) == v
  {
    TwoDigits(s[..2], DigitValue(s[0]) * 10 + DigitValue(s[1]));
    assert s[..|s| - 1] == s[..2];
  }

  /** A string in the grammar reads as the value of its digits, when that fits a u32. */
  lemma BracketedValue(name: string, s: string, digits: string)
    requires Bracketed(name, s, digits) && DigitsValue(digits) < 0x1_0000_0000
    ensures ParseBracketed(name, s) == Ok(DigitsValue(digits))
  {
    BracketedDigits(name, s, digits);
  }

  /** `format!("name[{}]", n)`. */
  function FormatBracketed(name: string, n: U32): string
  {
    name + "[" + NatToDigits(n) + "]"
  }

  lemma {:induction false} BracketedRoundTrip(name: string, n: U32)
    ensures ParseBracketed(name, FormatBracketed(name, n)) == Ok(n)
  {
    var s := FormatBracketed(name, n);
    assert Bracketed(name, s, NatToDigits(n));
    BracketedDigits(name, s, NatToDigits(n));
  }
}
