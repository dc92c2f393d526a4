/** Decimal numerals: `String(n)` / template interpolation of a natural
    number, JavaScript's `parseInt(s, 10)` and `parseInt(s)`, and the
    `split(" ")[1]` the bimester chart uses to find the number in a label. */
module Numerals {
  import opened Base

  predicate IsDigit(c: char) { '0' <= c <= '9' }

  function DigitChar(d: nat): char
    requires d < 10
  {
    ('0' as int + d) as char
  }

  function DigitValue(c: char): nat
    requires IsDigit(c)
  {
    c as int - '0' as int
  }

  /** `${n}` for a natural number: its decimal digits, no leading zero. */
  function DecimalString(n: nat): (r: string)
    ensures |r| >= 1
    ensures forall i :: 0 <= i < |r| ==> IsDigit(r[i])
    ensures |r| > 1 ==> r[0] != '0'
  {
    if n < 10 then [DigitChar(n)] else DecimalString(n / 10) + [DigitChar(n % 10)]
  }

  /** The value of a string of digits. */
  function DigitsValue(ds: string): nat
    requires forall i :: 0 <= i < |ds| ==> IsDigit(ds[i])
  {
    if ds == [] then 0 else DigitsValue(ds[..|ds| - 1]) * 10 + DigitValue(ds[|ds| - 1])
  }

  /** The longest prefix made of digits. */
  function LeadingDigits(s: string): (r: string)
    ensures |r| <= |s| && r == s[..|r|]
    ensures forall i :: 0 <= i < |r| ==> IsDigit(r[i])
    ensures |r| < |s| ==> !IsDigit(s[|r|])
  {
    if s == [] || !IsDigit(s[0]) then [] else [s[0]] + LeadingDigits(s[1..])
  }

  /** The characters `parseInt` skips: JavaScript's white space (tab,
      vertical tab, form feed, the byte-order mark and every space
      separator) and its line terminators. */
  predicate IsSpace(c: char)
  {
    c == '\t' || c == '\U{000B}' || c == '\U{000C}' || c == '\U{FEFF}'
    || c == ' ' || c == '\U{00A0}' || c == '\U{1680}' || '\U{2000}' <= c <= '\U{200A}'
    || c == '\U{202F}' || c == '\U{205F}' || c == '\U{3000}'
    || c == '\n' || c == '\r' || c == '\U{2028}' || c == '\U{2029}'
  }

  function TrimStart(s: string): (r: string)
    ensures |r| <= |s|
    ensures r == s[|s| - |r|..]
    ensures r != [] ==> !IsSpace(r[0])
  {
    if s != [] && IsSpace(s[0]) then TrimStart(s[1..]) else s
  }

  /** `parseInt(s, 10)`: leading white space skipped, an optional sign,
      then as many digits as there are; NaN when there is no digit. */
  function ParseInt(s: string): (r: JsNum)
    ensures r.NaN? <==> LeadingDigits(Unsigned(TrimStart(s))) == []
  {
    var t := TrimStart(s);
    var ds := LeadingDigits(Unsigned(t));
    if ds == [] then NaN
    else if t[0] == '-' then Num(-(DigitsValue(ds) as int))
    else Num(DigitsValue(ds))
  }

  predicate IsHexDigit(c: char) { IsDigit(c) || 'a' <= c <= 'f' || 'A' <= c <= 'F' }

  function HexValue(c: char): (r: nat)
    requires IsHexDigit(c)
    ensures r < 16
    ensures IsDigit(c) ==> r == DigitValue(c)
  {
    if IsDigit(c) then DigitValue(c)
    else if 'a' <= c <= 'f' then c as int - 'a' as int + 10
    else c as int - 'A' as int + 10
  }

  /** The value of a string of hexadecimal digits. */
  function HexDigitsValue(ds: string): nat
    requires forall i :: 0 <= i < |ds| ==> IsHexDigit(ds[i])
  {
    if ds == [] then 0 else HexDigitsValue(ds[..|ds| - 1]) * 16 + HexValue(ds[|ds| - 1])
  }

  /** The longest prefix made of hexadecimal digits. */
  function LeadingHexDigits(s: string): (r: string)
    ensures |r| <= |s| && r == s[..|r|]
    ensures forall i :: 0 <= i < |r| ==> IsHexDigit(r[i])
    ensures |r| < |s| ==> !IsHexDigit(s[|r|])
  {
    if s == [] || !IsHexDigit(s[0]) then [] else [s[0]] + LeadingHexDigits(s[1..])
  }

  /** "0x" or "0X": the prefix that turns a radix-less `parseInt` to base 16. */
  predicate HasHexPrefix(u: string)
  {
    |u| >= 2 && u[0] == '0' && (u[1] == 'x' || u[1] == 'X')
  }

  /** `parseInt(s)` with no radix: as `parseInt(s, 10)`, except that after
      the sign a "0x" or "0X" prefix switches to hexadecimal, and is NaN
      when no hexadecimal digit follows it. */
  function ParseIntAnyRadix(s: string): (r: JsNum)
    ensures !HasHexPrefix(Unsigned(TrimStart(s))) ==> r == ParseInt(s)
    ensures HasHexPrefix(Unsigned(TrimStart(s))) ==>
      (r.NaN? <==> LeadingHexDigits(Unsigned(TrimStart(s))[2..]) == [])
  {
    var t := TrimStart(s);
    var u := Unsigned(t);
    if !HasHexPrefix(u) then ParseInt(s)
    else
      var ds := LeadingHexDigits(u[2..]);
      if ds == [] then NaN
      else if t[0] == '-' then Num(-(HexDigitsValue(ds) as int))
      else Num(HexDigitsValue(ds))
  }

  /** Where the two readings part: "0x1A" is 26 without a radix and 0 in
      base 10; "0x" alone is NaN without a radix and 0 in base 10. */
  lemma HexPrefixReadings()
    ensures ParseIntAnyRadix("0x1A") == Num(26) && ParseInt("0x1A") == Num(0)
    ensures ParseIntAnyRadix("0x").NaN? && ParseInt("0x") == Num(0)
  {
    HexReading("0x1A", "1A");
    HexReading("0x", "");
    assert LeadingHexDigits("1A") == "1A" by {
      assert "1A"[1..] == "A";
      assert LeadingHexDigits("A") == "A" by {
        assert "A"[1..] == [];
      }
    }
    assert HexDigitsValue("1A") == 26 by {
      assert "1A"[..1] == "1";
      assert "1"[..0] == [];
    }
  }

  /** A text "0x" followed by `rest`: base 10 stops at the "x", reading
      0, while without a radix the digits after the prefix count. */
  lemma HexReading(s: string, rest: string)
    requires s == "0x" + rest
    ensures TrimStart(s) == s && Unsigned(s) == s && HasHexPrefix(s) && s[2..] == rest
    ensures ParseInt(s) == Num(0)
  {
    assert !IsSpace(s[0]) && !IsDigit(s[1]);
    assert s[1..][0] == 'x';
    assert LeadingDigits(s[1..]) == [];
    assert LeadingDigits(s) == "0";
    assert TrimStart(s) == s && Unsigned(s) == s;
    assert DigitsValue("0") == 0 by {
      assert "0"[..0] == [];
    }
  }

  /** A printed natural number has no hexadecimal prefix, so both
      readings give it back. */
  lemma AnyRadixReadsDecimal(n: nat)
    ensures ParseIntAnyRadix(DecimalString(n)) == Num(n)
  {
    var s := DecimalString(n);
    ParseIntReadsDecimal(n);
    assert !HasHexPrefix(s) by {
      if |s| >= 2 {
        assert IsDigit(s[1]);
      }
    }
  }

  /** The text after an optional leading sign. */
  function Unsigned(t: string): string
  {
    if t != [] && (t[0] == '-' || t[0] == '+') then t[1..] else t
  }

  lemma {:induction false} DigitsValueOfDecimal(n: nat)
    ensures DigitsValue(DecimalString(n)) == n
  {
    if n >= 10 {
      DigitsValueOfDecimal(n / 10);
      var s := DecimalString(n);
      assert s[..|s| - 1] == DecimalString(n / 10);
    }
  }

  lemma {:induction false} AllDigitsAreLeading(s: string)
    requires forall i :: 0 <= i < |s| ==> IsDigit(s[i])
    ensures LeadingDigits(s) == s
  {
    if s != [] {
      AllDigitsAreLeading(s[1..]);
    }
  }

  /** Reading back a printed natural number gives the number. */
  lemma ParseIntReadsDecimal(n: nat)
    ensures ParseInt(DecimalString(n)) == Num(n)
    ensures TrimStart(DecimalString(n)) == DecimalString(n) && Unsigned(DecimalString(n)) == DecimalString(n)
  {
    var s := DecimalString(n);
    assert IsDigit(s[0]);
    assert TrimStart(s) == s;
    assert Unsigned(s) == s;
    AllDigitsAreLeading(s);
    DigitsValueOfDecimal(n);
    assert ParseInt(s) == Num(DigitsValue(s));
  }

  /** `s.split(" ")[1]`: the text between the first and the second space,
      `undefined` when there is no space. */
  function SecondWord(s: string): (r: Option<string>)
    ensures r.None? <==> ' ' !in s
  {
    if s == [] then None
    else if s[0] == ' ' then Some(FirstWord(s[1..]))
    else SecondWord(s[1..])
  }

  /** `s.split(" ")[0]`. */
  function FirstWord(s: string): (r: string)
    ensures ' ' !in r
  {
    if s == [] || s[0] == ' ' then [] else [s[0]] + FirstWord(s[1..])
  }

  /** `parseInt(s.split(" ")[1], 10)`: `parseInt(undefined)` is NaN. */
  function NumberAfterSpace(s: string): (r: JsNum)
    ensures ' ' !in s ==> r.NaN?
  {
    match SecondWord(s)
    case None => NaN
    case Some(w) => ParseInt(w)
  }

  /** `parseInt("Bimestre " + n)` style labels read back their number. */
  lemma NumberAfterSpaceReadsLabel(word: string, n: nat)
    requires ' ' !in word
    ensures NumberAfterSpace(word + " " + DecimalString(n)) == Num(n)
  {
    SecondWordAfter(word, DecimalString(n));
    FirstWordOfWord(DecimalString(n));
    ParseIntReadsDecimal(n);
  }

  lemma {:induction false} SecondWordAfter(word: string, rest: string)
    requires ' ' !in word
    ensures SecondWord(word + " " + rest) == Some(FirstWord(rest))
  {
    if word != [] {
      assert (word + " " + rest)[1..] == word[1..] + " " + rest;
      SecondWordAfter(word[1..], rest);
    } else {
      assert (word + " " + rest)[1..] == rest;
    }
  }

  lemma {:induction false} FirstWordOfWord(s: string)
    requires ' ' !in s
    ensures FirstWord(s) == s
  {
    if s != [] {
      FirstWordOfWord(s[1..]);
      assert [s[0]] + s[1..] == s;
    }
  }

  /** A printed number has no space, so `split(" ")[1]` of it is undefined. */
  lemma DecimalHasNoSpace(n: nat)
    ensures ' ' !in DecimalString(n)
    ensures NumberAfterSpace(DecimalString(n)).NaN?
  {
    var s := DecimalString(n);
    assert forall i :: 0 <= i < |s| ==> s[i] != ' ';
  }

  lemma NoDecimalHasSpace()
    ensures forall n: nat :: ' ' !in DecimalString(n)
  {
    forall n: nat ensures ' ' !in DecimalString(n) {
      DecimalHasNoSpace(n);
    }
  }
}
