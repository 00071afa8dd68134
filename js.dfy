/** The JavaScript built-ins the app relies on, restated over Dafny values:
    truthiness of stored strings, `String.prototype.includes`, `split(sep)[0]`,
    `toLowerCase`, `parseInt` and the decimal text of an integer. */
module Js {

  datatype Option<+T> = None | Some(value: T)

  /** A JSON value, as carried in request bodies and in queued actions. */
  datatype Json =
    | JNull
    | JBool(b: bool)
    | JNum(n: int)
    | JStr(s: string)
    | JArr(items: seq<Json>)
    | JObj(members: seq<(string, Json)>)

  /** JavaScript truthiness of a string read from localStorage: `null` and `""` are falsy. */
  predicate Truthy(s: Option<string>)
  {
    s.Some? && s.value != ""
  }

  /** `hay.startsWith(prefix)` */
  predicate StartsWith(hay: string, prefix: string)
  {
    |prefix| <= |hay| && hay[..|prefix|] == prefix
  }

  /** `hay.includes(needle)`, scanning from the left. */
  predicate Includes(hay: string, needle: string)
    decreases |hay|
  {
    StartsWith(hay, needle) || (hay != [] && Includes(hay[1..], needle))
  }

  /** The needle occurs in `hay` starting at offset `i`. */
  predicate OccursAt(hay: string, needle: string, i: int)
  {
    0 <= i <= |hay| - |needle| && hay[i..i + |needle|] == needle
  }

  /** The scan agrees with the positional reading of `includes`: the needle occurs at some offset. */
  lemma {:induction false} IncludesAtOffset(hay: string, needle: string)
    ensures Includes(hay, needle) <==> exists i :: OccursAt(hay, needle, i)
    decreases |hay|
  {
    if Includes(hay, needle) {
      if StartsWith(hay, needle) {
        assert OccursAt(hay, needle, 0);
      } else {
        IncludesAtOffset(hay[1..], needle);
        var i :| OccursAt(hay[1..], needle, i);
        assert hay[i + 1..i + 1 + |needle|] == hay[1..][i..i + |needle|];
        assert OccursAt(hay, needle, i + 1);
      }
    }
    if exists i :: OccursAt(hay, needle, i) {
      var i :| OccursAt(hay, needle, i);
      if i == 0 {
        assert StartsWith(hay, needle);
      } else {
        assert hay[1..][i - 1..i - 1 + |needle|] == hay[i..i + |needle|];
        assert OccursAt(hay[1..], needle, i - 1);
        IncludesAtOffset(hay[1..], needle);
      }
    }
  }

  /** Every string includes the empty string and itself. */
  lemma IncludesEmptyAndSelf(s: string)
    ensures Includes(s, "") && Includes(s, s)
  {
    assert s[..0] == "";
    assert s[..|s|] == s;
  }

  /** `lang.split(sep)[0]`: the text before the first separator, or all of it. */
  function SplitHead(s: string, sep: char): (r: string)
    ensures StartsWith(s, r)
    ensures sep !in r
    ensures |r| < |s| ==> s[|r|] == sep
  {
    if s == [] || s[0] == sep then [] else [s[0]] + SplitHead(s[1..], sep)
  }

  /** `toLowerCase` on one character (ASCII letters only). */
  function LowerChar(c: char): char
  {
    if 'A' <= c <= 'Z' then (c as int + 32) as char else c
  }

  /** `s.toLowerCase()` (ASCII letters only). */
  function ToLowerCase(s: string): string
  {
    seq(|s|, i requires 0 <= i < |s| => LowerChar(s[i]))
  }

  predicate IsDigit(c: char)
  {
    '0' <= c <= '9'
  }

  predicate AllDigits(s: string)
  {
    forall i :: 0 <= i < |s| ==> IsDigit(s[i])
  }

  predicate IsSpace(c: char)
  {
    c == ' ' || c == '\t' || c == '\n' || c == '\r'
  }

  function DigitChar(d: nat): char
    requires d < 10
  {
    "0123456789"[d]
  }

  /** The decimal numeral of a natural number, most significant digit first. */
  function NatToDecimal(n: nat): (r: string)
    ensures |r| > 0 && AllDigits(r)
  {
    if n < 10 then [DigitChar(n)] else NatToDecimal(n / 10) + [DigitChar(n % 10)]
  }

  /** `String(n)` for an integer-valued number. */
  function NumberToString(n: int): (r: string)
  {
    if n < 0 then "-" + NatToDecimal(-n) else NatToDecimal(n)
  }

  function DigitsValue(ds: string): nat
    requires AllDigits(ds)
  {
    if ds == [] then 0 else DigitsValue(ds[..|ds| - 1]) * 10 + (ds[|ds| - 1] as int - '0' as int)
  }

  function TrimStart(s: string): (r: string)
  {
    if s != [] && IsSpace(s[0]) then TrimStart(s[1..]) else s
  }

  /** The longest prefix of `s` made of decimal digits. */
  function DigitRun(s: string): (r: string)
    ensures StartsWith(s, r) && AllDigits(r)
    ensures |r| < |s| ==> !IsDigit(s[|r|])
  {
    if s != [] && IsDigit(s[0]) then [s[0]] + DigitRun(s[1..]) else []
  }

  /** `parseInt(s)` with no radix, on decimal text: leading white space, an optional
      sign, then the longest run of digits; `None` stands for NaN (no digit at all). */
  function ParseInt(s: string): Option<int>
  {
    var t := TrimStart(s);
    var negative := t != [] && t[0] == '-';
    var unsigned := if t != [] && (t[0] == '-' || t[0] == '+') then t[1..] else t;
    var ds := DigitRun(unsigned);
    if ds == [] then None else Some(if negative then -(DigitsValue(ds) as int) else DigitsValue(ds) as int)
  }

  lemma {:induction false} DigitsValueOfDecimal(n: nat)
    ensures DigitsValue(NatToDecimal(n)) == n
  {
    if n >= 10 {
      var r := NatToDecimal(n);
      DigitsValueOfDecimal(n / 10);
      assert r[..|r| - 1] == NatToDecimal(n / 10);
    }
  }

  lemma {:induction false} DigitRunOfDigits(ds: string, rest: string)
    requires AllDigits(ds)
    requires rest == [] || !IsDigit(rest[0])
    ensures DigitRun(ds + rest) == ds
  {
    if ds != [] {
      assert (ds + rest)[1..] == ds[1..] + rest;
      DigitRunOfDigits(ds[1..], rest);
    }
  }

  /** `parseInt` reads back the decimal text of any integer, whatever non-digit text follows it
      (so "12.5" gives 12 and "7 kg" gives 7). */
  lemma ParseIntOfNumberToString(n: int, rest: string)
    requires rest == [] || !IsDigit(rest[0])
    ensures ParseInt(NumberToString(n) + rest) == Some(n)
  {
    var m: nat := if n < 0 then -n else n;
    var digits := NatToDecimal(m);
    DigitsValueOfDecimal(m);
    DigitRunOfDigits(digits, rest);
    if n < 0 {
      ParseIntOfSigned(true, digits, rest);
      assert NumberToString(n) + rest == "-" + digits + rest;
    } else {
      ParseIntOfSigned(false, digits, rest);
      assert NumberToString(n) + rest == digits + rest;
    }
  }

  /** `parseInt` on an optional minus sign, a non-empty run of digits and text that does not
      start with a digit. */
  lemma ParseIntOfSigned(negative: bool, digits: string, rest: string)
    requires |digits| > 0 && AllDigits(digits)
    requires DigitRun(digits + rest) == digits
    ensures var s := (if negative then "-" else "") + digits + rest;
            ParseInt(s) == Some(if negative then -(DigitsValue(digits) as int) else DigitsValue(digits) as int)
  {
    var s := (if negative then "-" else "") + digits + rest;
    assert !IsSpace(s[0]) by {
      if !negative {
        assert s[0] == digits[0];
      }
    }
    assert TrimStart(s) == s;
    if negative {
      assert s[1..] == digits + rest;
    } else {
      assert s == digits + rest;
      assert s[0] != '-' && s[0] != '+' by {
        assert s[0] == digits[0];
      }
    }
  }
}
