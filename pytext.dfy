/**
 * The few Python string operations the analyzer relies on, written out:
 * `str.strip()`, `str.upper()`, `str.startswith`, the substring test `in`,
 * `str(n)` for an integer and `int(s)` for a string, with the limit Python
 * puts on the number of decimal digits those two conversions handle.
 */
module PyText {
  import opened Wrappers

  /** `c.isspace()`: the characters Python counts as whitespace. */
  predicate IsSpace(c: char) {
    var n := c as int;
    (9 <= n <= 13) || (28 <= n <= 32) || n == 0x85 || n == 0xA0 || n == 0x1680
    || (0x2000 <= n <= 0x200A) || n == 0x2028 || n == 0x2029 || n == 0x202F
    || n == 0x205F || n == 0x3000
  }

  /** The whitespace `int()` skips around the digits: that of `isspace()` except the four
      information separators U+001C to U+001F, which `int()` rejects. */
  predicate IsIntSpace(c: char) {
    IsSpace(c) && !(28 <= c as int <= 31)
  }

  /** Whitespace as `str.strip()` sees it or, when `forInt`, as `int()` sees it. */
  predicate IsBlank(c: char, forInt: bool) {
    if forInt then IsIntSpace(c) else IsSpace(c)
  }

  /** Drops the leading whitespace and nothing else (`s.lstrip()` when not `forInt`). */
  function TrimStart(s: string, forInt: bool): (r: string)
    ensures |r| <= |s| && r == s[|s| - |r|..]
    ensures r == [] || !IsBlank(r[0], forInt)
    ensures forall i :: 0 <= i < |s| - |r| ==> IsBlank(s[i], forInt)
  {
    if |s| > 0 && IsBlank(s[0], forInt) then
      var r := TrimStart(s[1..], forInt);
      assert forall i :: 1 <= i < |s| - |r| ==> s[i] == s[1..][i - 1];
      r
    else s
  }

  /** Drops the trailing whitespace and nothing else (`s.rstrip()` when not `forInt`). */
  function TrimEnd(s: string, forInt: bool): (r: string)
    ensures |r| <= |s| && r == s[..|r|]
    ensures r == [] || !IsBlank(r[|r| - 1], forInt)
    ensures forall i :: |r| <= i < |s| ==> IsBlank(s[i], forInt)
  {
    if |s| > 0 && IsBlank(s[|s| - 1], forInt) then TrimEnd(s[..|s| - 1], forInt) else s
  }

  /** `s.strip()`. */
  function Strip(s: string): (r: string)
    ensures |r| <= |s|
    ensures r == [] || (!IsSpace(r[0]) && !IsSpace(r[|r| - 1]))
  {
    TrimEnd(TrimStart(s, false), false)
  }

  /** The text `int()` reads once the whitespace it skips is gone from both ends. */
  function IntStrip(s: string): (r: string)
    ensures |r| <= |s|
    ensures r == [] || (!IsIntSpace(r[0]) && !IsIntSpace(r[|r| - 1]))
  {
    TrimEnd(TrimStart(s, true), true)
  }

  /** Stripping keeps a contiguous run of the input and drops only whitespace around it. */
  lemma StripIsSlice(s: string) returns (i: nat, j: nat)
    ensures i <= j <= |s| && Strip(s) == s[i..j]
    ensures forall k :: 0 <= k < i ==> IsSpace(s[k])
    ensures forall k :: j <= k < |s| ==> IsSpace(s[k])
  {
    var t := TrimStart(s, false);
    i := |s| - |t|;
    j := i + |TrimEnd(t, false)|;
    assert TrimEnd(t, false) == t[..j - i];
    forall k | j <= k < |s| ensures IsSpace(s[k]) {
      assert s[k] == t[k - i];
    }
  }

  /** `IntStrip` keeps one contiguous run of the input and drops only the whitespace
      `int()` skips before and after it. */
  lemma IntStripIsSlice(s: string) returns (i: nat, j: nat)
    ensures i <= j <= |s| && IntStrip(s) == s[i..j]
    ensures forall k :: 0 <= k < i ==> IsIntSpace(s[k])
    ensures forall k :: j <= k < |s| ==> IsIntSpace(s[k])
  {
    var t := TrimStart(s, true);
    i := |s| - |t|;
    j := i + |TrimEnd(t, true)|;
    assert TrimEnd(t, true) == t[..j - i];
    forall k | j <= k < |s| ensures IsIntSpace(s[k]) {
      assert s[k] == t[k - i];
    }
  }

  /** A string with no whitespace at either end is left as it is. */
  lemma StripKeepsTrimmed(s: string)
    requires s == [] || (!IsSpace(s[0]) && !IsSpace(s[|s| - 1]))
    ensures Strip(s) == s
  {
  }

  /** The same for the whitespace `int()` skips. */
  lemma IntStripKeepsTrimmed(s: string)
    requires s == [] || (!IsIntSpace(s[0]) && !IsIntSpace(s[|s| - 1]))
    ensures IntStrip(s) == s
  {
  }

  /** Stripping twice is stripping once. */
  lemma StripIdempotent(s: string)
    ensures Strip(Strip(s)) == Strip(s)
  {
    StripKeepsTrimmed(Strip(s));
  }

  /** `c.upper()`: ASCII letters, and the non-ASCII characters whose upper case is
      made of ASCII letters that can begin PASS, FAIL or SKIP: ß, dotless ı, long ſ and
      the two st ligatures ﬅ and ﬆ. */
  function UpperChar(c: char): (r: string)
    ensures 1 <= |r| <= 2
    ensures 'a' <= c <= 'z' ==> r == [(c as int - 32) as char]
  {
    if 'a' <= c <= 'z' then [(c as int - 32) as char]
    else if c == 'ß' then "SS"
    else if c == 'ı' then "I"
    else if c == 'ſ' then "S"
    else if c == '\U{FB05}' || c == '\U{FB06}' then "ST"
    else [c]
  }

  /** `s.upper()`. */
  function Upper(s: string): (r: string)
    ensures |s| <= |r| <= 2 * |s|
  {
    if s == [] then [] else UpperChar(s[0]) + Upper(s[1..])
  }

  /** Upper-casing starts with `status` when the first characters upper-case one by one to it. */
  lemma {:induction false} UpperStartsWith(s: string, status: string)
    requires |status| <= |s|
    requires forall i :: 0 <= i < |status| ==> UpperChar(s[i]) == [status[i]]
    ensures StartsWith(Upper(s), status)
  {
    if status != [] {
      UpperStartsWith(s[1..], status[1..]);
      assert Upper(s) == [status[0]] + Upper(s[1..]);
      assert Upper(s)[..|status|] == [status[0]] + Upper(s[1..])[..|status| - 1];
    }
  }

  /** `s.startswith(prefix)`. */
  predicate StartsWith(s: string, prefix: string) {
    |prefix| <= |s| && s[..|prefix|] == prefix
  }

  /** `needle` occurs in `hay` starting at index `i`. */
  ghost predicate OccursAt(hay: string, needle: string, i: int) {
    0 <= i && i + |needle| <= |hay| && hay[i..i + |needle|] == needle
  }

  /** `needle in hay`, by trying each starting position in turn. */
  predicate Contains(hay: string, needle: string)
    decreases |hay|
  {
    StartsWith(hay, needle) || (|hay| > 0 && Contains(hay[1..], needle))
  }

  /** The substring test holds exactly when the needle occurs at some position. */
  lemma {:induction false} ContainsIff(hay: string, needle: string)
    ensures Contains(hay, needle) <==> exists i :: OccursAt(hay, needle, i)
    decreases |hay|
  {
    if StartsWith(hay, needle) {
      assert OccursAt(hay, needle, 0);
    }
    if |hay| > 0 {
      ContainsIff(hay[1..], needle);
      if Contains(hay[1..], needle) {
        var i :| OccursAt(hay[1..], needle, i);
        assert hay[1..][i..i + |needle|] == hay[i + 1..i + 1 + |needle|];
        assert OccursAt(hay, needle, i + 1);
      }
      if exists i :: OccursAt(hay, needle, i) {
        var i :| OccursAt(hay, needle, i);
        if i > 0 {
          assert hay[1..][i - 1..i - 1 + |needle|] == hay[i..i + |needle|];
          assert OccursAt(hay[1..], needle, i - 1);
        } else {
          assert StartsWith(hay, needle);
        }
      }
    } else if exists i :: OccursAt(hay, needle, i) {
      var i :| OccursAt(hay, needle, i);
      assert |needle| == 0 && StartsWith(hay, needle);
    }
  }

  /** A string occurs in any concatenation that has it as a middle part. */
  lemma ContainsInfix(a: string, b: string, c: string)
    ensures Contains(a + b + c, b)
  {
    assert (a + b + c)[|a|..|a| + |b|] == b;
    assert OccursAt(a + b + c, b, |a|);
    ContainsIff(a + b + c, b);
  }

  /** Text added on either side keeps an occurrence. */
  lemma ContainsExtend(a: string, hay: string, b: string, needle: string)
    requires Contains(hay, needle)
    ensures Contains(a + hay + b, needle)
  {
    ContainsIff(hay, needle);
    var i :| OccursAt(hay, needle, i);
    assert (a + hay + b)[|a| + i..|a| + i + |needle|] == hay[i..i + |needle|];
    assert OccursAt(a + hay + b, needle, |a| + i);
    ContainsIff(a + hay + b, needle);
  }

  predicate IsDigit(c: char) {
    '0' <= c <= '9'
  }

  function DigitChar(d: int): (c: char)
    requires 0 <= d < 10
    ensures IsDigit(c) && c as int - '0' as int == d
  {
    ('0' as int + d) as char
  }

  /** The decimal digits of `n`, most significant first, without leading zeros. */
  function NatToString(n: nat): (r: string)
    ensures |r| > 0 && forall i :: 0 <= i < |r| ==> IsDigit(r[i])
    ensures n > 0 ==> r[0] != '0'
  {
    if n < 10 then [DigitChar(n)] else NatToString(n / 10) + [DigitChar(n % 10)]
  }

  /** The decimal text of `n`, as `str(n)` writes it; the 4300-digit limit of `str()` is
      applied where `str()` is called (`Stats.Str`). */
  function IntToString(n: int): (r: string)
    ensures |r| > 0
    ensures n < 0 <==> r[0] == '-'
  {
    if n < 0 then "-" + NatToString(-n) else NatToString(n)
  }

  /** The value of a string of decimal digits. */
  function DigitsValue(s: string): nat
    requires forall i :: 0 <= i < |s| ==> IsDigit(s[i])
  {
    if s == [] then 0
    else
      var last := s[|s| - 1];
      assert IsDigit(last);
      DigitsValue(s[..|s| - 1]) * 10 + (last as int - '0' as int)
  }

  /** Digits with single underscores between them, as `int()` accepts in base 10. */
  predicate WellFormedDigits(s: string) {
    && |s| > 0
    && IsDigit(s[0])
    && IsDigit(s[|s| - 1])
    && (forall i :: 0 <= i < |s| ==> IsDigit(s[i]) || s[i] == '_')
    && (forall i :: 0 <= i < |s| - 1 ==> s[i] == '_' ==> s[i + 1] != '_')
  }

  function RemoveUnderscores(s: string): (r: string)
    ensures (forall i :: 0 <= i < |s| ==> IsDigit(s[i]) || s[i] == '_') ==>
              forall i :: 0 <= i < |r| ==> IsDigit(r[i])
    ensures (forall i :: 0 <= i < |s| ==> s[i] != '_') ==> r == s
  {
    if s == [] then []
    else if s[0] == '_' then RemoveUnderscores(s[1..])
    else [s[0]] + RemoveUnderscores(s[1..])
  }

  /** `sys.get_int_max_str_digits()` by default: from Python 3.11 on, `str()` and `int()`
      raise ValueError on an integer with more decimal digits than this. */
  const MaxStrDigits := 4300

  /** The decimal digits of `n`, the sign aside, are within the limit. */
  predicate FitsStrLimit(n: int) {
    |NatToString(if n < 0 then -n else n)| <= MaxStrDigits
  }

  /** The unsigned part of `int(s)`; the underscores do not count towards the limit. */
  function ParseUnsigned(s: string): (r: Option<nat>)
    ensures r.Some? <==> WellFormedDigits(s) && |RemoveUnderscores(s)| <= MaxStrDigits
  {
    if WellFormedDigits(s) && |RemoveUnderscores(s)| <= MaxStrDigits
    then Some(DigitsValue(RemoveUnderscores(s)))
    else None
  }

  /** `int(t)` once the surrounding whitespace is gone: an optional sign, then the digits. */
  function ParseSigned(t: string): (r: Option<int>)
    ensures r.Some? ==> |t| > 0 && IsDigit(t[|t| - 1])
    ensures r.Some? && !IsDigit(t[0]) ==> t[0] == '-' || t[0] == '+'
  {
    if |t| > 0 && (t[0] == '-' || t[0] == '+') then
      match ParseUnsigned(t[1..])
      case None => None
      case Some(v) => if t[0] == '-' then Some(0 - v) else Some(v)
    else
      match ParseUnsigned(t)
      case None => None
      case Some(v) => Some(v)
  }

  /** `int(s)` for a Python str: surrounding whitespace, an optional sign, then at most
      `MaxStrDigits` ASCII digits with single underscores between them; None where Python
      raises ValueError. */
  function ParseInt(s: string): (r: Option<int>)
    ensures r.Some? ==> IntStrip(s) != [] && IsDigit(IntStrip(s)[|IntStrip(s)| - 1])
  {
    ParseSigned(IntStrip(s))
  }

  lemma {:induction false} DigitsValueOfNatToString(n: nat)
    ensures DigitsValue(NatToString(n)) == n
  {
    if n >= 10 {
      DigitsValueOfNatToString(n / 10);
      var s := NatToString(n);
      assert s[..|s| - 1] == NatToString(n / 10);
    }
  }

  /** The sign-and-digits reader inverts `str(n)` within the digit limit, and refuses
      the text beyond it. */
  lemma ParseSignedOfIntToString(n: int)
    ensures ParseSigned(IntToString(n)) == if FitsStrLimit(n) then Some(n) else None
  {
    var m: nat := if n < 0 then -n else n;
    var d := NatToString(m);
    ParseUnsignedOfNatToString(m);
    if n < 0 {
      assert IntToString(n)[1..] == d;
    }
  }

  lemma ParseUnsignedOfNatToString(m: nat)
    ensures ParseUnsigned(NatToString(m)) == if |NatToString(m)| <= MaxStrDigits then Some(m) else None
  {
    var d := NatToString(m);
    assert WellFormedDigits(d);
    assert RemoveUnderscores(d) == d;
    DigitsValueOfNatToString(m);
  }

  /** The decimal text of an integer has no whitespace at either end. */
  lemma IntToStringIsTrimmed(n: int)
    ensures IntStrip(IntToString(n)) == IntToString(n)
  {
    var s := IntToString(n);
    assert !IsIntSpace(s[0]) && !IsIntSpace(s[|s| - 1]);
    IntStripKeepsTrimmed(s);
  }

  /** `int(str(n)) == n` for every integer `str()` can print. */
  lemma IntToStringRoundTrip(n: int)
    requires FitsStrLimit(n)
    ensures ParseInt(IntToString(n)) == Some(n)
  {
    IntToStringIsTrimmed(n);
    ParseSignedOfIntToString(n);
  }

  /** `int()` refuses the decimal text of an integer past the digit limit. */
  lemma TooManyDigitsIsNotInteger(n: int)
    requires !FitsStrLimit(n)
    ensures ParseInt(IntToString(n)) == None
  {
    IntToStringIsTrimmed(n);
    ParseSignedOfIntToString(n);
  }

  /** Every integer `int()` reads has few enough digits for `str()` to print it. */
  lemma ParsedIntegerFits(s: string)
    requires ParseInt(s).Some?
    ensures FitsStrLimit(ParseInt(s).value)
  {
    var t := IntStrip(s);
    var u := if IsDigit(t[0]) then t else t[1..];
    var d := RemoveUnderscores(u);
    assert ParseUnsigned(u).Some?;
    NatToStringNoLonger(d);
  }

  /** Writing the value of a digit string back in decimal takes no more digits. */
  lemma {:induction false} NatToStringNoLonger(d: string)
    requires forall i :: 0 <= i < |d| ==> IsDigit(d[i])
    ensures |NatToString(DigitsValue(d))| <= if d == [] then 1 else |d|
  {
    if |d| > 1 {
      var init := d[..|d| - 1];
      NatToStringNoLonger(init);
      var v := DigitsValue(init);
      var last := d[|d| - 1] as int - '0' as int;
      assert DigitsValue(d) == v * 10 + last;
      if v > 0 {
        assert (v * 10 + last) / 10 == v && (v * 10 + last) % 10 == last;
      }
    }
  }

  /** A text that begins with something other than whitespace, a sign or a digit is not an integer. */
  lemma NotAnInteger(s: string)
    requires s != [] && !IsIntSpace(s[0]) && !IsIntSpace(s[|s| - 1])
    requires !IsDigit(s[0]) && s[0] != '-' && s[0] != '+'
    ensures ParseInt(s) == None
  {
    IntStripKeepsTrimmed(s);
    NotSigned(s);
  }

  lemma NotSigned(t: string)
    requires t != [] && !IsDigit(t[0]) && t[0] != '-' && t[0] != '+'
    ensures ParseSigned(t) == None
  {
    assert !WellFormedDigits(t);
  }

  /** An information separator (U+001C to U+001F) in front of a number makes `int()` raise,
      although `isspace()` counts it as whitespace. */
  lemma SeparatorIsNotIntSpace(c: char, digits: string)
    requires 28 <= c as int <= 31
    ensures IsSpace(c) && ParseInt([c] + digits) == None
  {
    var s := [c] + digits;
    assert s[0] == c && !IsBlank(s[0], true);
    assert TrimStart(s, true) == s;
    var t := TrimEnd(s, true);
    assert t != [] && t[0] == c;
    NotSigned(t);
  }

  /** The texts Python prints for the booleans are not integers. */
  lemma BoolTextsAreNotIntegers()
    ensures ParseInt("True") == None && ParseInt("False") == None
  {
    var yes, no := "True", "False";
    assert yes[0] == 'T' && yes[|yes| - 1] == 'e' && no[0] == 'F' && no[|no| - 1] == 'e';
    NotAnInteger(yes);
    NotAnInteger(no);
  }
}
