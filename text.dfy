/** String helpers with the meaning Python gives them: `str.strip`, `str.split`,
    `str.join`, `str(n)` and `int(s)` for decimal integers. */
module Text {
  import opened Wrappers

  /** Python's `str.isspace` for one character: the ASCII controls 9..13 and
      28..31, the space, and the Unicode space and separator characters. */
  predicate IsSpace(c: char) {
    || ('\t' <= c <= '\r')
    || ('\U{1C}' <= c <= ' ')
    || c == '\U{85}' || c == '\U{A0}' || c == '\U{1680}'
    || ('\U{2000}' <= c <= '\U{200A}')
    || c == '\U{2028}' || c == '\U{2029}' || c == '\U{202F}' || c == '\U{205F}' || c == '\U{3000}'
  }

  /** `s.lstrip()`: the longest suffix of `s` that does not start with white space. */
  function LStrip(s: string): (r: string)
    ensures |r| <= |s|
    ensures r == [] || !IsSpace(r[0])
  {
    if s != [] && IsSpace(s[0]) then LStrip(s[1..]) else s
  }

  /** What `lstrip` keeps is a suffix of its argument. */
  lemma {:induction false} LStripSuffix(s: string)
    ensures LStrip(s) == s[|s| - |LStrip(s)|..]
    decreases |s|
  {
    if s != [] && IsSpace(s[0]) {
      LStripSuffix(s[1..]);
      assert s[1..][|s| - 1 - |LStrip(s)|..] == s[|s| - |LStrip(s)|..];
    }
  }

  /** Everything `lstrip` removes is white space. */
  lemma {:induction false} LStripCutsSpace(s: string)
    ensures forall i :: 0 <= i < |s| - |LStrip(s)| ==> IsSpace(s[i])
    decreases |s|
  {
    if s != [] && IsSpace(s[0]) {
      LStripCutsSpace(s[1..]);
      forall i | 1 <= i < |s| - |LStrip(s)| ensures IsSpace(s[i]) {
        assert s[i] == s[1..][i - 1];
      }
    }
  }

  /** `s.rstrip()`: the longest prefix of `s` that does not end with white space. */
  function RStrip(s: string): (r: string)
    ensures |r| <= |s|
    ensures r == [] || !IsSpace(r[|r| - 1])
  {
    if s != [] && IsSpace(s[|s| - 1]) then RStrip(s[..|s| - 1]) else s
  }

  /** What `rstrip` keeps is a prefix of its argument. */
  lemma {:induction false} RStripPrefix(s: string)
    ensures RStrip(s) == s[..|RStrip(s)|]
    decreases |s|
  {
    if s != [] && IsSpace(s[|s| - 1]) {
      RStripPrefix(s[..|s| - 1]);
      assert s[..|s| - 1][..|RStrip(s)|] == s[..|RStrip(s)|];
    }
  }

  /** Everything `rstrip` removes is white space. */
  lemma {:induction false} RStripCutsSpace(s: string)
    ensures forall i :: |RStrip(s)| <= i < |s| ==> IsSpace(s[i])
    decreases |s|
  {
    if s != [] && IsSpace(s[|s| - 1]) {
      RStripCutsSpace(s[..|s| - 1]);
      forall i | |RStrip(s)| <= i < |s| - 1 ensures IsSpace(s[i]) {
        assert s[i] == s[..|s| - 1][i];
      }
    }
  }

  /** `s.strip()`. */
  function Strip(s: string): string {
    RStrip(LStrip(s))
  }

  /** A string that `strip` leaves alone: neither end is white space. */
  predicate Trimmed(s: string) {
    s == [] || (!IsSpace(s[0]) && !IsSpace(s[|s| - 1]))
  }

  /** `strip` leaves neither end white. */
  lemma StripResultTrimmed(s: string)
    ensures Trimmed(Strip(s))
  {
    var l := LStrip(s);
    var r := RStrip(l);
    RStripPrefix(l);
    if r != [] {
      assert r[0] == l[0];
    }
  }

  /** Where the result of `strip` starts in its argument. */
  function StripStart(s: string): nat {
    |s| - |LStrip(s)|
  }

  /** What `strip` returns: a trimmed slice of `s` with only white space cut away. */
  lemma StripIsTrimmedSlice(s: string)
    ensures Trimmed(Strip(s))
    ensures StripStart(s) + |Strip(s)| <= |s|
    ensures Strip(s) == s[StripStart(s)..StripStart(s) + |Strip(s)|]
    ensures forall k :: 0 <= k < StripStart(s) ==> IsSpace(s[k])
    ensures forall k :: StripStart(s) + |Strip(s)| <= k < |s| ==> IsSpace(s[k])
  {
    StripResultTrimmed(s);
    StripSlice(s);
    LStripCutsSpace(s);
    StripTailSpace(s);
  }

  lemma StripSlice(s: string)
    ensures StripStart(s) + |Strip(s)| <= |s|
    ensures Strip(s) == s[StripStart(s)..StripStart(s) + |Strip(s)|]
  {
    LStripSuffix(s);
    RStripPrefix(LStrip(s));
  }

  lemma StripTailSpace(s: string)
    ensures StripStart(s) + |Strip(s)| <= |s|
    ensures forall k :: StripStart(s) + |Strip(s)| <= k < |s| ==> IsSpace(s[k])
  {
    var l := LStrip(s);
    var i := StripStart(s);
    LStripSuffix(s);
    RStripCutsSpace(l);
    forall k | i + |Strip(s)| <= k < |s| ensures IsSpace(s[k]) {
      assert s[k] == l[k - i];
    }
  }

  /** `strip` changes nothing on a trimmed string: in particular it is idempotent. */
  lemma StripTrimmed(s: string)
    requires Trimmed(s)
    ensures Strip(s) == s
  {
  }

  /** A trimmed, non-empty string is not blank. */
  lemma StripNonEmpty(s: string)
    requires s != [] && Trimmed(s)
    ensures Strip(s) != []
  {
    StripTrimmed(s);
  }

  /** `sep.join(parts)`. */
  function Join(parts: seq<string>, sep: string): string
    decreases |parts|
  {
    if parts == [] then []
    else if |parts| == 1 then parts[0]
    else parts[0] + sep + Join(parts[1..], sep)
  }

  /** Joining with a trailing element: the recursion read from the other end. */
  lemma {:induction false} JoinSnoc(parts: seq<string>, x: string, sep: string)
    requires parts != []
    ensures Join(parts + [x], sep) == Join(parts, sep) + sep + x
    decreases |parts|
  {
    if |parts| == 1 {
      assert parts + [x] == [parts[0], x];
    } else {
      assert (parts + [x])[1..] == parts[1..] + [x];
      JoinSnoc(parts[1..], x, sep);
    }
  }

  /** `s.split(sep)` for a one-character separator: at least one part, none
      containing the separator (empty parts included). */
  function Split(s: string, sep: char): (parts: seq<string>)
    ensures |parts| >= 1
    ensures forall k :: 0 <= k < |parts| ==> sep !in parts[k]
    decreases |s|
  {
    if s == [] then [[]]
    else
      var rest := Split(s[1..], sep);
      if s[0] == sep then [[]] + rest
      else [[s[0]] + rest[0]] + rest[1..]
  }

  /** Splitting and joining back with the same separator gives the string back. */
  lemma {:induction false} JoinSplit(s: string, sep: char)
    ensures Join(Split(s, sep), [sep]) == s
    decreases |s|
  {
    if s != [] {
      var rest := Split(s[1..], sep);
      JoinSplit(s[1..], sep);
      if s[0] == sep {
        assert ([[]] + rest)[1..] == rest;
      } else {
        var parts := [[s[0]] + rest[0]] + rest[1..];
        if |rest| > 1 {
          assert parts[1..] == rest[1..];
          assert Join(rest, [sep]) == rest[0] + [sep] + Join(rest[1..], [sep]);
        }
      }
    }
  }

  /** Splitting a join of separator-free parts gives the parts back. */
  lemma {:induction false} SplitJoin(parts: seq<string>, sep: char)
    requires |parts| >= 1
    requires forall k :: 0 <= k < |parts| ==> sep !in parts[k]
    ensures Split(Join(parts, [sep]), sep) == parts
    decreases |parts|, |parts[0]|
  {
    var p := parts[0];
    if p == [] {
      if |parts| > 1 {
        assert Join(parts, [sep]) == [sep] + Join(parts[1..], [sep]);
        SplitJoin(parts[1..], sep);
        assert [p] + parts[1..] == parts;
      }
    } else {
      var shorter := [p[1..]] + parts[1..];
      assert shorter[1..] == parts[1..];
      SplitJoin(shorter, sep);
      if |parts| > 1 {
        assert Join(parts, [sep]) == [p[0]] + Join(shorter, [sep]);
      } else {
        assert Join(parts, [sep]) == [p[0]] + Join(shorter, [sep]);
      }
      assert Join(parts, [sep])[1..] == Join(shorter, [sep]);
      assert [p[0]] + shorter[0] == p;
      assert [[p[0]] + shorter[0]] + shorter[1..] == parts;
    }
  }

  predicate IsDigit(c: char) {
    '0' <= c <= '9'
  }

  predicate AllDigits(s: string) {
    forall i :: 0 <= i < |s| ==> IsDigit(s[i])
  }

  function DigitChar(d: nat): (c: char)
    requires d < 10
    ensures IsDigit(c) && (c as int) - ('0' as int) == d
  {
    (('0' as int) + d) as char
  }

  /** `str(n)` for a natural number: its decimal digits, most significant first. */
  function NatToString(n: nat): (s: string)
    ensures |s| >= 1 && AllDigits(s)
    decreases n
  {
    if n < 10 then [DigitChar(n)] else NatToString(n / 10) + [DigitChar(n % 10)]
  }

  /** The value of a string of decimal digits. */
  function DigitsValue(s: string): nat
    requires AllDigits(s)
  {
    if s == [] then 0
    else DigitsValue(s[..|s| - 1]) * 10 + ((s[|s| - 1] as int) - ('0' as int))
  }

  /** Reading back what `NatToString` wrote gives the number. */
  lemma {:induction false} NatToStringRoundTrip(n: nat)
    ensures DigitsValue(NatToString(n)) == n
    decreases n
  {
    if n >= 10 {
      var s := NatToString(n);
      assert s[..|s| - 1] == NatToString(n / 10);
      NatToStringRoundTrip(n / 10);
    }
  }

  /** Different numbers print differently. */
  lemma NatToStringInjective(m: nat, n: nat)
    requires NatToString(m) == NatToString(n)
    ensures m == n
  {
    NatToStringRoundTrip(m);
    NatToStringRoundTrip(n);
  }

  /** Digits grouped by single underscores, as Python's integer literals allow:
      non-empty, starting and ending with a digit, no two underscores in a row. */
  predicate DigitGroups(s: string) {
    && s != []
    && IsDigit(s[0]) && IsDigit(s[|s| - 1])
    && (forall i :: 0 <= i < |s| ==> IsDigit(s[i]) || s[i] == '_')
    && NoDoubleUnderscore(s)
  }

  predicate NoDoubleUnderscore(s: string) {
    |s| < 2 || (!(s[0] == '_' && s[1] == '_') && NoDoubleUnderscore(s[1..]))
  }

  function RemoveUnderscores(s: string): (r: string)
    ensures (forall i :: 0 <= i < |s| ==> IsDigit(s[i]) || s[i] == '_') ==> AllDigits(r)
  {
    if s == [] then []
    else (if s[0] == '_' then [] else [s[0]]) + RemoveUnderscores(s[1..])
  }

  /** The white space `int()` skips around a number: that of `str.isspace` except the
      ASCII information separators 28..31, which `int()` does not skip. */
  predicate IntSpace(c: char) {
    IsSpace(c) && !('\U{1C}' <= c <= '\U{1F}')
  }

  /** What `strip` cuts from `s` is white space to `int()` as well. */
  predicate IntPadding(s: string) {
    forall k :: 0 <= k < |s| && !(StripStart(s) <= k < StripStart(s) + |Strip(s)|) ==> IntSpace(s[k])
  }

  /** `int(s)` in base 10: surrounding white space, an optional sign, digit groups;
      `None` where Python raises `ValueError`. A separator 28..31 next to the
      number stays in front of or behind its digits, which makes `int()` fail. */
  function ParseInt(s: string): Option<int> {
    var t := Strip(s);
    if t == [] || !IntPadding(s) then None else ParseSigned(t)
  }

  /** Padding that `int()` skips. */
  lemma ParseIntPadding()
    ensures ParseInt(" 50\n") == Some(50)
  {
    PaddedFifty();
    ParseSignedDigits("50", "50", false);
    assert DigitsValue("50") == 50;
  }

  lemma PaddedFifty()
    ensures Strip(" 50\n") == "50" && IntPadding(" 50\n")
  {
    var padded := " 50\n";
    assert LStrip(padded) == "50\n" by {
      assert padded[1..] == "50\n";
    }
    assert RStrip("50\n") == "50" by {
      assert "50\n"[..2] == "50";
    }
    assert StripStart(padded) == 1;
  }

  /** A separator character that `strip()` removes but `int()` refuses. */
  lemma ParseIntSeparator()
    ensures ParseInt("50\U{1C}") == None
  {
    var bad := "50\U{1C}";
    assert LStrip(bad) == bad;
    assert RStrip(bad) == "50" by {
      assert bad[..2] == "50";
    }
    assert !IntSpace(bad[2]);
  }

  /** An optional sign, then digit groups. */
  function ParseSigned(t: string): Option<int>
    requires t != []
  {
    var negative := t[0] == '-';
    var body := if t[0] == '-' || t[0] == '+' then t[1..] else t;
    if !DigitGroups(body) then None
    else
      var v: int := DigitsValue(RemoveUnderscores(body));
      Some(if negative then -v else v)
  }

  /** `str(i)` for an integer. */
  function IntToString(i: int): string {
    if i < 0 then "-" + NatToString(-i) else NatToString(i)
  }

  lemma RemoveUnderscoresDigits(s: string)
    requires AllDigits(s)
    ensures RemoveUnderscores(s) == s
  {
  }

  lemma {:induction false} DigitsAreGroups(s: string)
    requires s != [] && AllDigits(s)
    ensures DigitGroups(s)
    decreases |s|
  {
    if |s| >= 2 {
      DigitsAreGroups(s[1..]);
    }
  }

  /** Parsing a trimmed string whose unsigned part is plain digits. */
  lemma ParseTrimmedDigits(s: string, d: string, negative: bool)
    requires d != [] && AllDigits(d)
    requires s == (if negative then "-" else "") + d
    ensures ParseInt(s) == Some(if negative then -(DigitsValue(d) as int) else DigitsValue(d))
  {
    assert Strip(s) == s by {
      assert !IsSpace(s[0]) && !IsSpace(s[|s| - 1]);
      StripTrimmed(s);
    }
    assert LStrip(s) == s;
    assert IntPadding(s);
    ParseSignedDigits(s, d, negative);
  }

  lemma ParseSignedDigits(s: string, d: string, negative: bool)
    requires d != [] && AllDigits(d)
    requires s == (if negative then "-" else "") + d
    ensures ParseSigned(s) == Some(if negative then -(DigitsValue(d) as int) else DigitsValue(d))
  {
    var body := if s[0] == '-' || s[0] == '+' then s[1..] else s;
    assert body == d by {
      if negative {
        assert s[1..] == d;
      } else {
        assert s[0] == d[0];
      }
    }
    assert (s[0] == '-') == negative;
    assert DigitGroups(body) by {
      DigitsAreGroups(d);
    }
    assert RemoveUnderscores(body) == d by {
      RemoveUnderscoresDigits(d);
    }
  }

  /** `int(str(i)) == i`. */
  lemma ParseIntRoundTrip(i: int)
    ensures ParseInt(IntToString(i)) == Some(i)
  {
    var n: nat := if i < 0 then -i else i;
    NatToStringRoundTrip(n);
    ParseTrimmedDigits(IntToString(i), NatToString(n), i < 0);
  }

  /** `s.lower()` restricted to ASCII letters. */
  function AsciiLower(s: string): (r: string)
    ensures |r| == |s|
    ensures forall i :: 0 <= i < |s| ==> r[i] == (if 'A' <= s[i] <= 'Z' then ((s[i] as int) + 32) as char else s[i])
  {
    if s == [] then [] else
      [if 'A' <= s[0] <= 'Z' then ((s[0] as int) + 32) as char else s[0]] + AsciiLower(s[1..])
  }
}
