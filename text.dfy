/** String helpers with the meaning JavaScript gives them: decimal
    rendering of an index (`${i}`), `parseInt(s, 10)`, `s.split(sep)` for a
    one-character separator, ASCII `toLowerCase` and `includes`. */
module Text {

  predicate IsDigit(c: char) {
    '0' <= c <= '9'
  }

  predicate AllDigits(s: string) {
    forall i :: 0 <= i < |s| ==> IsDigit(s[i])
  }

  function DigitChar(d: nat): (c: char)
    requires d < 10
    ensures IsDigit(c) && c as int - '0' as int == d
  {
    ('0' as int + d) as char
  }

  /** The decimal rendering JavaScript gives a non-negative integer. */
  function NatToString(n: nat): (s: string)
    ensures 1 <= |s| && AllDigits(s)
  {
    if n < 10 then [DigitChar(n)] else NatToString(n / 10) + [DigitChar(n % 10)]
  }

  /** The number a string of decimal digits denotes. */
  function DigitsValue(s: string): nat
    requires AllDigits(s)
  {
    if s == [] then 0 else DigitsValue(s[..|s| - 1]) * 10 + (s[|s| - 1] as int - '0' as int)
  }

  lemma {:induction false} DigitsValueOfNatToString(n: nat)
    ensures DigitsValue(NatToString(n)) == n
  {
    if n >= 10 {
      var s := NatToString(n);
      assert s[..|s| - 1] == NatToString(n / 10);
      DigitsValueOfNatToString(n / 10);
    }
  }

  /** Different numbers are rendered differently, so sibling ids never collide. */
  lemma NatToStringInjective(m: nat, n: nat)
    requires NatToString(m) == NatToString(n)
    ensures m == n
  {
    DigitsValueOfNatToString(m);
    DigitsValueOfNatToString(n);
  }

  // ---------------------------------------------------------------- parseInt

  /** The characters `parseInt` skips before the number: ECMAScript's
      WhiteSpace (including every space separator) and LineTerminator. */
  predicate IsJsWhiteSpace(c: char) {
    var u := c as int;
    u == 0x09 || u == 0x0A || u == 0x0B || u == 0x0C || u == 0x0D || u == 0x20 ||
    u == 0xA0 || u == 0x1680 || (0x2000 <= u <= 0x200A) || u == 0x2028 || u == 0x2029 ||
    u == 0x202F || u == 0x205F || u == 0x3000 || u == 0xFEFF
  }

  /** `s` without its leading white space. */
  function TrimStart(s: string): string {
    if s != [] && IsJsWhiteSpace(s[0]) then TrimStart(s[1..]) else s
  }

  /** What `TrimStart` keeps is a suffix of `s` that does not start with
      white space. */
  lemma {:induction false} TrimStartSuffix(s: string)
    ensures var r := TrimStart(s);
            |r| <= |s| && r == s[|s| - |r|..] && (r == [] || !IsJsWhiteSpace(r[0]))
  {
    if s != [] && IsJsWhiteSpace(s[0]) {
      TrimStartSuffix(s[1..]);
      assert s[1..][|s| - 1 - |TrimStart(s)|..] == s[|s| - |TrimStart(s)|..];
    }
  }

  /** The longest prefix of `s` made of decimal digits. */
  function LeadingDigits(s: string): (r: string)
    ensures AllDigits(r)
  {
    if s != [] && IsDigit(s[0]) then [s[0]] + LeadingDigits(s[1..]) else []
  }

  /** `LeadingDigits` is a prefix of digits that stops at the first
      character that is not one. */
  lemma {:induction false} LeadingDigitsPrefix(s: string)
    ensures var r := LeadingDigits(s);
            r <= s && (|r| < |s| ==> !IsDigit(s[|r|]))
  {
    if s != [] && IsDigit(s[0]) {
      LeadingDigitsPrefix(s[1..]);
      var r := LeadingDigits(s);
      assert r == [s[0]] + LeadingDigits(s[1..]);
      assert forall i :: 1 <= i < |r| ==> r[i] == LeadingDigits(s[1..])[i - 1];
      assert |r| < |s| ==> s[|r|] == s[1..][|r| - 1];
    }
  }

  /** The number `parseInt` yields: NaN, or an integer. (-0 is 0 here, and
      `children[-0]` is `children[0]` in JavaScript as well.) */
  datatype Parsed = NaN | Int(value: int)

  /** `parseInt(s, 10)`: skip leading white space, take an optional sign,
      then the longest run of decimal digits; NaN when there is none. */
  function ParseInt(s: string): (p: Parsed)
  {
    var t := TrimStart(s);
    var negative := t != [] && t[0] == '-';
    var body := if t != [] && (t[0] == '-' || t[0] == '+') then t[1..] else t;
    var digits := LeadingDigits(body);
    if digits == [] then NaN
    else if negative then Int(-(DigitsValue(digits) as int))
    else Int(DigitsValue(digits))
  }

  lemma LeadingDigitsOfDigits(s: string)
    requires AllDigits(s)
    ensures LeadingDigits(s) == s
  {
    if s != [] {
      LeadingDigitsOfDigits(s[1..]);
    }
  }

  /** Reading back the decimal rendering of an index gives the index. */
  lemma ParseIntOfNatToString(n: nat)
    ensures ParseInt(NatToString(n)) == Int(n)
  {
    var s := NatToString(n);
    assert TrimStart(s) == s;
    LeadingDigitsOfDigits(s);
    DigitsValueOfNatToString(n);
  }

  // ------------------------------------------------------------------ split

  /** The index of the last occurrence of `c` in `s`. */
  function LastIndexOf(s: string, c: char): (k: nat)
    requires c in s
    ensures k < |s| && s[k] == c && c !in s[k + 1..]
  {
    if s[|s| - 1] == c then |s| - 1
    else
      assert c in s[..|s| - 1] by {
        var j :| 0 <= j < |s| && s[j] == c;
        assert s[..|s| - 1][j] == c;
      }
      LastIndexOf(s[..|s| - 1], c)
  }

  /** `s.split(sep)` for a one-character separator: the maximal pieces
      between separators, in order, empty pieces included; never empty.
      Defined by peeling off the piece after the last separator. */
  function Split(s: string, sep: char): (parts: seq<string>)
    ensures |parts| >= 1
    decreases |s|
  {
    if sep !in s then [s]
    else
      var k := LastIndexOf(s, sep);
      Split(s[..k], sep) + [s[k + 1..]]
  }

  /** Appending a separator and a separator-free piece appends that piece. */
  lemma SplitSnoc(a: string, sep: char, b: string)
    requires sep !in b
    ensures Split(a + [sep] + b, sep) == Split(a, sep) + [b]
  {
    var s := a + [sep] + b;
    assert s[|a|] == sep;
    var k := LastIndexOf(s, sep);
    assert forall j :: k < j < |s| ==> s[k + 1..][j - k - 1] == s[j];
    assert k >= |a|;
    assert forall j :: |a| < j < |s| ==> s[j] == b[j - |a| - 1];
    assert k == |a|;
    assert s[..k] == a;
    assert s[k + 1..] == b;
  }

  // ------------------------------------------------------ case and includes

  /** `toLowerCase` on the ASCII letters; every other character is kept. */
  function LowerChar(c: char): char {
    if 'A' <= c <= 'Z' then (c as int + 32) as char else c
  }

  function Lower(s: string): (r: string)
    ensures |r| == |s| && forall i :: 0 <= i < |s| ==> r[i] == LowerChar(s[i])
  {
    if s == [] then [] else [LowerChar(s[0])] + Lower(s[1..])
  }

  lemma LowerIdempotent(s: string)
    ensures Lower(Lower(s)) == Lower(s)
  {
  }

  /** `s.includes(sub)`: `sub` occurs somewhere in `s`. */
  predicate Includes(s: string, sub: string) {
    sub <= s || (s != [] && Includes(s[1..], sub))
  }

  predicate OccursAt(s: string, sub: string, i: int) {
    0 <= i <= |s| - |sub| && s[i..i + |sub|] == sub
  }

  /** `Includes` means the ordinary "occurs at some position". */
  lemma {:induction false} IncludesAt(s: string, sub: string)
    ensures Includes(s, sub) <==> exists i :: OccursAt(s, sub, i)
  {
    if sub <= s {
      assert OccursAt(s, sub, 0);
    } else if s != [] {
      IncludesAt(s[1..], sub);
      if exists i :: OccursAt(s, sub, i) {
        var i :| OccursAt(s, sub, i);
        assert i != 0;
        assert OccursAt(s[1..], sub, i - 1) by {
          assert s[1..][i - 1..i - 1 + |sub|] == s[i..i + |sub|];
        }
      }
      if exists j :: OccursAt(s[1..], sub, j) {
        var j :| OccursAt(s[1..], sub, j);
        assert OccursAt(s, sub, j + 1) by {
          assert s[1..][j..j + |sub|] == s[j + 1..j + 1 + |sub|];
        }
      }
    }
  }
}
