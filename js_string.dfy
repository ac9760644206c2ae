/**
 * The JavaScript string operations the modelled code relies on: `trim`,
 * `toLowerCase` on ASCII, `includes`, `indexOf`, `split`, `join`, `substring(0, n)`,
 * `.length` (in UTF-16 code units), number-to-text conversion and `parseInt` on
 * decimal digits. A JavaScript string is modelled as a Dafny `string`.
 */
module JsString {
  import opened Wrappers

  /** The characters `\s` matches and `trim` removes: WhiteSpace and LineTerminator of ECMAScript. */
  predicate IsWhiteSpace(c: char) {
    var u := c as int;
    u == 0x09 || u == 0x0A || u == 0x0B || u == 0x0C || u == 0x0D || u == 0x20 ||
    u == 0xA0 || u == 0x1680 || (0x2000 <= u <= 0x200A) || u == 0x2028 || u == 0x2029 ||
    u == 0x202F || u == 0x205F || u == 0x3000 || u == 0xFEFF
  }

  /** `\d`: the ASCII digits only. */
  predicate IsDigit(c: char) { '0' <= c <= '9' }

  predicate IsAsciiLetter(c: char) { ('a' <= c <= 'z') || ('A' <= c <= 'Z') }

  /** `\w`: ASCII letters, digits and underscore. */
  predicate IsWordChar(c: char) { IsAsciiLetter(c) || IsDigit(c) || c == '_' }

  function LowerChar(c: char): char {
    if 'A' <= c <= 'Z' then (c as int + 32) as char else c
  }

  function UpperChar(c: char): char {
    if 'a' <= c <= 'z' then (c as int - 32) as char else c
  }

  /** `toLowerCase`, restricted to the ASCII letters. */
  function Lower(s: string): (r: string)
    ensures |r| == |s|
    ensures forall i :: 0 <= i < |s| ==> r[i] == LowerChar(s[i])
  {
    seq(|s|, i requires 0 <= i < |s| => LowerChar(s[i]))
  }

  function TrimStart(s: string): (r: string)
    ensures |r| <= |s| && r == s[|s| - |r|..]
    ensures r == [] || !IsWhiteSpace(r[0])
    ensures forall i :: 0 <= i < |s| - |r| ==> IsWhiteSpace(s[i])
  {
    if s != [] && IsWhiteSpace(s[0]) then TrimStart(s[1..]) else s
  }

  function TrimEnd(s: string): (r: string)
    ensures |r| <= |s| && r == s[..|r|]
    ensures r == [] || !IsWhiteSpace(r[|r| - 1])
    ensures forall i :: |r| <= i < |s| ==> IsWhiteSpace(s[i])
  {
    if s != [] && IsWhiteSpace(s[|s| - 1]) then TrimEnd(s[..|s| - 1]) else s
  }

  /** `trim`: the longest infix without white space at either end. */
  function Trim(s: string): (r: string)
    ensures |r| <= |s|
    ensures r == [] || (!IsWhiteSpace(r[0]) && !IsWhiteSpace(r[|r| - 1]))
    ensures r == [] <==> forall i :: 0 <= i < |s| ==> IsWhiteSpace(s[i])
  {
    var t := TrimStart(s);
    assert t != [] ==> TrimEnd(t) != [];
    TrimEnd(t)
  }

  /** `trim` keeps one contiguous piece of its input. */
  lemma TrimIsInfix(s: string) returns (i: nat, j: nat)
    ensures i <= j <= |s| && Trim(s) == s[i..j]
  {
    var t := TrimStart(s);
    i := |s| - |t|;
    j := i + |TrimEnd(t)|;
    assert t == s[i..];
    assert TrimEnd(t) == t[..j - i];
  }

  /** Trimming a trimmed string changes nothing. */
  lemma TrimIdempotent(s: string)
    ensures Trim(Trim(s)) == Trim(s)
  {
    var r := Trim(s);
    if r != [] {
      assert TrimStart(r) == r;
      assert TrimEnd(r) == r;
    }
  }

  predicate StartsWith(s: string, prefix: string) {
    |prefix| <= |s| && s[..|prefix|] == prefix
  }

  predicate OccursAt(s: string, p: string, i: nat) {
    i + |p| <= |s| && s[i..i + |p|] == p
  }

  /** `s.indexOf(p, from)`: the leftmost occurrence of `p` at or after `from`. */
  function IndexOf(s: string, p: string, from: nat): (r: Option<nat>)
    decreases |s| - from
    ensures r.Some? ==> from <= r.value && OccursAt(s, p, r.value)
    ensures r.Some? ==> forall k :: from <= k < r.value ==> !OccursAt(s, p, k)
    ensures r.None? ==> forall k :: from <= k ==> !OccursAt(s, p, k)
  {
    if from + |p| > |s| then None
    else if s[from..from + |p|] == p then Some(from)
    else IndexOf(s, p, from + 1)
  }

  /** `s.includes(p)`. */
  predicate Contains(s: string, p: string) {
    IndexOf(s, p, 0).Some?
  }

  lemma ContainsIff(s: string, p: string)
    ensures Contains(s, p) <==> exists k :: OccursAt(s, p, k)
  {
    var r := IndexOf(s, p, 0);
    if r.Some? { assert OccursAt(s, p, r.value); }
  }

  /** `s.replace(p, "")` with a string pattern: the first occurrence is deleted. */
  function DeleteFirst(s: string, p: string): (r: string)
    ensures IndexOf(s, p, 0).None? ==> r == s
    ensures IndexOf(s, p, 0).Some? ==>
      r == s[..IndexOf(s, p, 0).value] + s[IndexOf(s, p, 0).value + |p|..]
  {
    match IndexOf(s, p, 0)
    case None => s
    case Some(i) => s[..i] + s[i + |p|..]
  }

  /** `s.split(sep)` for a one-character separator. */
  function Split(s: string, sep: char): (parts: seq<string>)
    ensures |parts| >= 1
    ensures forall i :: 0 <= i < |parts| ==> sep !in parts[i]
  {
    if s == [] then [""]
    else if s[0] == sep then [""] + Split(s[1..], sep)
    else
      var rest := Split(s[1..], sep);
      [[s[0]] + rest[0]] + rest[1..]
  }

  /** `parts.join(sep)`. */
  function Join(parts: seq<string>, sep: string): string {
    if |parts| == 0 then ""
    else if |parts| == 1 then parts[0]
    else parts[0] + sep + Join(parts[1..], sep)
  }

  /** Splitting and joining with the same separator gives the text back. */
  lemma {:induction false} JoinSplit(s: string, sep: char)
    ensures Join(Split(s, sep), [sep]) == s
  {
    if s == [] {
    } else if s[0] == sep {
      JoinSplit(s[1..], sep);
      assert s == [sep] + s[1..];
    } else {
      var rest := Split(s[1..], sep);
      JoinSplit(s[1..], sep);
      var parts := [[s[0]] + rest[0]] + rest[1..];
      assert Split(s, sep) == parts;
      if |rest| == 1 {
        assert s == [s[0]] + s[1..];
      } else {
        assert parts[1..] == rest[1..];
        assert Join(rest, [sep]) == rest[0] + [sep] + Join(rest[1..], [sep]);
        assert s == [s[0]] + s[1..];
      }
    }
  }

  /** The number of UTF-16 code units a character takes: two for a character outside the BMP. */
  function Width(c: char): nat {
    if c as int < 0x10000 then 1 else 2
  }

  /** The UTF-16 code units of one character. */
  function Utf16Units(c: char): (units: seq<int>)
    ensures |units| == Width(c)
    ensures forall i :: 0 <= i < |units| ==> 0 <= units[i] < 0x10000
  {
    var u := c as int;
    if u < 0x10000 then [u]
    else [0xD800 + (u - 0x10000) / 0x400, 0xDC00 + (u - 0x10000) % 0x400]
  }

  /** The UTF-16 encoding of a string, the sequence `charCodeAt` walks. */
  function Utf16(s: string): (units: seq<int>)
    ensures |units| >= |s|
    ensures forall i :: 0 <= i < |units| ==> 0 <= units[i] < 0x10000
  {
    if s == [] then [] else Utf16Units(s[0]) + Utf16(s[1..])
  }

  /** `s.length`. */
  function Length(s: string): nat {
    |Utf16(s)|
  }

  lemma {:induction false} Utf16Append(a: string, b: string)
    ensures Utf16(a + b) == Utf16(a) + Utf16(b)
  {
    if a != [] {
      assert (a + b)[1..] == a[1..] + b;
      Utf16Append(a[1..], b);
    } else {
      assert a + b == b;
    }
  }

  /** On text without astral characters `length` counts characters. */
  lemma {:induction false} BmpLength(s: string)
    requires forall i :: 0 <= i < |s| ==> s[i] as int < 0x10000
    ensures Length(s) == |s|
  {
    if s != [] {
      BmpLength(s[1..]);
    }
  }

  /** A piece of a string is no longer, in UTF-16 code units, than the string. */
  lemma InfixLength(s: string, i: nat, j: nat)
    requires i <= j <= |s|
    ensures Length(s[i..j]) <= Length(s)
  {
    assert s == s[..i] + s[i..j] + s[j..];
    Utf16Append(s[..i] + s[i..j], s[j..]);
    Utf16Append(s[..i], s[i..j]);
  }

  /** `trim` never makes the `length` grow. */
  lemma TrimLength(s: string)
    ensures Length(Trim(s)) <= Length(s)
  {
    var i, j := TrimIsInfix(s);
    InfixLength(s, i, j);
  }

  /** `s.substring(0, n)`: the longest prefix of at most `n` code units. */
  function Prefix(s: string, n: nat): (r: string)
    ensures |r| <= |s| && r == s[..|r|]
    ensures Length(r) <= n
    ensures Length(s) <= n ==> r == s
  {
    if s == [] then []
    else
      var w := Width(s[0]);
      if w > n then []
      else
        var r := [s[0]] + Prefix(s[1..], n - w);
        assert r[1..] == Prefix(s[1..], n - w);
        r
  }

  /**
   * Where the cut falls: a text longer than `n` code units keeps exactly `n` of
   * them, unless the cut would split a surrogate pair; then the whole character
   * is dropped and one unit fewer is kept.
   */
  lemma {:induction false} PrefixCut(s: string, n: nat)
    requires n < Length(s)
    ensures var r := Prefix(s, n);
      |r| < |s| && (Length(r) == n || (Length(r) + 1 == n && Width(s[|r|]) == 2))
  {
    var w := Width(s[0]);
    assert Length(s) == w + Length(s[1..]);
    if w <= n {
      PrefixCut(s[1..], n - w);
      var t := Prefix(s[1..], n - w);
      assert Prefix(s, n) == [s[0]] + t;
      assert Length([s[0]] + t) == w + Length(t) by {
        assert ([s[0]] + t)[1..] == t;
      }
      assert s[1 + |t|] == s[1..][|t|];
    }
  }

  /** A longer cut keeps at least as much of the text. */
  lemma {:induction false} PrefixGrows(s: string, i: nat, j: nat)
    requires i <= j
    ensures |Prefix(s, i)| <= |Prefix(s, j)|
  {
    PrefixFit(s, i);
    PrefixFit(s, j);
    FitGrows(s, i, j);
  }

  /** How many characters fit in `n` code units, counted from the start. */
  function Fit(s: string, n: nat): nat {
    if s == [] || Width(s[0]) > n then 0 else 1 + Fit(s[1..], n - Width(s[0]))
  }

  lemma {:induction false} PrefixFit(s: string, n: nat)
    ensures |Prefix(s, n)| == Fit(s, n)
  {
    if s != [] && Width(s[0]) <= n {
      PrefixFit(s[1..], n - Width(s[0]));
      assert Prefix(s, n) == [s[0]] + Prefix(s[1..], n - Width(s[0]));
    }
  }

  lemma {:induction false} FitGrows(s: string, i: nat, j: nat)
    requires i <= j
    ensures Fit(s, i) <= Fit(s, j)
  {
    if s != [] && Width(s[0]) <= i {
      FitGrows(s[1..], i - Width(s[0]), j - Width(s[0]));
    }
  }

  function DigitChar(d: nat): (c: char)
    requires d < 10
    ensures IsDigit(c)
  {
    ('0' as int + d) as char
  }

  function DigitValue(c: char): (d: nat)
    requires IsDigit(c)
    ensures d < 10
  {
    c as int - '0' as int
  }

  predicate AllDigits(s: string) {
    forall i :: 0 <= i < |s| ==> IsDigit(s[i])
  }

  /** Decimal text of a number, as a template literal prints it. */
  function NatToString(n: nat): (r: string)
    ensures |r| >= 1 && AllDigits(r)
  {
    if n < 10 then [DigitChar(n)] else NatToString(n / 10) + [DigitChar(n % 10)]
  }

  function IntToString(i: int): string {
    if i < 0 then "-" + NatToString(-i) else NatToString(i)
  }

  /** `parseInt(s, 10)` of a string of decimal digits, without loss of precision. */
  function DigitsValue(s: string): nat
    requires AllDigits(s)
  {
    if s == [] then 0 else 10 * DigitsValue(s[..|s| - 1]) + DigitValue(s[|s| - 1])
  }

  /** Reading the decimal text of a number gives the number back. */
  lemma {:induction false} DigitsValueOfNatToString(n: nat)
    ensures DigitsValue(NatToString(n)) == n
  {
    var r := NatToString(n);
    if n >= 10 {
      DigitsValueOfNatToString(n / 10);
      assert r[..|r| - 1] == NatToString(n / 10);
    }
  }

  /** The number of white-space characters starting at `i`. */
  function WhiteSpaceRun(s: string, i: nat): (k: nat)
    decreases |s| - i
    ensures i + k <= |s| || (i > |s| && k == 0)
    ensures forall j :: i <= j < i + k ==> IsWhiteSpace(s[j])
    ensures i + k < |s| ==> !IsWhiteSpace(s[i + k])
  {
    if i < |s| && IsWhiteSpace(s[i]) then 1 + WhiteSpaceRun(s, i + 1) else 0
  }

  /** The number of digits starting at `i`. */
  function DigitRun(s: string, i: nat): (k: nat)
    decreases |s| - i
    ensures i + k <= |s| || (i > |s| && k == 0)
    ensures forall j :: i <= j < i + k ==> IsDigit(s[j])
    ensures i + k < |s| ==> !IsDigit(s[i + k])
  {
    if i < |s| && IsDigit(s[i]) then 1 + DigitRun(s, i + 1) else 0
  }

  /** Case-insensitive comparison of `s` at `i` with a lower-case ASCII literal, as `/…/i` compares. */
  predicate LowerOccursAt(s: string, lit: string, i: nat) {
    i + |lit| <= |s| && Lower(s[i..i + |lit|]) == lit
  }

  /** Concatenation regroups freely; stated once for the scanners and the debate log. */
  lemma AppendAssociative<T>(a: seq<T>, b: seq<T>, c: seq<T>)
    ensures a + b + c == a + (b + c)
  {
  }
}
