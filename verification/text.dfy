/**
 * Character-string helpers shared by the tools: bounded copies, the decimal
 * text of integers (`%d`, `std::to_string`, `f"{i}"`), the leading-integer
 * parse of `atoi`/`std::stoi`, ASCII case mapping, comma splitting with
 * `std::getline` semantics and trimming of spaces and tabs.
 */
module Text {
  import opened Wrappers

  // ---------------------------------------------------------------- prefixes

  /** The first `n` characters of `s` (all of `s` when it is shorter). */
  function Truncate(s: string, n: nat): (r: string)
    ensures |r| <= n && |r| <= |s|
    ensures |s| <= n ==> r == s
    ensures |s| > n ==> |r| == n
    ensures r <= s
  {
    if |s| <= n then s else s[..n]
  }

  // ------------------------------------------------------------ decimal text

  predicate IsDigit(c: char) { '0' <= c <= '9' }

  predicate AllDigits(s: string) { forall i :: 0 <= i < |s| ==> IsDigit(s[i]) }

  function DigitChar(d: nat): (c: char)
    requires d < 10
    ensures IsDigit(c) && c as int - '0' as int == d
  {
    (('0' as int) + d) as char
  }

  /** Decimal text of a natural number, most significant digit first. */
  function NatToString(n: nat): (r: string)
    ensures |r| >= 1 && AllDigits(r)
    ensures n < 10 <==> |r| == 1
    decreases n
  {
    if n < 10 then [DigitChar(n)] else NatToString(n / 10) + [DigitChar(n % 10)]
  }

  /** The text `%d` prints for `n`: a minus sign for negative values, then the digits. */
  function IntToString(n: int): (r: string)
    ensures |r| >= 1
    ensures n < 0 <==> r[0] == '-'
  {
    if n < 0 then "-" + NatToString(-n) else NatToString(n)
  }

  function Pow10(k: nat): (p: nat)
    ensures p >= 1
  {
    if k == 0 then 1 else 10 * Pow10(k - 1)
  }

  /** A number below 10^k prints with at most k digits. */
  lemma {:induction false} NatToStringShort(n: nat, k: nat)
    requires 1 <= k && n < Pow10(k)
    ensures |NatToString(n)| <= k
    decreases n
  {
    if n >= 10 {
      NatToStringShort(n / 10, k - 1);
    }
  }

  /** A 32-bit `int` prints with at most eleven characters (sign and ten digits). */
  lemma IntToStringShort(n: int)
    requires -0x8000_0000 <= n < 0x8000_0000
    ensures |IntToString(n)| <= 11
  {
    assert Pow10(10) == 10_000_000_000;
    NatToStringShort(if n < 0 then -n else n, 10);
  }

  /** Value of a string made of decimal digits. */
  function DigitsValue(d: string): nat
    requires AllDigits(d)
  {
    if |d| == 0 then 0 else DigitsValue(d[..|d| - 1]) * 10 + (d[|d| - 1] as int - '0' as int)
  }

  predicate IsSpace(c: char) {
    c == ' ' || c == '\t' || c == '\n' || c == '\r' || c == '\U{0B}' || c == '\U{0C}'
  }

  function SkipSpaces(s: string): (r: string)
    ensures |r| <= |s|
  {
    if |s| > 0 && IsSpace(s[0]) then SkipSpaces(s[1..]) else s
  }

  /** `SkipSpaces` drops a prefix made of white space. */
  lemma {:induction false} SkipSpacesSuffix(s: string)
    ensures var r := SkipSpaces(s); r == s[|s| - |r|..] && (r != [] ==> !IsSpace(r[0]))
  {
    if |s| > 0 && IsSpace(s[0]) {
      SkipSpacesSuffix(s[1..]);
    }
  }

  /** The longest prefix of `s` made of digits. */
  function LeadingDigits(s: string): (r: string)
    ensures |r| <= |s| && AllDigits(r)
  {
    if |s| > 0 && IsDigit(s[0]) then [s[0]] + LeadingDigits(s[1..]) else []
  }

  /**
   * The integer at the front of `s` as `std::stoi` and `atoi` read it: blanks
   * skipped, an optional sign, then the longest run of digits. `None` when no
   * digit follows, which is where `std::stoi` throws.
   */
  function ParseLeadingInt(s: string): (r: Option<int>)
  {
    if |s| > 0 && IsSpace(s[0]) then ParseLeadingInt(s[1..]) else SignedPrefix(s)
  }

  /** An optional sign, then the longest run of digits; `None` when there is no digit. */
  function SignedPrefix(t: string): (r: Option<int>)
  {
    var negative := |t| > 0 && t[0] == '-';
    var u := if |t| > 0 && (t[0] == '-' || t[0] == '+') then t[1..] else t;
    var d := LeadingDigits(u);
    var v: int := if |d| == 0 then 0 else DigitsValue(d);
    if |d| == 0 then None else Some(if negative then -v else v)
  }

  /** `atoi`: the leading integer, or 0 when there is none. */
  function Atoi(s: string): int {
    ParseLeadingInt(s).GetOr(0)
  }

  lemma {:induction false} DigitsValueOfNatToString(n: nat)
    ensures DigitsValue(NatToString(n)) == n
    decreases n
  {
    if n >= 10 {
      DigitsValueOfNatToString(n / 10);
      var r := NatToString(n);
      assert r[..|r| - 1] == NatToString(n / 10);
    }
  }

  lemma LeadingDigitsOfDigits(d: string)
    requires AllDigits(d)
    ensures LeadingDigits(d) == d
  {
  }

  lemma NoSpaceBeforeDigits(s: string)
    requires |s| > 0 && (IsDigit(s[0]) || s[0] == '-')
    ensures SkipSpaces(s) == s
  {
  }

  /** Printing with `%d` and reading back with `atoi`/`std::stoi` gives the number back. */
  lemma {:induction false} ParseIntToString(n: int)
    ensures ParseLeadingInt(IntToString(n)) == Some(n)
  {
    var m: nat := if n < 0 then -n else n;
    var digits := NatToString(m);
    DigitsValueOfNatToString(m);
    LeadingDigitsOfDigits(digits);
    var s := IntToString(n);
    if n < 0 {
      assert s == "-" + digits;
      assert s[1..] == digits;
      assert ParseLeadingInt(s) == SignedPrefix(s);
    } else {
      assert s == digits && IsDigit(s[0]);
      assert ParseLeadingInt(s) == SignedPrefix(s);
    }
  }

  // ------------------------------------------------------------- ASCII case

  function LowerChar(c: char): char {
    if 'A' <= c <= 'Z' then (c as int + 32) as char else c
  }

  function UpperChar(c: char): char {
    if 'a' <= c <= 'z' then (c as int - 32) as char else c
  }

  /** `std::transform(..., ::tolower)` in the "C" locale. */
  function ToLower(s: string): (r: string)
    ensures |r| == |s|
    ensures forall i :: 0 <= i < |s| ==> r[i] == LowerChar(s[i])
  {
    if s == [] then [] else [LowerChar(s[0])] + ToLower(s[1..])
  }

  /** Python `str.upper()` restricted to ASCII letters. */
  function ToUpper(s: string): (r: string)
    ensures |r| == |s|
    ensures forall i :: 0 <= i < |s| ==> r[i] == UpperChar(s[i])
  {
    if s == [] then [] else [UpperChar(s[0])] + ToUpper(s[1..])
  }

  lemma ToLowerIdempotent(s: string)
    ensures ToLower(ToLower(s)) == ToLower(s)
  {
  }

  // -------------------------------------------------------- comma splitting

  /** Index of the first `sep` in `s`, or `|s|` when there is none. */
  function IndexOf(s: string, sep: char): (k: nat)
    ensures k <= |s|
    ensures k < |s| ==> s[k] == sep
    ensures forall i :: 0 <= i < k ==> s[i] != sep
  {
    if s == [] then 0 else if s[0] == sep then 0 else 1 + IndexOf(s[1..], sep)
  }

  /**
   * The fields that repeated `std::getline(stream, field, sep)` yields: every
   * separator ends a field, a trailing separator adds no empty field, and an
   * empty string yields none.
   */
  function SplitFields(s: string, sep: char): (r: seq<string>)
    ensures s == [] <==> r == []
    decreases |s|
  {
    if s == [] then []
    else
      var k := IndexOf(s, sep);
      if k < |s| then [s[..k]] + SplitFields(s[k + 1..], sep) else [s]
  }

  /** A separator at `k`, the first: the first field is what precedes it, the rest are the fields after it. */
  lemma {:induction false} SplitFieldsAt(s: string, sep: char, k: nat)
    requires k < |s| && k == IndexOf(s, sep)
    ensures SplitFields(s, sep) == [s[..k]] + SplitFields(s[k + 1..], sep)
  {
    assert SplitFields(s, sep) == if IndexOf(s, sep) < |s| then [s[..IndexOf(s, sep)]] + SplitFields(s[IndexOf(s, sep) + 1..], sep) else [s];
  }

  /** Without a separator the whole string is the only field. */
  lemma {:induction false} SplitFieldsWhole(s: string, sep: char)
    requires s != [] && IndexOf(s, sep) == |s|
    ensures SplitFields(s, sep) == [s]
  {
  }

  /** The first field is everything before the first separator; the rest are the fields after it. */
  lemma SplitFieldsCons(s: string, sep: char, k: nat, next: string)
    requires s != [] && k == IndexOf(s, sep)
    requires next == if k < |s| then s[k + 1..] else []
    ensures SplitFields(s, sep) == [s[..k]] + SplitFields(next, sep)
  {
    if k < |s| {
      SplitFieldsAt(s, sep, k);
    } else {
      SplitFieldsWhole(s, sep);
      assert s[..k] == s;
    }
  }

  /** No field holds the separator. */
  lemma {:induction false} SplitFieldsNoSep(s: string, sep: char, j: nat)
    requires j < |SplitFields(s, sep)|
    ensures sep !in SplitFields(s, sep)[j]
    decreases |s|
  {
    var k := IndexOf(s, sep);
    if k < |s| {
      SplitFieldsAt(s, sep, k);
      if j > 0 {
        SplitFieldsNoSep(s[k + 1..], sep, j - 1);
      } else {
        NoSepBefore(s, sep, k);
      }
    } else {
      SplitFieldsWhole(s, sep);
      NoSepBefore(s, sep, k);
      assert s[..k] == s;
    }
  }

  /** What precedes the first separator holds none. */
  lemma NoSepBefore(s: string, sep: char, k: nat)
    requires k == IndexOf(s, sep)
    ensures sep !in s[..k]
  {
    assert forall i :: 0 <= i < k ==> s[..k][i] == s[i];
  }

  function JoinFields(fields: seq<string>, sep: char): string {
    if fields == [] then []
    else if |fields| == 1 then fields[0]
    else fields[0] + [sep] + JoinFields(fields[1..], sep)
  }

  /** Joining one more field appends the separator and the field. */
  lemma {:induction false} JoinFieldsSnoc(fields: seq<string>, f: string, sep: char)
    requires fields != []
    ensures JoinFields(fields + [f], sep) == JoinFields(fields, sep) + [sep] + f
    decreases |fields|
  {
    if |fields| > 1 {
      assert (fields + [f])[1..] == fields[1..] + [f];
      JoinFieldsSnoc(fields[1..], f, sep);
    }
  }

  /** Splitting fields joined with `sep` gives them back, when each is non-empty and holds no `sep`. */
  lemma {:induction false} SplitJoin(fields: seq<string>, sep: char)
    requires forall j :: 0 <= j < |fields| ==> fields[j] != [] && sep !in fields[j]
    ensures SplitFields(JoinFields(fields, sep), sep) == fields
  {
    if |fields| == 1 {
      assert IndexOf(fields[0], sep) == |fields[0]|;
    } else if |fields| > 1 {
      var p, rest := fields[0], JoinFields(fields[1..], sep);
      var s := p + [sep] + rest;
      assert JoinFields(fields, sep) == s;
      IndexAfter(p, sep, rest);
      assert s[..|p|] == p && s[|p| + 1..] == rest;
      SplitJoin(fields[1..], sep);
    }
  }

  /** The first `sep` of `p + [sep] + rest`, when `p` holds none, ends `p`. */
  lemma IndexAfter(p: string, sep: char, rest: string)
    requires sep !in p
    ensures IndexOf(p + [sep] + rest, sep) == |p|
  {
    var s := p + [sep] + rest;
    assert forall i :: 0 <= i < |p| ==> s[i] == p[i];
    assert s[|p|] == sep;
  }

  // -------------------------------------------------------------- trimming

  predicate IsBlank(c: char) { c == ' ' || c == '\t' }

  predicate AllBlank(s: string) { forall i :: 0 <= i < |s| ==> IsBlank(s[i]) }

  /** How many blanks open `s`: the index `find_first_not_of(" \t")` returns, or `|s|` when it finds none. */
  function LeadingBlanks(s: string): (n: nat)
    ensures n <= |s|
  {
    if |s| > 0 && IsBlank(s[0]) then LeadingBlanks(s[1..]) + 1 else 0
  }

  /** How many blanks close `s`: `|s|` minus one past the index `find_last_not_of(" \t")` returns. */
  function TrailingBlanks(s: string): (n: nat)
    ensures n <= |s|
  {
    if |s| > 0 && IsBlank(s[|s| - 1]) then TrailingBlanks(s[..|s| - 1]) + 1 else 0
  }

  /** `LeadingBlanks` counts the blanks before the first other character. */
  lemma {:induction false} LeadingBlanksExact(s: string)
    ensures forall i :: 0 <= i < LeadingBlanks(s) ==> IsBlank(s[i])
    ensures LeadingBlanks(s) < |s| ==> !IsBlank(s[LeadingBlanks(s)])
  {
    if |s| > 0 && IsBlank(s[0]) {
      LeadingBlanksExact(s[1..]);
      assert forall i :: 1 <= i < LeadingBlanks(s) ==> s[i] == s[1..][i - 1];
    }
  }

  /** `TrailingBlanks` counts the blanks after the last other character. */
  lemma {:induction false} TrailingBlanksExact(s: string)
    ensures forall i :: |s| - TrailingBlanks(s) <= i < |s| ==> IsBlank(s[i])
    ensures TrailingBlanks(s) < |s| ==> !IsBlank(s[|s| - TrailingBlanks(s) - 1])
  {
    if |s| > 0 && IsBlank(s[|s| - 1]) {
      var t := s[..|s| - 1];
      TrailingBlanksExact(t);
      assert forall i :: |s| - TrailingBlanks(s) <= i < |s| - 1 ==> s[i] == t[i];
    }
  }

  /** `s.erase(0, s.find_first_not_of(" \t"))`: the leading blanks are removed. */
  function TrimLeft(s: string): (r: string)
    ensures |r| <= |s|
  {
    s[LeadingBlanks(s)..]
  }

  /** `s.erase(s.find_last_not_of(" \t") + 1)`: the trailing blanks are removed. */
  function TrimRight(s: string): (r: string)
    ensures |r| <= |s|
  {
    s[..|s| - TrailingBlanks(s)]
  }

  /** Both erasures in turn. */
  function Trim(s: string): (r: string)
    ensures |r| <= |s|
  {
    TrimRight(TrimLeft(s))
  }

  /** `TrimLeft` removes the blanks that open `s` and nothing else. */
  lemma TrimLeftExact(s: string)
    ensures var r := TrimLeft(s); r == s[|s| - |r|..] && AllBlank(s[..|s| - |r|]) && (r == [] || !IsBlank(r[0]))
  {
    LeadingBlanksExact(s);
    var n := LeadingBlanks(s);
    assert forall i :: 0 <= i < n ==> s[..n][i] == s[i];
  }

  /** `TrimRight` removes the blanks that close `s` and nothing else. */
  lemma TrimRightExact(s: string)
    ensures var r := TrimRight(s); r == s[..|r|] && AllBlank(s[|r|..]) && (r == [] || !IsBlank(r[|r| - 1]))
  {
    TrailingBlanksExact(s);
    var n := TrailingBlanks(s);
    assert forall i :: |s| - n <= i < |s| ==> s[|s| - n..][i - (|s| - n)] == s[i];
  }

  /** `Trim(s)` is `s` from its first to its last non-blank character. */
  lemma TrimExact(s: string)
    ensures var r := Trim(s); var i := LeadingBlanks(s); i + |r| <= |s| && r == s[i..i + |r|]
    ensures var r := Trim(s); r == [] || (!IsBlank(r[0]) && !IsBlank(r[|r| - 1]))
  {
    var l := TrimLeft(s);
    var i := LeadingBlanks(s);
    TrimLeftExact(s);
    TrimRightExact(l);
    assert l == s[i..];
    assert s[i..][..|TrimRight(l)|] == s[i..i + |TrimRight(l)|];
  }

  /** `Trim(s)` is empty exactly when `s` is all blanks. */
  lemma TrimEmpty(s: string)
    ensures AllBlank(s) <==> Trim(s) == []
  {
    var l := TrimLeft(s);
    var i := LeadingBlanks(s);
    TrimLeftExact(s);
    TrimRightExact(l);
    var r := TrimRight(l);
    if l != [] {
      assert s[i] == l[0];
    }
    if r == [] {
      assert l[|r|..] == l;
      assert |l| == 0;
      assert s[..|s| - |l|] == s;
    }
  }

  /** Trimming leaves a string that neither starts nor ends with a blank unchanged. */
  lemma TrimUnchanged(s: string)
    requires s == [] || (!IsBlank(s[0]) && !IsBlank(s[|s| - 1]))
    ensures Trim(s) == s
  {
    assert TrimLeft(s) == s;
  }
}
