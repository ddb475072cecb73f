/**
 * The parts of Go's `strings` and `strconv` packages that the gateway relies on,
 * over sequences of characters, with the inverse laws the parsers need.
 */
module GoStrings {
  import opened Prelude

  /** unicode.IsSpace */
  predicate IsSpace(c: char) {
    || '\t' <= c <= '\r' || c == ' ' || c == '\U{85}' || c == '\U{A0}' || c == '\U{1680}'
    || '\U{2000}' <= c <= '\U{200A}' || c == '\U{2028}' || c == '\U{2029}' || c == '\U{202F}'
    || c == '\U{205F}' || c == '\U{3000}'
  }

  function TrimLeft(s: string): string {
    if s != [] && IsSpace(s[0]) then TrimLeft(s[1..]) else s
  }

  function TrimRight(s: string): string {
    if s != [] && IsSpace(s[|s| - 1]) then TrimRight(s[..|s| - 1]) else s
  }

  function TrimSpace(s: string): string {
    TrimRight(TrimLeft(s))
  }

  predicate Blank(s: string) {
    TrimSpace(s) == ""
  }

  /** No white space at either end. */
  predicate Trimmed(s: string) {
    s != [] ==> !IsSpace(s[0]) && !IsSpace(s[|s| - 1])
  }

  lemma TrimmedIsFixed(s: string)
    requires Trimmed(s)
    ensures TrimSpace(s) == s
  {}

  /** Trimming leaves only characters of s, and none that is white space at either end. */
  lemma {:induction false} TrimSpaceTrims(s: string)
    ensures Trimmed(TrimSpace(s))
    ensures forall c :: c in TrimSpace(s) ==> c in s
  {
    TrimLeftTrims(s);
    TrimRightTrims(TrimLeft(s));
  }

  lemma {:induction false} TrimLeftTrims(s: string)
    ensures var t := TrimLeft(s); (t != [] ==> !IsSpace(t[0])) && forall c :: c in t ==> c in s
  {
    if s != [] && IsSpace(s[0]) {
      TrimLeftTrims(s[1..]);
    }
  }

  lemma {:induction false} TrimRightTrims(s: string)
    ensures var t := TrimRight(s); (t != [] ==> !IsSpace(t[|t| - 1])) && t <= s
  {
    if s != [] && IsSpace(s[|s| - 1]) {
      TrimRightTrims(s[..|s| - 1]);
    }
  }

  /** A string that ends in something visible is not blank. */
  lemma {:induction false} VisibleEndIsNotBlank(s: string)
    requires s != [] && !IsSpace(s[|s| - 1])
    ensures !Blank(s)
    ensures TrimLeft(s) != [] && !IsSpace(TrimLeft(s)[|TrimLeft(s)| - 1])
  {
    if IsSpace(s[0]) {
      VisibleEndIsNotBlank(s[1..]);
    }
  }

  /** %q for a string that needs no escapes. */
  function Quoted(s: string): string {
    "\"" + s + "\""
  }

  /** strings.Split for a one-character separator. */
  function Split(s: string, sep: char): (parts: seq<string>)
    ensures |parts| > 0
  {
    if s == [] then [""]
    else
      var rest := Split(s[1..], sep);
      if s[0] == sep then [""] + rest else [[s[0]] + rest[0]] + rest[1..]
  }

  /** No piece of a split holds the separator. */
  lemma {:induction false} SplitPiecesLackSep(s: string, sep: char)
    ensures forall p :: p in Split(s, sep) ==> sep !in p
  {
    if s != [] {
      SplitPiecesLackSep(s[1..], sep);
      var rest := Split(s[1..], sep);
      assert rest[0] in rest;
    }
  }

  /** strings.Join */
  function Join(parts: seq<string>, sep: char): string {
    if |parts| == 0 then ""
    else if |parts| == 1 then parts[0]
    else parts[0] + [sep] + Join(parts[1..], sep)
  }

  lemma {:induction false} SplitPart(s: string, sep: char, rest: string)
    requires sep !in s
    ensures Split(s, sep) == [s]
    ensures Split(s + [sep] + rest, sep) == [s] + Split(rest, sep)
  {
    var all := s + [sep] + rest;
    if s == [] {
      assert all[1..] == rest;
    } else {
      SplitPart(s[1..], sep, rest);
      assert all[1..] == s[1..] + [sep] + rest;
      assert [s[0]] + s[1..] == s;
    }
  }

  /** Splitting a joined list gives the list back. */
  lemma {:induction false} SplitJoin(parts: seq<string>, sep: char)
    requires |parts| > 0
    requires forall p :: p in parts ==> sep !in p
    ensures Split(Join(parts, sep), sep) == parts
  {
    if |parts| == 1 {
      SplitPart(parts[0], sep, "");
    } else {
      SplitJoin(parts[1..], sep);
      SplitPart(parts[0], sep, Join(parts[1..], sep));
    }
  }

  /** strings.Index for one character, |s| when absent. */
  function IndexOf(s: string, c: char): (i: nat)
    ensures i <= |s|
    ensures i < |s| ==> s[i] == c
    ensures forall k :: 0 <= k < i ==> s[k] != c
  {
    if s == [] || s[0] == c then 0 else 1 + IndexOf(s[1..], c)
  }

  /** strings.LastIndex for one character, -1 when absent. */
  function LastIndex(s: string, c: char): (i: int)
    ensures -1 <= i < |s|
    ensures i >= 0 ==> s[i] == c
    ensures forall k :: i < k < |s| ==> s[k] != c
  {
    if s == [] then -1
    else if s[|s| - 1] == c then |s| - 1
    else LastIndex(s[..|s| - 1], c)
  }

  /** The last separator of `a + [c] + b` is the one shown, when b has none. */
  lemma {:induction false} LastIndexOfJoined(a: string, c: char, b: string)
    requires c !in b
    ensures LastIndex(a + [c] + b, c) == |a|
  {
    var s := a + [c] + b;
    if b == [] {
      assert s[|s| - 1] == c;
    } else {
      var front := b[..|b| - 1];
      assert s[..|s| - 1] == a + [c] + front;
      assert s[|s| - 1] == b[|b| - 1] && b[|b| - 1] in b;
      LastIndexOfJoined(a, c, front);
    }
  }

  /** The first separator of `a + [c] + b` is the one shown, when a has none. */
  lemma {:induction false} IndexOfJoined(a: string, c: char, b: string)
    requires c !in a
    ensures IndexOf(a + [c] + b, c) == |a|
  {
    var s := a + [c] + b;
    if a != [] {
      assert s[0] == a[0] && a[0] in a;
      assert s[1..] == a[1..] + [c] + b;
      IndexOfJoined(a[1..], c, b);
    }
  }

  /** strings.Cut for a one-character separator. */
  datatype CutResult = CutResult(before: string, after: string, found: bool)

  function Cut(s: string, sep: char): CutResult {
    var i := IndexOf(s, sep);
    if i < |s| then CutResult(s[..i], s[i + 1..], true) else CutResult(s, "", false)
  }

  // ---------------------------------------------------------------- decimals

  const MAX_INT64 := 0x7FFF_FFFF_FFFF_FFFF
  const MIN_INT64 := -0x8000_0000_0000_0000

  function DigitChar(d: nat): char
    requires d < 10
  {
    '0' + (d as char)
  }

  predicate IsDigit(c: char) {
    '0' <= c <= '9'
  }

  /** The decimal digits of n, most significant first, no leading zero. */
  function Digits(n: nat): (s: string)
    ensures s != [] && forall c :: c in s ==> IsDigit(c)
  {
    if n < 10 then [DigitChar(n)] else Digits(n / 10) + [DigitChar(n % 10)]
  }

  /** strconv.FormatInt in base 10. */
  function FormatInt(i: int): (s: string)
    ensures s != [] && forall c :: c in s ==> IsDigit(c) || c == '-'
  {
    if i < 0 then "-" + Digits(-i) else Digits(i)
  }

  /** The value of a digit string. */
  function DigitsValue(s: string): nat
    requires forall c :: c in s ==> IsDigit(c)
  {
    if s == [] then 0
    else
      assert IsDigit(s[|s| - 1]);
      10 * DigitsValue(s[..|s| - 1]) + (s[|s| - 1] - '0') as nat
  }

  /** strconv.Atoi on a 64-bit platform; None is its error. */
  function Atoi(s: string): Option<int> {
    var digits := if s != [] && (s[0] == '-' || s[0] == '+') then s[1..] else s;
    if digits == [] || !(forall c :: c in digits ==> IsDigit(c)) then None
    else
      var value := if s[0] == '-' then -(DigitsValue(digits) as int) else DigitsValue(digits) as int;
      if MIN_INT64 <= value <= MAX_INT64 then Some(value) else None
  }

  lemma {:induction false} DigitsValueOfDigits(n: nat)
    ensures DigitsValue(Digits(n)) == n
  {
    if n >= 10 {
      DigitsValueOfDigits(n / 10);
      assert Digits(n)[..|Digits(n)| - 1] == Digits(n / 10);
    }
  }

  /** A digit string is its value, printed, after z zeros. */
  lemma {:induction false} DigitsAreCanonical(s: string) returns (z: nat)
    requires forall c :: c in s ==> IsDigit(c)
    ensures z <= |s| && forall i :: 0 <= i < z ==> s[i] == '0'
    ensures if DigitsValue(s) == 0 then z == |s| else s[z..] == Digits(DigitsValue(s))
  {
    if s == [] {
      z := 0;
    } else {
      var front, last := s[..|s| - 1], s[|s| - 1];
      assert IsDigit(last);
      z := DigitsAreCanonical(front);
      assert forall i :: 0 <= i < z ==> s[i] == front[i];
      if DigitsValue(s) == 0 {
        z := |s|;
      } else {
        assert s[z..] == front[z..] + [last];
      }
    }
  }

  lemma {:induction false} ZerosAddNothing(s: string, z: nat)
    requires z <= |s| && (forall c :: c in s ==> IsDigit(c)) && forall i :: 0 <= i < z ==> s[i] == '0'
    ensures DigitsValue(s) == DigitsValue(s[z..])
  {
    if z < |s| {
      var front := s[..|s| - 1];
      assert forall i :: 0 <= i < z ==> front[i] == s[i];
      ZerosAddNothing(front, z);
      assert s[z..][..|s| - 1 - z] == front[z..];
    } else if s != [] {
      var front := s[..|s| - 1];
      assert forall i :: 0 <= i < z - 1 ==> front[i] == s[i];
      ZerosAddNothing(front, z - 1);
      assert front[z - 1..] == [] && s[z..] == [];
    }
  }

  lemma AtoiOfDigits(n: nat)
    requires n <= MAX_INT64
    ensures Atoi(Digits(n)) == Some(n)
  {
    DigitsValueOfDigits(n);
    assert IsDigit(Digits(n)[0]);
  }

  lemma FormatIntInjective(i: int, j: int)
    requires FormatInt(i) == FormatInt(j)
    ensures i == j
  {
    var a, b := if i < 0 then -i else i, if j < 0 then -j else j;
    DigitsValueOfDigits(a);
    DigitsValueOfDigits(b);
    assert Digits(a)[0] != '-' && Digits(b)[0] != '-' by {
      assert IsDigit(Digits(a)[0]) && IsDigit(Digits(b)[0]);
    }
    if i < 0 {
      assert FormatInt(i)[1..] == Digits(a);
      assert FormatInt(j)[1..] == Digits(b);
    }
  }

  /** base + ":" + decimal determines both of its parts, whatever base holds. */
  lemma KeyWithNumberInjective(base: string, i: int, base': string, j: int)
    requires base + ":" + FormatInt(i) == base' + ":" + FormatInt(j)
    ensures base == base' && i == j
  {
    LastIndexOfJoined(base, ':', FormatInt(i));
    LastIndexOfJoined(base', ':', FormatInt(j));
    var s := base + ":" + FormatInt(i);
    assert s[..|base|] == base && s[..|base'|] == base';
    assert s[|base| + 1..] == FormatInt(i);
    assert s[|base'| + 1..] == FormatInt(j);
    FormatIntInjective(i, j);
  }
}
