/** The string operations the driver relies on: ASCII case folding, splitting on a
    separator, white-space trimming and plain decimal numbers. */
module Text {

  datatype Option<+T> = None | Some(value: T)

  // ---------------------------------------------------------------- case folding

  function Lower(c: char): char {
    if 'A' <= c <= 'Z' then (c as int + 32) as char else c
  }

  function ToLower(s: string): (r: string)
    ensures |r| == |s|
  {
    seq(|s|, i requires 0 <= i < |s| => Lower(s[i]))
  }

  /** strings.EqualFold, on ASCII. */
  predicate EqualFold(a: string, b: string) {
    ToLower(a) == ToLower(b)
  }

  predicate AsciiLetter(c: char) {
    'a' <= c <= 'z' || 'A' <= c <= 'Z'
  }

  /** The same character, or the same ASCII letter in the other case: 32 codes apart. */
  predicate SameUpToCase(c: char, d: char) {
    c == d || (AsciiLetter(c) && AsciiLetter(d) && (c as int - d as int == 32 || d as int - c as int == 32))
  }

  lemma LowerMeaning(c: char, d: char)
    ensures Lower(c) == Lower(d) <==> SameUpToCase(c, d)
  {
  }

  /** What case folding compares, character by character. */
  lemma FoldMeaning(a: string, b: string)
    ensures EqualFold(a, b) <==> |a| == |b| && forall i :: 0 <= i < |a| ==> SameUpToCase(a[i], b[i])
  {
    forall i | 0 <= i < |a| && i < |b|
      ensures ToLower(a)[i] == ToLower(b)[i] <==> SameUpToCase(a[i], b[i])
    {
      LowerMeaning(a[i], b[i]);
    }
  }

  predicate NoCapitals(s: string) {
    forall i :: 0 <= i < |s| ==> !('A' <= s[i] <= 'Z')
  }

  /** Names without capitals, as Kubernetes node names are, fold together only if they are equal. */
  lemma FoldWithoutCapitals(a: string, b: string)
    requires NoCapitals(a) && NoCapitals(b)
    ensures EqualFold(a, b) <==> a == b
  {
    FoldMeaning(a, b);
  }

  predicate HasPrefix(s: string, prefix: string) {
    prefix <= s
  }

  // ---------------------------------------------------------------- splitting

  /** strings.Split with a one-character separator. */
  function Split(s: string, sep: char): (parts: seq<string>)
    ensures |parts| >= 1
  {
    if s == "" then [""]
    else
      var rest := Split(s[1..], sep);
      if s[0] == sep then [""] + rest
      else [[s[0]] + rest[0]] + rest[1..]
  }

  /** Splitting at an explicit separator splits both sides independently. */
  lemma {:induction false} SplitAt(a: string, sep: char, b: string)
    ensures Split(a + [sep] + b, sep) == Split(a, sep) + Split(b, sep)
  {
    var s := a + [sep] + b;
    if a == "" {
      assert s[1..] == b;
    } else {
      assert s[1..] == a[1..] + [sep] + b;
      SplitAt(a[1..], sep, b);
    }
  }

  /** A string splits into one part exactly when it is free of separators. */
  lemma {:induction false} SplitOne(s: string, sep: char)
    ensures |Split(s, sep)| == 1 <==> sep !in s
    ensures sep !in s ==> Split(s, sep) == [s]
  {
    if s != "" {
      SplitOne(s[1..], sep);
      assert s == [s[0]] + s[1..];
    }
  }

  /** The parts hold no separator, and two parts are the two sides of the only separator. */
  lemma {:induction false} SplitTwo(s: string, sep: char)
    requires |Split(s, sep)| == 2
    ensures var p := Split(s, sep); s == p[0] + [sep] + p[1] && sep !in p[0] && sep !in p[1]
  {
    var rest := Split(s[1..], sep);
    assert s == [s[0]] + s[1..];
    if s[0] == sep {
      SplitOne(s[1..], sep);
      assert rest == [s[1..]];
    } else {
      assert |rest| == 2;
      SplitTwo(s[1..], sep);
    }
  }

  // ---------------------------------------------------------------- trimming

  /** unicode.IsSpace. */
  predicate IsSpace(c: char) {
    var n := c as int;
    9 <= n <= 13 || n == 0x20 || n == 0x85 || n == 0xA0 || n == 0x1680 ||
    0x2000 <= n <= 0x200A || n == 0x2028 || n == 0x2029 || n == 0x202F || n == 0x205F || n == 0x3000
  }

  function TrimLeft(s: string): string {
    if s != "" && IsSpace(s[0]) then TrimLeft(s[1..]) else s
  }

  function TrimRight(s: string): string {
    if s != "" && IsSpace(s[|s| - 1]) then TrimRight(s[..|s| - 1]) else s
  }

  /** strings.TrimSpace. */
  function TrimSpace(s: string): string {
    TrimRight(TrimLeft(s))
  }

  predicate Trimmed(s: string) {
    s == "" || (!IsSpace(s[0]) && !IsSpace(s[|s| - 1]))
  }

  lemma {:induction false} TrimRightEnds(s: string)
    ensures var r := TrimRight(s);
            r <= s && (r == "" || (r[0] == s[0] && !IsSpace(r[|r| - 1])))
  {
    if s != "" && IsSpace(s[|s| - 1]) {
      TrimRightEnds(s[..|s| - 1]);
    }
  }

  lemma {:induction false} TrimLeftStart(s: string)
    ensures var r := TrimLeft(s); r == "" || !IsSpace(r[0])
  {
    if s != "" && IsSpace(s[0]) {
      TrimLeftStart(s[1..]);
    }
  }

  /** The result of trimming has no white space at either end, so trimming it again is idle. */
  lemma TrimSpaceTrimmed(s: string)
    ensures Trimmed(TrimSpace(s))
    ensures TrimSpace(TrimSpace(s)) == TrimSpace(s)
  {
    TrimLeftStart(s);
    TrimRightEnds(TrimLeft(s));
  }

  lemma TrimmedIsFixed(s: string)
    requires Trimmed(s)
    ensures TrimSpace(s) == s
  {
  }

  lemma {:induction false} TrimLeftMeaning(s: string) returns (i: nat)
    ensures i <= |s| && TrimLeft(s) == s[i..] && forall k :: 0 <= k < i ==> IsSpace(s[k])
  {
    i := 0;
    if s != "" && IsSpace(s[0]) {
      i := TrimLeftMeaning(s[1..]);
      i := i + 1;
    }
  }

  lemma {:induction false} TrimRightMeaning(s: string) returns (j: nat)
    ensures j <= |s| && TrimRight(s) == s[..j] && forall k :: j <= k < |s| ==> IsSpace(s[k])
  {
    j := |s|;
    if s != "" && IsSpace(s[|s| - 1]) {
      var front := s[..|s| - 1];
      j := TrimRightMeaning(front);
      assert front[..j] == s[..j] && forall k :: j <= k < |front| ==> s[k] == front[k];
    }
  }

  /** Trimming cuts off white space at both ends, all of it, and nothing else. */
  lemma TrimMeaning(s: string) returns (i: nat, j: nat)
    ensures i <= j <= |s| && TrimSpace(s) == s[i..j] && Trimmed(s[i..j])
    ensures forall k :: 0 <= k < i || j <= k < |s| ==> IsSpace(s[k])
  {
    TrimSpaceTrimmed(s);
    i := TrimLeftMeaning(s);
    var rest := s[i..];
    var n := TrimRightMeaning(rest);
    j := i + n;
    assert rest[..n] == s[i..j] && forall k :: j <= k < |s| ==> s[k] == rest[k - i];
  }

  // ---------------------------------------------------------------- decimals

  predicate IsDigit(c: char) { '0' <= c <= '9' }

  function DigitOf(n: nat): (c: char)
    requires n < 10
    ensures IsDigit(c)
  {
    ('0' as int + n) as char
  }

  /** fmt.Sprint of a non-negative integer. */
  function PrintNat(n: nat): (s: string)
    ensures |s| > 0
  {
    if n < 10 then [DigitOf(n)] else PrintNat(n / 10) + [DigitOf(n % 10)]
  }

  function ParseDigits(s: string): Option<nat> {
    if s == "" then None
    else if !IsDigit(s[|s| - 1]) then None
    else
      var d := s[|s| - 1] as int - '0' as int;
      if |s| == 1 then Some(d)
      else match ParseDigits(s[..|s| - 1])
        case None => None
        case Some(n) => Some(10 * n + d)
  }

  /** What is printed parses back to the same number. */
  lemma {:induction false} ParsePrint(n: nat)
    ensures ParseDigits(PrintNat(n)) == Some(n)
  {
    var s := PrintNat(n);
    if n >= 10 {
      ParsePrint(n / 10);
      assert s[..|s| - 1] == PrintNat(n / 10);
    }
  }

  predicate AllDigits(s: string) {
    forall i :: 0 <= i < |s| ==> IsDigit(s[i])
  }

  function Pow10(n: nat): nat {
    if n == 0 then 1 else 10 * Pow10(n - 1)
  }

  /** The number a string of digits stands for, the first one weighing most. */
  function Numeral(s: string): int
    requires AllDigits(s)
  {
    if s == "" then 0 else (s[0] as int - 48) * Pow10(|s| - 1) + Numeral(s[1..])
  }

  lemma {:induction false} NumeralLast(s: string)
    requires AllDigits(s) && s != ""
    ensures Numeral(s) == 10 * Numeral(s[..|s| - 1]) + (s[|s| - 1] as int - 48)
  {
    if |s| == 1 {
      assert s[1..] == "" && s[..0] == "";
    } else {
      var n, d := |s| - 1, s[0] as int - 48;
      NumeralLast(s[1..]);
      assert s[1..][..n - 1] == s[..n][1..];
      assert d * Pow10(n) == 10 * (d * Pow10(n - 1));
    }
  }

  /** Exactly the non-empty strings of digits parse, to the number they stand for. */
  lemma {:induction false} ParseMeaning(s: string)
    ensures ParseDigits(s).Some? <==> s != "" && AllDigits(s)
    ensures s != "" && AllDigits(s) ==> ParseDigits(s) == Some(Numeral(s))
  {
    if s != "" && IsDigit(s[|s| - 1]) {
      var front := s[..|s| - 1];
      assert s == front + [s[|s| - 1]];
      assert AllDigits(s) <==> AllDigits(front);
      if front != "" { ParseMeaning(front); }
      if AllDigits(s) { NumeralLast(s); }
    }
  }

  /** A number prints as the digits that stand for it, without a leading zero. */
  lemma {:induction false} PrintMeaning(n: nat)
    ensures AllDigits(PrintNat(n)) && Numeral(PrintNat(n)) == n && (n > 0 ==> PrintNat(n)[0] != '0')
  {
    var s := PrintNat(n);
    ParsePrint(n);
    ParseMeaning(s);
    if n >= 10 {
      PrintMeaning(n / 10);
    }
  }
}
