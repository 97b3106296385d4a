/** String helpers shared by every module: the few JavaScript string methods the
    source relies on (`includes`, `indexOf`, `substring`, `startsWith`, `trim`,
    `toLowerCase`, `split`/`join`, number-to-text), written out over `seq<char>`.
    Case mapping covers ASCII letters only. */
module Strings {

  predicate IsDigit(c: char) { '0' <= c <= '9' }

  predicate IsAsciiUpper(c: char) { 'A' <= c <= 'Z' }

  /** The characters JavaScript's `\s` class and `String.prototype.trim` treat
      as white space (ECMAScript WhiteSpace and LineTerminator). */
  predicate IsJsSpace(c: char)
  {
    c == ' ' || c == '\t' || c == '\n' || c == '\r' || c == '\U{B}' || c == '\U{C}'
    || c == '\U{A0}' || c == '\U{1680}' || ('\U{2000}' <= c <= '\U{200A}')
    || c == '\U{2028}' || c == '\U{2029}' || c == '\U{202F}' || c == '\U{205F}'
    || c == '\U{3000}' || c == '\U{FEFF}'
  }

  function LowerChar(c: char): (r: char)
    ensures IsAsciiUpper(c) ==> r as int == c as int + 32
    ensures !IsAsciiUpper(c) ==> r == c
  {
    if IsAsciiUpper(c) then (c as int + 32) as char else c
  }

  /** `toLowerCase`, restricted to ASCII letters. */
  function ToLower(s: string): (r: string)
    ensures |r| == |s|
    ensures forall i :: 0 <= i < |s| ==> r[i] == LowerChar(s[i])
  {
    seq(|s|, i requires 0 <= i < |s| => LowerChar(s[i]))
  }

  lemma ToLowerAppend(a: string, b: string)
    ensures ToLower(a + b) == ToLower(a) + ToLower(b)
  {
  }

  predicate StartsWith(s: string, prefix: string)
  {
    |prefix| <= |s| && s[..|prefix|] == prefix
  }

  predicate OccursAt(s: string, p: string, i: int)
  {
    0 <= i && i + |p| <= |s| && s[i..i + |p|] == p
  }

  /** `s.indexOf(p, from)`: the first position at or after `from` where `p`
      occurs, or -1. */
  function IndexOfFrom(s: string, p: string, from: nat): (r: int)
    ensures r == -1 || (from <= r && OccursAt(s, p, r))
    ensures r == -1 ==> forall j :: from <= j ==> !OccursAt(s, p, j)
    ensures r != -1 ==> forall j :: from <= j < r ==> !OccursAt(s, p, j)
    decreases |s| - from
  {
    if from + |p| > |s| then -1
    else if s[from..from + |p|] == p then from
    else IndexOfFrom(s, p, from + 1)
  }

  /** `s.indexOf(p)`. */
  function IndexOf(s: string, p: string): (r: int)
    ensures r == -1 || OccursAt(s, p, r)
    ensures r == -1 <==> forall j :: !OccursAt(s, p, j)
    ensures r != -1 ==> forall j :: 0 <= j < r ==> !OccursAt(s, p, j)
  {
    IndexOfFrom(s, p, 0)
  }

  /** `s.includes(p)`. */
  predicate Contains(s: string, p: string)
  {
    IndexOf(s, p) != -1
  }

  lemma ContainsWitness(s: string, p: string, i: int)
    requires OccursAt(s, p, i)
    ensures Contains(s, p)
  {
  }

  function Min(a: int, b: int): int { if a <= b then a else b }

  /** `s.substring(0, n)` for `n >= 0`. */
  function Take(s: string, n: nat): (r: string)
    ensures |r| == Min(n, |s|)
    ensures StartsWith(s, r)
  {
    if n <= |s| then s[..n] else s
  }

  /** `s.substring(start)`: a negative start counts as 0, one past the end as the end. */
  function SubstringFrom(s: string, start: int): (r: string)
    ensures start <= 0 ==> r == s
    ensures 0 <= start <= |s| ==> r == s[start..]
    ensures |s| < start ==> r == ""
  {
    if start <= 0 then s else if start <= |s| then s[start..] else ""
  }

  function TrimStart(s: string): (r: string)
    ensures |r| <= |s| && r == s[|s| - |r|..]
    ensures r == "" || !IsJsSpace(r[0])
    ensures forall i :: 0 <= i < |s| - |r| ==> IsJsSpace(s[i])
  {
    if |s| > 0 && IsJsSpace(s[0]) then TrimStart(s[1..]) else s
  }

  function TrimEnd(s: string): (r: string)
    ensures |r| <= |s| && r == s[..|r|]
    ensures r == "" || !IsJsSpace(r[|r| - 1])
    ensures forall i :: |r| <= i < |s| ==> IsJsSpace(s[i])
  {
    if |s| > 0 && IsJsSpace(s[|s| - 1]) then TrimEnd(s[..|s| - 1]) else s
  }

  /** `s.trim()`. */
  function Trim(s: string): (r: string)
    ensures r == "" || (!IsJsSpace(r[0]) && !IsJsSpace(r[|r| - 1]))
  {
    TrimEnd(TrimStart(s))
  }

  predicate IsTrimmed(s: string)
  {
    s == "" || (!IsJsSpace(s[0]) && !IsJsSpace(s[|s| - 1]))
  }

  lemma TrimOfTrimmed(s: string)
    requires IsTrimmed(s)
    ensures Trim(s) == s
  {
  }

  /** `s.replace(/a/g, b)` for a single character `a`. */
  function ReplaceChar(s: string, a: char, b: char): (r: string)
    ensures |r| == |s|
    ensures forall i :: 0 <= i < |s| ==> r[i] == (if s[i] == a then b else s[i])
  {
    seq(|s|, i requires 0 <= i < |s| => if s[i] == a then b else s[i])
  }

  /** Number of occurrences of `c` in `s`. */
  function CountChar(s: string, c: char): nat
  {
    if s == [] then 0 else CountChar(s[..|s| - 1], c) + (if s[|s| - 1] == c then 1 else 0)
  }

  lemma {:induction false} CountCharAppend(a: string, b: string, c: char)
    ensures CountChar(a + b, c) == CountChar(a, c) + CountChar(b, c)
    decreases |b|
  {
    if b == [] {
      assert a + b == a;
    } else {
      assert (a + b)[..|a + b| - 1] == a + b[..|b| - 1];
      CountCharAppend(a, b[..|b| - 1], c);
    }
  }

  lemma {:induction false} CountCharAbsent(s: string, c: char)
    requires forall i :: 0 <= i < |s| ==> s[i] != c
    ensures CountChar(s, c) == 0
    decreases |s|
  {
    if s != [] {
      CountCharAbsent(s[..|s| - 1], c);
    }
  }

  function DigitChar(d: nat): (c: char)
    requires d < 10
    ensures IsDigit(c)
  {
    ('0' as int + d) as char
  }

  /** Decimal text of a natural number, as a template literal prints it. */
  function NatToString(n: nat): (r: string)
    ensures |r| > 0
    ensures forall i :: 0 <= i < |r| ==> IsDigit(r[i])
    decreases n
  {
    if n < 10 then [DigitChar(n)] else NatToString(n / 10) + [DigitChar(n % 10)]
  }

  function IntToString(n: int): (r: string)
    ensures |r| > 0
  {
    if n < 0 then "-" + NatToString(-n) else NatToString(n)
  }

  /** Value of a run of decimal digits, as `parseInt` reads it. */
  function DigitsValue(s: string): nat
    requires forall i :: 0 <= i < |s| ==> IsDigit(s[i])
  {
    if s == [] then 0
    else
      assert IsDigit(s[|s| - 1]);
      DigitsValue(s[..|s| - 1]) * 10 + (s[|s| - 1] as int - '0' as int)
  }

  lemma {:induction false} DigitsValueOfNatToString(n: nat)
    ensures DigitsValue(NatToString(n)) == n
    decreases n
  {
    if n >= 10 {
      var r := NatToString(n);
      assert r[..|r| - 1] == NatToString(n / 10);
      DigitsValueOfNatToString(n / 10);
    }
  }

  /** `parts.join(sep)`. */
  function Join(parts: seq<string>, sep: string): string
  {
    if |parts| == 0 then ""
    else if |parts| == 1 then parts[0]
    else Join(parts[..|parts| - 1], sep) + sep + parts[|parts| - 1]
  }

  /** `s.split(c)` with the first piece kept apart and the rest joined back:
      the text before the first `c` and everything after it. */
  function SplitAtFirst(s: string, c: char): (r: (string, string))
    ensures forall i :: 0 <= i < |r.0| ==> r.0[i] != c
    ensures (c in s ==> s == r.0 + [c] + r.1) && (c !in s ==> r == (s, ""))
  {
    if |s| == 0 then ("", "")
    else if s[0] == c then ("", s[1..])
    else
      var rest := SplitAtFirst(s[1..], c);
      assert s == [s[0]] + s[1..];
      ([s[0]] + rest.0, rest.1)
  }

  /** The concatenation of `parts`, in order: what repeated `+=` builds. */
  function Concat(parts: seq<string>): string
  {
    if parts == [] then "" else Concat(parts[..|parts| - 1]) + parts[|parts| - 1]
  }

  /** Appending one more part extends the concatenation by that part. */
  lemma ConcatSnoc(parts: seq<string>, i: nat)
    requires i < |parts|
    ensures Concat(parts[..i + 1]) == Concat(parts[..i]) + parts[i]
  {
    assert parts[..i + 1][..i] == parts[..i];
  }

  lemma {:induction false} CountCharConcat(parts: seq<string>, c: char)
    ensures CountChar(Concat(parts), c) == SumCounts(parts, c)
    decreases |parts|
  {
    if parts != [] {
      CountCharConcat(parts[..|parts| - 1], c);
      CountCharAppend(Concat(parts[..|parts| - 1]), parts[|parts| - 1], c);
    }
  }

  /** The total number of occurrences of `c` across `parts`. */
  function SumCounts(parts: seq<string>, c: char): nat
  {
    if parts == [] then 0 else SumCounts(parts[..|parts| - 1], c) + CountChar(parts[|parts| - 1], c)
  }

  /** `s.reverse()` on a copy. */
  function Reverse<T>(s: seq<T>): (r: seq<T>)
    ensures |r| == |s| && forall i :: 0 <= i < |s| ==> r[i] == s[|s| - 1 - i]
  {
    if s == [] then [] else [s[|s| - 1]] + Reverse(s[..|s| - 1])
  }

  /** Taking the first `m` of the reversed sequence and reversing them back
      gives the last `m` elements in their original order. */
  lemma NewestInOrder<T>(s: seq<T>, m: nat)
    requires m <= |s|
    ensures Reverse(Reverse(s)[..m]) == s[|s| - m..]
  {
    var r := Reverse(Reverse(s)[..m]);
    forall i | 0 <= i < m ensures r[i] == s[|s| - m + i] {
      NewestInOrderAt(s, m, i);
    }
  }

  lemma NewestInOrderAt<T>(s: seq<T>, m: nat, i: nat)
    requires i < m <= |s|
    ensures Reverse(Reverse(s)[..m])[i] == s[|s| - m + i]
  {
    var newest := Reverse(s)[..m];
    ReverseAt(newest, i);
    ReverseAt(s, m - 1 - i);
  }

  lemma ReverseAt<T>(s: seq<T>, i: nat)
    requires i < |s|
    ensures Reverse(s)[i] == s[|s| - 1 - i]
  {
  }
}
