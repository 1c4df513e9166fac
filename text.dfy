/** The JavaScript string operations the components rely on, with the semantics
    the ECMAScript standard gives them (strings are sequences of characters). */
module Text {

  /** JavaScript's WhiteSpace and LineTerminator characters: the set that
      `String.prototype.trim` removes and that the regular-expression class `\s`
      matches. */
  predicate IsSpace(c: char) {
    c == '\t' || c == '\n' || c == '\U{000B}' || c == '\U{000C}' || c == '\r' || c == ' '
    || c == '\U{00A0}' || c == '\U{1680}' || ('\U{2000}' <= c <= '\U{200A}')
    || c == '\U{2028}' || c == '\U{2029}' || c == '\U{202F}' || c == '\U{205F}'
    || c == '\U{3000}' || c == '\U{FEFF}'
  }

  predicate AllSpace(s: string) {
    forall i :: 0 <= i < |s| ==> IsSpace(s[i])
  }

  /** `s.trimStart()`: the longest suffix of `s` that does not start with white space. */
  function TrimStart(s: string): (r: string)
    ensures |r| <= |s| && r == s[|s| - |r|..]
    ensures AllSpace(s[..|s| - |r|])
    ensures r == [] || !IsSpace(r[0])
  {
    if s != [] && IsSpace(s[0]) then
      var r := TrimStart(s[1..]);
      TrimStartStep(s, r);
      r
    else s
  }

  /** One more leading blank: what `TrimStart` keeps of `s[1..]` is also what it
      keeps of `s`. */
  lemma TrimStartStep(s: string, r: string)
    requires s != [] && IsSpace(s[0])
    requires |r| <= |s| - 1 && r == s[1..][|s| - 1 - |r|..] && AllSpace(s[1..][..|s| - 1 - |r|])
    ensures r == s[|s| - |r|..] && AllSpace(s[..|s| - |r|])
  {
    var n := |s| - |r|;
    assert s[..n] == [s[0]] + s[1..][..n - 1];
  }

  /** `s.trimEnd()`: the longest prefix of `s` that does not end with white space. */
  function TrimEnd(s: string): (r: string)
    ensures |r| <= |s| && r == s[..|r|]
    ensures AllSpace(s[|r|..])
    ensures r == [] || !IsSpace(r[|r| - 1])
  {
    if s != [] && IsSpace(s[|s| - 1]) then
      var r := TrimEnd(s[..|s| - 1]);
      TrimEndStep(s, r);
      r
    else s
  }

  /** One more trailing blank: what `TrimEnd` keeps of `s[..|s| - 1]` is also
      what it keeps of `s`. */
  lemma TrimEndStep(s: string, r: string)
    requires s != [] && IsSpace(s[|s| - 1])
    requires |r| <= |s| - 1 && r == s[..|s| - 1][..|r|] && AllSpace(s[..|s| - 1][|r|..])
    ensures r == s[..|r|] && AllSpace(s[|r|..])
  {
    assert s[|r|..] == s[..|s| - 1][|r|..] + [s[|s| - 1]];
  }

  /** `s.trim()` */
  function Trim(s: string): string {
    TrimEnd(TrimStart(s))
  }

  /** `!s.trim()`: the string is empty or white space only (`TrimEmptyIffBlank`
      shows the two readings agree). */
  predicate IsBlank(s: string) {
    AllSpace(s)
  }

  /** A string trims to nothing exactly when every character of it is white space. */
  lemma TrimEmptyIffBlank(s: string)
    ensures Trim(s) == [] <==> IsBlank(s)
  {
    var t := TrimStart(s);
    assert s[..|s|] == s;
    if t != [] {
      assert s[|s| - |t|] == t[0];
      TrimEndEmpty(t);
    }
  }

  lemma TrimEndEmpty(s: string)
    ensures TrimEnd(s) == [] ==> AllSpace(s)
  {
    assert s[0..] == s;
  }

  /** A text that neither starts nor ends with white space is its own trim. */
  lemma TrimUnchanged(s: string)
    requires s != [] && !IsSpace(s[0]) && !IsSpace(s[|s| - 1])
    ensures Trim(s) == s
  {
  }

  /** `c.toLowerCase()` for one character (ASCII letters only). */
  function LowerChar(c: char): char {
    if 'A' <= c <= 'Z' then (c as int + 32) as char else c
  }

  /** `s.toLowerCase()` (ASCII letters only). */
  function ToLower(s: string): (r: string)
    ensures |r| == |s|
    ensures forall i :: 0 <= i < |s| ==> r[i] == LowerChar(s[i])
  {
    seq(|s|, i requires 0 <= i < |s| => LowerChar(s[i]))
  }

  /** `s.startsWith(p)` */
  predicate StartsWith(s: string, p: string) {
    |p| <= |s| && s[..|p|] == p
  }

  /** `s.endsWith(p)` */
  predicate EndsWith(s: string, p: string) {
    |p| <= |s| && s[|s| - |p|..] == p
  }

  /** `t` occurs in `s` starting at position `i`. */
  predicate OccursAt(s: string, t: string, i: int) {
    0 <= i <= |s| - |t| && s[i..i + |t|] == t
  }

  /** `s.includes(t)`: `t` occurs in `s` at some position. */
  predicate Contains(s: string, t: string) {
    exists i :: 0 <= i <= |s| - |t| && OccursAt(s, t, i)
  }

  /** The number of occurrences of `c` in `s`. */
  function CountChar(s: string, c: char): nat {
    if s == [] then 0 else (if s[0] == c then 1 else 0) + CountChar(s[1..], c)
  }

  /** `s.split(sep)` for a one-character separator: the maximal pieces between
      separators, always at least one (possibly empty) piece. */
  function Split(s: string, sep: char): (parts: seq<string>)
    ensures |parts| >= 1
    ensures forall k :: 0 <= k < |parts| ==> sep !in parts[k]
  {
    if s == [] then [[]]
    else
      var rest := Split(s[1..], sep);
      if s[0] == sep then [[]] + rest
      else [[s[0]] + rest[0]] + rest[1..]
  }

  /** `parts.join(sep)` */
  function Join(parts: seq<string>, sep: string): string {
    if |parts| == 0 then []
    else if |parts| == 1 then parts[0]
    else parts[0] + sep + Join(parts[1..], sep)
  }

  /** Joining the pieces of a split with the separator gives back the string. */
  lemma {:induction false} JoinSplit(s: string, sep: char)
    ensures Join(Split(s, sep), [sep]) == s
  {
    if s != [] {
      var rest := Split(s[1..], sep);
      JoinSplit(s[1..], sep);
      if s[0] != sep && |rest| > 1 {
        assert Join(rest, [sep]) == rest[0] + [sep] + Join(rest[1..], [sep]);
        assert [[s[0]] + rest[0]] + rest[1..] == [[s[0]] + rest[0]] + rest[1..];
      }
    }
  }

  /** A text without the separator splits into itself. */
  lemma {:induction false} SplitNoSep(s: string, sep: char)
    requires sep !in s
    ensures Split(s, sep) == [s]
  {
    if s != [] {
      SplitNoSep(s[1..], sep);
      assert [s[0]] + s[1..] == s;
    }
  }

  /** A text with one separator splits into the parts around it. */
  lemma {:induction false} SplitTwo(a: string, b: string, sep: char)
    requires sep !in a && sep !in b
    ensures Split(a + [sep] + b, sep) == [a, b]
  {
    SplitAtFirst(a, b, sep);
    SplitNoSep(b, sep);
  }

  /** Splitting at the first separator: the text before it is the first
      piece and the rest splits on its own. */
  lemma {:induction false} SplitAtFirst(a: string, b: string, sep: char)
    requires sep !in a
    ensures Split(a + [sep] + b, sep) == [a] + Split(b, sep)
  {
    var s := a + [sep] + b;
    if a == [] {
      assert s[1..] == b;
    } else {
      assert s[1..] == a[1..] + [sep] + b;
      SplitAtFirst(a[1..], b, sep);
      assert [a[0]] + a[1..] == a;
    }
  }

  /** A split has one more piece than the string has separators. */
  lemma {:induction false} SplitCount(s: string, sep: char)
    ensures |Split(s, sep)| == CountChar(s, sep) + 1
  {
    if s != [] {
      SplitCount(s[1..], sep);
    }
  }

  /** The ASCII decimal digits. */
  predicate IsDigit(c: char) {
    '0' <= c <= '9'
  }

  function DigitChar(d: nat): (c: char)
    requires d < 10
    ensures IsDigit(c)
  {
    ('0' as int + d) as char
  }

  /** `String(n)` for a non-negative integer: its decimal digits, no leading zero. */
  function NatToString(n: nat): (r: string)
    ensures |r| >= 1
    ensures forall i :: 0 <= i < |r| ==> IsDigit(r[i])
    ensures |r| > 1 ==> r[0] != '0'
    ensures n < 10 <==> |r| == 1
  {
    if n < 10 then [DigitChar(n)] else NatToString(n / 10) + [DigitChar(n % 10)]
  }

  function DigitValue(c: char): nat
    requires IsDigit(c)
  {
    c as int - '0' as int
  }

  /** The value of a string of decimal digits. */
  function ParseDigits(s: string): nat
    requires forall i :: 0 <= i < |s| ==> IsDigit(s[i])
  {
    if s == [] then 0 else ParseDigits(s[..|s| - 1]) * 10 + DigitValue(s[|s| - 1])
  }

  /** Reading the decimal string of `n` back gives `n`. */
  lemma {:induction false} ParseNatToString(n: nat)
    ensures ParseDigits(NatToString(n)) == n
  {
    if n >= 10 {
      var r := NatToString(n);
      assert r[..|r| - 1] == NatToString(n / 10);
      ParseNatToString(n / 10);
    }
  }

  /** Leading zeros do not change the value of a digit string. */
  lemma {:induction false} ParseLeadingZeros(k: nat, s: string)
    requires forall i :: 0 <= i < |s| ==> IsDigit(s[i])
    ensures forall i :: 0 <= i < k + |s| ==> IsDigit((Repeat('0', k) + s)[i])
    ensures ParseDigits(Repeat('0', k) + s) == ParseDigits(s)
  {
    var t := Repeat('0', k) + s;
    if s == [] {
      ParseZeros(k);
      assert t == Repeat('0', k);
    } else {
      ParseLeadingZeros(k, s[..|s| - 1]);
      assert t[..|t| - 1] == Repeat('0', k) + s[..|s| - 1];
    }
  }

  lemma {:induction false} ParseZeros(k: nat)
    ensures forall i :: 0 <= i < k ==> IsDigit(Repeat('0', k)[i])
    ensures ParseDigits(Repeat('0', k)) == 0
  {
    if k > 0 {
      ParseZeros(k - 1);
      assert Repeat('0', k)[..k - 1] == Repeat('0', k - 1);
    }
  }

  /** `k` copies of `c`. */
  function Repeat(c: char, k: nat): (r: string)
    ensures |r| == k && forall i :: 0 <= i < k ==> r[i] == c
  {
    seq(k, _ => c)
  }

  /** `String(n)` for any integer. */
  function IntToString(n: int): string {
    if n < 0 then "-" + NatToString(-n) else NatToString(n)
  }

  /** `Math.round(a / b)` for `a >= 0`, `b > 0`, on exact rationals: the
      integer nearest to `a / b`, halves rounding up (`r <= a / b + 1/2 < r + 1`). */
  function RoundDiv(a: nat, b: nat): (r: nat)
    requires b > 0
    ensures 2 * b * r <= 2 * a + b < 2 * b * (r + 1)
  {
    (2 * a + b) / (2 * b)
  }

  lemma MulCancel(b: int, x: int, y: int)
    requires b > 0 && b * x < b * y
    ensures x < y
  {
  }

  /** Rounding is monotone in the numerator. */
  lemma RoundDivMonotone(a: nat, c: nat, b: nat)
    requires b > 0 && a <= c
    ensures RoundDiv(a, b) <= RoundDiv(c, b)
  {
    var r := RoundDiv(a, b);
    var s := RoundDiv(c, b);
    assert (2 * b) * r < (2 * b) * (s + 1);
    MulCancel(2 * b, r, s + 1);
  }

  /** A whole quotient rounds to itself. */
  lemma RoundDivExact(k: nat, b: nat)
    requires b > 0
    ensures RoundDiv(k * b, b) == k
  {
    var r := RoundDiv(k * b, b);
    assert (2 * b) * r < (2 * b) * (k + 1);
    MulCancel(2 * b, r, k + 1);
    assert (2 * b) * k < (2 * b) * (r + 1);
    MulCancel(2 * b, k, r + 1);
  }

  /** `s.padStart(len, fill)` for a one-character fill. */
  function PadStart(s: string, len: nat, fill: char): (r: string)
    ensures |r| == if |s| >= len then |s| else len
    ensures EndsWith(r, s)
    ensures forall i :: 0 <= i < |r| - |s| ==> r[i] == fill
  {
    if |s| >= len then s else Repeat(fill, len - |s|) + s
  }

  /** `s.replace(/c/g, d)`: every occurrence of `c` replaced by `d`. */
  function ReplaceAll(s: string, c: char, d: char): (r: string)
    ensures |r| == |s|
    ensures forall i :: 0 <= i < |s| ==> r[i] == if s[i] == c then d else s[i]
  {
    seq(|s|, i requires 0 <= i < |s| => if s[i] == c then d else s[i])
  }

  /** The first position at which `t` occurs in `s` (`s.indexOf(t)`), or -1. */
  function IndexOf(s: string, t: string): (r: int)
    ensures r == -1 || OccursAt(s, t, r)
    ensures r >= 0 ==> forall i :: 0 <= i < r ==> !OccursAt(s, t, i)
    ensures r < 0 <==> !Contains(s, t)
  {
    IndexFrom(s, t, 0)
  }

  function IndexFrom(s: string, t: string, from: nat): (r: int)
    requires forall i :: 0 <= i < from ==> !OccursAt(s, t, i)
    ensures r == -1 || (from <= r && OccursAt(s, t, r))
    ensures r >= 0 ==> forall i :: 0 <= i < r ==> !OccursAt(s, t, i)
    ensures r < 0 <==> !Contains(s, t)
    decreases |s| - from
  {
    if from + |t| > |s| then -1
    else if s[from..from + |t|] == t then from
    else IndexFrom(s, t, from + 1)
  }

  /** `s.replace(t, u)` with a string pattern: only the first occurrence is replaced. */
  function ReplaceFirst(s: string, t: string, u: string): string {
    var i := IndexOf(s, t);
    if i < 0 then s else s[..i] + u + s[i + |t|..]
  }

  /** A run of one or more characters that are neither white space nor '@': the
      class `[^\s@]+`. */
  predicate EmailAtom(s: string) {
    |s| > 0 && forall k :: 0 <= k < |s| ==> !IsSpace(s[k]) && s[k] != '@'
  }

  /** The regular expression `^[^\s@]+@[^\s@]+\.[^\s@]+$`. */
  predicate MatchesEmailPattern(s: string) {
    exists i, j :: 0 <= i < j < |s| && s[i] == '@' && s[j] == '.'
      && EmailAtom(s[..i]) && EmailAtom(s[i + 1..j]) && EmailAtom(s[j + 1..])
  }

  predicate NoSpace(s: string) {
    forall k :: 0 <= k < |s| ==> !IsSpace(s[k])
  }

  /** Position `i` holds the only '@' of `s`. */
  predicate SoleAt(s: string, i: int) {
    0 <= i < |s| && s[i] == '@' && forall k :: 0 <= k < |s| && k != i ==> s[k] != '@'
  }

  /** After position `i` there is a '.' that is neither right after `i` nor last. */
  predicate InteriorDotAfter(s: string, i: int) {
    exists j :: 0 <= i && i + 1 < j < |s| - 1 && s[j] == '.'
  }

  /** What the e-mail pattern means: no white space anywhere, exactly one '@',
      something before it, and after it a '.' that is neither the first nor the
      last character of the domain. */
  lemma EmailPatternShape(s: string)
    ensures MatchesEmailPattern(s) <==>
      NoSpace(s) && exists i :: 0 < i && SoleAt(s, i) && InteriorDotAfter(s, i)
  {
    if MatchesEmailPattern(s) {
      var i, j :| 0 <= i < j < |s| && s[i] == '@' && s[j] == '.'
        && EmailAtom(s[..i]) && EmailAtom(s[i + 1..j]) && EmailAtom(s[j + 1..]);
      AtomsGiveShape(s, i, j);
    }
    if NoSpace(s) && exists i :: 0 < i && SoleAt(s, i) && InteriorDotAfter(s, i) {
      var i :| 0 < i && SoleAt(s, i) && InteriorDotAfter(s, i);
      var j :| i + 1 < j < |s| - 1 && s[j] == '.';
      ShapeGivesAtoms(s, i, j);
    }
  }

  /** A match split at its '@' and '.' has the shape. */
  lemma AtomsGiveShape(s: string, i: int, j: int)
    requires 0 <= i < j < |s| && s[i] == '@' && s[j] == '.'
    requires EmailAtom(s[..i]) && EmailAtom(s[i + 1..j]) && EmailAtom(s[j + 1..])
    ensures NoSpace(s) && 0 < i && SoleAt(s, i) && InteriorDotAfter(s, i)
  {
    forall k | 0 <= k < |s| && k != i
      ensures !IsSpace(s[k]) && s[k] != '@'
    {
      if k < i { assert s[k] == s[..i][k]; }
      else if k < j { assert s[k] == s[i + 1..j][k - i - 1]; }
      else if k > j { assert s[k] == s[j + 1..][k - j - 1]; }
    }
  }

  /** A text of the shape, split at its '@' and an interior '.', matches. */
  lemma ShapeGivesAtoms(s: string, i: int, j: int)
    requires NoSpace(s) && 0 < i && SoleAt(s, i) && i + 1 < j < |s| - 1 && s[j] == '.'
    ensures EmailAtom(s[..i]) && EmailAtom(s[i + 1..j]) && EmailAtom(s[j + 1..])
  {
    var user, host, top := s[..i], s[i + 1..j], s[j + 1..];
    forall k | 0 <= k < |user| ensures !IsSpace(user[k]) && user[k] != '@' {
      assert user[k] == s[k];
    }
    forall k | 0 <= k < |host| ensures !IsSpace(host[k]) && host[k] != '@' {
      assert host[k] == s[i + 1 + k];
    }
    forall k | 0 <= k < |top| ensures !IsSpace(top[k]) && top[k] != '@' {
      assert top[k] == s[j + 1 + k];
    }
  }

  /** The e-mail pattern admits no white space, so a matching text is never
      blank. */
  lemma EmailPatternNotBlank(s: string)
    requires MatchesEmailPattern(s)
    ensures !IsBlank(s)
  {
    var i, j :| 0 <= i < j < |s| && s[i] == '@' && s[j] == '.'
      && EmailAtom(s[..i]) && EmailAtom(s[i + 1..j]) && EmailAtom(s[j + 1..]);
    assert !IsSpace(s[i]);
  }
}
