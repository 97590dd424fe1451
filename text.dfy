/**
  The Python string operations the core relies on, stated over `seq<char>`:
  `p in s`, `s.split(p)`, `s.strip()`, `s[:n]`, `s.lower()`, `s.capitalize()`,
  `str(n)` for a natural number, and repeated `+=` of a list of pieces.
*/
module Text {
  import opened Wrappers

  // ---------------------------------------------------------------------------
  // Searching

  /** `p` occurs in `s` starting at index `i`. */
  predicate OccursAt(s: string, p: string, i: nat) {
    i + |p| <= |s| && s[i..i + |p|] == p
  }

  /** The first index at or after `from` where `p` occurs in `s`. */
  function FindFrom(s: string, p: string, from: nat): (r: Option<nat>)
    decreases |s| - from
    ensures r.Some? ==> from <= r.value && OccursAt(s, p, r.value)
    ensures forall j: nat :: from <= j && (r.None? || j < r.value) ==> !OccursAt(s, p, j)
  {
    if |s| < from + |p| then None
    else if s[from..from + |p|] == p then Some(from)
    else FindFrom(s, p, from + 1)
  }

  /** The first index where `p` occurs in `s`. */
  function Find(s: string, p: string): Option<nat> {
    FindFrom(s, p, 0)
  }

  /** Python's `p in s`. */
  predicate Contains(s: string, p: string) {
    Find(s, p).Some?
  }

  lemma OccursContains(s: string, p: string, i: nat)
    requires OccursAt(s, p, i)
    ensures Contains(s, p) && Find(s, p).value <= i
  {
  }

  /** Whatever contains `q` contains every piece of `q`. */
  lemma ContainsPiece(s: string, q: string, p: string, k: nat)
    requires Contains(s, q) && OccursAt(q, p, k)
    ensures Contains(s, p)
  {
    var i := Find(s, q).value;
    assert OccursAt(s, q, i);
    var w := s[i..i + |q|];
    assert w == q;
    assert forall j :: 0 <= j < |p| ==> s[i + k + j] == w[k + j] == p[j];
    assert OccursAt(s, p, i + k);
    OccursContains(s, p, i + k);
  }

  /** A text that starts with `p` holds it, with nothing before it. */
  lemma StartsWith(s: string, p: string)
    requires |p| > 0 && OccursAt(s, p, 0)
    ensures Contains(s, p) && Before(s, p) == ""
  {
    FindIs(s, p, 0);
  }

  /** The text before the first occurrence of `p`, or all of `s`: Python's `s.split(p)[0]`. */
  function Before(s: string, p: string): (r: string)
    requires |p| > 0
    ensures r <= s
    ensures !Contains(r, p)
    ensures Contains(s, p) ==> OccursAt(s, p, |r|)
    ensures !Contains(s, p) ==> r == s
  {
    match Find(s, p)
    case None => s
    case Some(i) =>
      NoEarlierOccurrence(s, p, i);
      s[..i]
  }

  /** The text before the first occurrence of `p` holds no occurrence of `p`. */
  lemma NoEarlierOccurrence(s: string, p: string, i: nat)
    requires |p| > 0 && Find(s, p) == Some(i)
    ensures !Contains(s[..i], p)
  {
    var r := s[..i];
    if Contains(r, p) {
      var j := Find(r, p).value;
      assert r[j..j + |p|] == s[j..j + |p|];
      assert OccursAt(s, p, j);
    }
  }

  /** The text after the first occurrence of `p`. */
  function After(s: string, p: string): (r: string)
    requires |p| > 0 && Contains(s, p)
    ensures s == Before(s, p) + p + r
  {
    var i := Find(s, p).value;
    assert s == s[..i] + s[i..i + |p|] + s[i + |p|..];
    s[i + |p|..]
  }

  /** Python's `s.split(p)` for a non-empty separator. */
  function Split(s: string, p: string): (r: seq<string>)
    requires |p| > 0
    decreases |s|
    ensures |r| >= 1 && r[0] == Before(s, p)
    ensures Contains(s, p) ==> |r| >= 2 && r[1] == Before(After(s, p), p)
    ensures !Contains(s, p) ==> r == [s]
    ensures forall k :: 0 <= k < |r| ==> !Contains(r[k], p)
  {
    match Find(s, p)
    case None => [s]
    case Some(i) => [s[..i]] + Split(s[i + |p|..], p)
  }

  /** Python's `p.join(xs)`. */
  function Join(xs: seq<string>, p: string): string {
    if |xs| == 0 then ""
    else if |xs| == 1 then xs[0]
    else xs[0] + p + Join(xs[1..], p)
  }

  /** Splitting and joining again with the same separator gives back the text. */
  lemma {:induction false} JoinSplit(s: string, p: string)
    requires |p| > 0
    ensures Join(Split(s, p), p) == s
    decreases |s|
  {
    match Find(s, p)
    case None =>
    case Some(i) =>
      var rest := s[i + |p|..];
      var tail := Split(rest, p);
      assert Split(s, p) == [s[..i]] + tail;
      assert ([s[..i]] + tail)[1..] == tail;
      JoinSplit(rest, p);
      assert s == s[..i] + s[i..i + |p|] + rest;
  }

  // ---------------------------------------------------------------------------
  // Searching text made of newline-separated pieces, for patterns without a newline

  predicate NoNewline(p: string) {
    '\n' !in p
  }

  /** `p` cannot occur where a character it lacks stands. */
  lemma MissingChar(s: string, p: string, c: char)
    requires c in p && c !in s
    ensures !Contains(s, p)
  {
  }

  lemma FindIs(s: string, p: string, i: nat)
    requires OccursAt(s, p, i)
    requires forall j: nat :: j < i ==> !OccursAt(s, p, j)
    ensures Find(s, p) == Some(i)
  {
  }

  /** Positions wholly inside `x` see the same text in `x + "\n" + y` as in `x`. */
  lemma OccursLeft(x: string, y: string, p: string, j: nat)
    requires j + |p| <= |x|
    ensures OccursAt(x + "\n" + y, p, j) <==> OccursAt(x, p, j)
  {
    assert (x + "\n" + y)[j..j + |p|] == x[j..j + |p|];
  }

  /** A newline-free pattern cannot cover the newline. */
  lemma OccursAcross(x: string, y: string, p: string, j: nat)
    requires NoNewline(p) && j <= |x| < j + |p|
    ensures !OccursAt(x + "\n" + y, p, j)
  {
    var s := x + "\n" + y;
    if j + |p| <= |s| {
      assert s[j..j + |p|][|x| - j] == '\n';
    }
  }

  /** Positions after the newline see the text of `y`. */
  lemma OccursRight(x: string, y: string, p: string, j: nat)
    requires |x| < j
    ensures OccursAt(x + "\n" + y, p, j) <==> OccursAt(y, p, j - |x| - 1)
  {
    var s := x + "\n" + y;
    if j + |p| <= |s| {
      assert s[j..j + |p|] == y[j - |x| - 1..j - |x| - 1 + |p|];
    }
  }

  /** An occurrence in `x` is found first. */
  lemma FindNewlineLeft(x: string, y: string, p: string)
    requires |p| > 0 && Contains(x, p)
    ensures Find(x + "\n" + y, p) == Find(x, p)
  {
    var s := x + "\n" + y;
    var i := Find(x, p).value;
    OccursLeft(x, y, p, i);
    forall j: nat | j < i
      ensures !OccursAt(s, p, j)
    {
      OccursLeft(x, y, p, j);
    }
    FindIs(s, p, i);
  }

  /** With none in `x`, the first occurrence is the first one in `y`, shifted. */
  lemma FindNewlineRight(x: string, y: string, p: string)
    requires |p| > 0 && NoNewline(p) && !Contains(x, p) && Contains(y, p)
    ensures Find(x + "\n" + y, p) == Some(|x| + 1 + Find(y, p).value)
  {
    var s := x + "\n" + y;
    var i := Find(y, p).value;
    OccursRight(x, y, p, |x| + 1 + i);
    forall j: nat | j < |x| + 1 + i
      ensures !OccursAt(s, p, j)
    {
      if j + |p| <= |x| {
        OccursLeft(x, y, p, j);
        if OccursAt(x, p, j) { OccursContains(x, p, j); }
      } else if j <= |x| {
        OccursAcross(x, y, p, j);
      } else {
        OccursRight(x, y, p, j);
      }
    }
    FindIs(s, p, |x| + 1 + i);
  }

  /** With none on either side, there is none in the joined text. */
  lemma FindNewlineNone(x: string, y: string, p: string)
    requires |p| > 0 && NoNewline(p) && !Contains(x, p) && !Contains(y, p)
    ensures !Contains(x + "\n" + y, p)
  {
    var s := x + "\n" + y;
    if Contains(s, p) {
      var j := Find(s, p).value;
      if j + |p| <= |x| {
        OccursLeft(x, y, p, j);
        OccursContains(x, p, j);
      } else if j <= |x| {
        OccursAcross(x, y, p, j);
      } else {
        OccursRight(x, y, p, j);
      }
    }
  }

  /** An occurrence of a newline-free pattern lies wholly on one side of a newline. */
  lemma FindNewline(x: string, y: string, p: string)
    requires |p| > 0 && NoNewline(p)
    ensures Contains(x, p) ==> Find(x + "\n" + y, p) == Find(x, p)
    ensures !Contains(x, p) && Contains(y, p) ==>
              Find(x + "\n" + y, p) == Some(|x| + 1 + Find(y, p).value)
    ensures !Contains(x, p) && !Contains(y, p) ==> !Contains(x + "\n" + y, p)
  {
    if Contains(x, p) {
      FindNewlineLeft(x, y, p);
    } else if Contains(y, p) {
      FindNewlineRight(x, y, p);
    } else {
      FindNewlineNone(x, y, p);
    }
  }

  /** Cutting at a newline-free pattern, when it occurs before a newline. */
  lemma CutBeforeNewline(x: string, y: string, p: string)
    requires |p| > 0 && NoNewline(p) && Contains(x, p)
    ensures Contains(x + "\n" + y, p)
    ensures Before(x + "\n" + y, p) == Before(x, p)
    ensures After(x + "\n" + y, p) == After(x, p) + "\n" + y
  {
    FindNewline(x, y, p);
    var s := x + "\n" + y;
    var i := Find(x, p).value;
    assert s[..i] == x[..i];
    assert s[i + |p|..] == x[i + |p|..] + "\n" + y;
  }

  /** Cutting at a newline-free pattern, when it occurs only after a newline. */
  lemma CutAfterNewline(x: string, y: string, p: string)
    requires |p| > 0 && NoNewline(p) && !Contains(x, p)
    ensures Contains(x + "\n" + y, p) <==> Contains(y, p)
    ensures Contains(y, p) ==> Before(x + "\n" + y, p) == x + "\n" + Before(y, p)
    ensures Contains(y, p) ==> After(x + "\n" + y, p) == After(y, p)
  {
    FindNewline(x, y, p);
    if Contains(y, p) {
      var s := x + "\n" + y;
      var i := Find(y, p).value;
      assert s[..|x| + 1 + i] == x + "\n" + y[..i];
      assert s[|x| + 1 + i + |p|..] == y[i + |p|..];
    }
  }

  /** Cutting a text that starts with the pattern. */
  lemma CutAtStart(p: string, y: string)
    requires |p| > 0
    ensures Contains(p + y, p) && Before(p + y, p) == "" && After(p + y, p) == y
  {
    assert OccursAt(p + y, p, 0);
    FindIs(p + y, p, 0);
  }

  /** A text shorter than `o` after `x`, where `x` lacks `o`'s first character, cannot hold `o`. */
  lemma OpenerNotInBody(o: string, f: string, x: string)
    requires |o| > |f| && |o| > 0 && o[0] !in x
    ensures !Contains(x + f, o)
  {
    forall k: nat
      ensures !OccursAt(x + f, o, k)
    {
      if k < |x| {
        assert (x + f)[k] == x[k];
      }
    }
  }

  /** Cutting a text that ends with the pattern, when what precedes lacks its first character. */
  lemma CutAtEnd(x: string, p: string)
    requires |p| > 0 && p[0] !in x
    ensures Contains(x + p, p) && Before(x + p, p) == x && After(x + p, p) == ""
  {
    var s := x + p;
    assert OccursAt(s, p, |x|);
    forall j: nat | j < |x|
      ensures !OccursAt(s, p, j)
    {
      assert s[j] == x[j];
      if j + |p| <= |s| {
        assert s[j..j + |p|][0] == x[j];
      }
    }
    FindIs(s, p, |x|);
  }

  /** The text `lines[0] + "\n" + lines[1] + "\n" + ... + tail`. */
  function Lines(lines: seq<string>, tail: string): string {
    if lines == [] then tail else lines[0] + "\n" + Lines(lines[1..], tail)
  }

  /** Lines can be split anywhere: the later lines become part of the tail. */
  lemma {:induction false} LinesAppend(a: seq<string>, b: seq<string>, tail: string)
    ensures Lines(a + b, tail) == Lines(a, Lines(b, tail))
  {
    if a != [] {
      assert (a + b)[1..] == a[1..] + b;
      LinesAppend(a[1..], b, tail);
    } else {
      assert a + b == b;
    }
  }

  /** No line before index `k` holds `p`. */
  predicate AbsentBefore(lines: seq<string>, p: string, k: nat)
    requires k <= |lines|
  {
    forall j :: 0 <= j < k ==> !Contains(lines[j], p)
  }

  /** Cutting newline-separated text at the first line that holds the pattern. */
  lemma {:induction false} CutLines(lines: seq<string>, tail: string, p: string, k: nat)
    requires |p| > 0 && NoNewline(p)
    requires k < |lines| && AbsentBefore(lines, p, k) && Contains(lines[k], p)
    ensures Contains(Lines(lines, tail), p)
    ensures Before(Lines(lines, tail), p) == Lines(lines[..k], Before(lines[k], p))
    ensures After(Lines(lines, tail), p) == Lines([After(lines[k], p)] + lines[k + 1..], tail)
  {
    var rest := Lines(lines[1..], tail);
    if k == 0 {
      CutBeforeNewline(lines[0], rest, p);
      assert ([After(lines[0], p)] + lines[1..])[1..] == lines[1..];
    } else {
      CutLines(lines[1..], tail, p, k - 1);
      CutAfterNewline(lines[0], rest, p);
      DropFirst(lines, k);
    }
  }

  /** Slices of `xs[1..]` in terms of slices of `xs`. */
  lemma DropFirst<T>(xs: seq<T>, k: nat)
    requires 0 < k < |xs|
    ensures xs[..k][1..] == xs[1..][..k - 1]
    ensures xs[1..][k - 1] == xs[k] && xs[1..][k - 1 + 1..] == xs[k + 1..]
  {
  }

  /** Cutting newline-separated text whose pattern occurs only in the tail. */
  lemma {:induction false} CutTail(lines: seq<string>, tail: string, p: string)
    requires |p| > 0 && NoNewline(p) && AbsentBefore(lines, p, |lines|)
    ensures Contains(Lines(lines, tail), p) <==> Contains(tail, p)
    ensures Contains(tail, p) ==> Before(Lines(lines, tail), p) == Lines(lines, Before(tail, p))
    ensures Contains(tail, p) ==> After(Lines(lines, tail), p) == After(tail, p)
  {
    if lines != [] {
      CutTail(lines[1..], tail, p);
      CutAfterNewline(lines[0], Lines(lines[1..], tail), p);
    }
  }

  // ---------------------------------------------------------------------------
  // Whitespace

  /** The characters Python's `str.isspace` accepts. */
  predicate IsSpace(c: char) {
    || c == ' '
    || ('\t' <= c <= '\r')
    || ('\U{1c}' <= c <= '\U{1f}')
    || c == '\U{85}' || c == '\U{a0}' || c == '\U{1680}'
    || ('\U{2000}' <= c <= '\U{200a}')
    || c == '\U{2028}' || c == '\U{2029}' || c == '\U{202f}' || c == '\U{205f}' || c == '\U{3000}'
  }

  predicate AllSpace(s: string) {
    forall i :: 0 <= i < |s| ==> IsSpace(s[i])
  }

  /** Neither end of `s` is whitespace. */
  predicate IsStripped(s: string) {
    s == [] || (!IsSpace(s[0]) && !IsSpace(s[|s| - 1]))
  }

  function TrimStart(s: string): string {
    if s != [] && IsSpace(s[0]) then TrimStart(s[1..]) else s
  }

  /** `TrimStart` drops a whitespace prefix and stops at the first other character. */
  lemma {:induction false} TrimStartShape(s: string)
    ensures |TrimStart(s)| <= |s| && TrimStart(s) == s[|s| - |TrimStart(s)|..]
    ensures AllSpace(s[..|s| - |TrimStart(s)|])
    ensures TrimStart(s) == [] || !IsSpace(TrimStart(s)[0])
  {
    if s != [] && IsSpace(s[0]) {
      TrimStartShape(s[1..]);
      assert s[..|s| - |TrimStart(s)|] == [s[0]] + s[1..][..|s| - 1 - |TrimStart(s)|];
    }
  }

  function TrimEnd(s: string): string {
    if s != [] && IsSpace(s[|s| - 1]) then TrimEnd(s[..|s| - 1]) else s
  }

  /** `TrimEnd` drops a whitespace suffix and stops at the last other character. */
  lemma {:induction false} TrimEndShape(s: string)
    ensures TrimEnd(s) <= s
    ensures AllSpace(s[|TrimEnd(s)|..])
    ensures TrimEnd(s) == [] || !IsSpace(TrimEnd(s)[|TrimEnd(s)| - 1])
  {
    if s != [] && IsSpace(s[|s| - 1]) {
      TrimEndShape(s[..|s| - 1]);
      assert s[|TrimEnd(s)|..] == s[..|s| - 1][|TrimEnd(s)|..] + [s[|s| - 1]];
    }
  }

  /** Python's `s.strip()`. */
  function Strip(s: string): (r: string)
    ensures IsStripped(r)
  {
    TrimStartShape(s);
    TrimEndShape(TrimStart(s));
    TrimEnd(TrimStart(s))
  }

  /** What `s.strip()` returns is a slice of `s`, so it contains nothing `s` lacks. */
  lemma StripKeepsAbsent(s: string, p: string)
    requires !Contains(s, p)
    ensures !Contains(Strip(s), p)
  {
    TrimStartShape(s);
    var t := TrimStart(s);
    TrimEndShape(t);
    var r := TrimEnd(t);
    var k := |s| - |t|;
    assert r == s[k..k + |r|];
    SliceContains(s, k, k + |r|, p);
  }

  /** An occurrence in a slice is an occurrence in the whole text. */
  lemma SliceContains(s: string, k: nat, m: nat, p: string)
    requires k <= m <= |s|
    ensures Contains(s[k..m], p) ==> Contains(s, p)
  {
    var r := s[k..m];
    if Contains(r, p) {
      var i := Find(r, p).value;
      assert OccursAt(r, p, i);
      var here, there := s[k + i..k + i + |p|], r[i..i + |p|];
      assert forall j :: 0 <= j < |p| ==> here[j] == there[j];
      assert here == there;
      OccursContains(s, p, k + i);
    }
  }

  lemma {:induction false} TrimStartSpaces(w: string, t: string)
    requires AllSpace(w) && (t == [] || !IsSpace(t[0]))
    ensures TrimStart(w + t) == t
    decreases |w|
  {
    if w != [] {
      assert (w + t)[1..] == w[1..] + t;
      TrimStartSpaces(w[1..], t);
    } else {
      assert w + t == t;
    }
  }

  lemma {:induction false} TrimEndSpaces(t: string, w: string)
    requires AllSpace(w) && (t == [] || !IsSpace(t[|t| - 1]))
    ensures TrimEnd(t + w) == t
    decreases |w|
  {
    if w != [] {
      assert (t + w)[..|t + w| - 1] == t + w[..|w| - 1];
      TrimEndSpaces(t, w[..|w| - 1]);
    } else {
      assert t + w == t;
    }
  }

  /** Stripping removes exactly the surrounding whitespace: it is the only stripped core of its input. */
  lemma StripFramed(w1: string, v: string, w2: string)
    requires AllSpace(w1) && AllSpace(w2) && IsStripped(v)
    ensures Strip(w1 + v + w2) == v
  {
    if v == [] {
      assert w1 + v + w2 == (w1 + w2) + [];
      TrimStartSpaces(w1 + w2, []);
    } else {
      assert w1 + v + w2 == w1 + (v + w2);
      TrimStartSpaces(w1, v + w2);
      TrimEndSpaces(v, w2);
    }
  }

  /** Trailing whitespace after a stripped text is removed. */
  lemma StripTrailing(v: string, w: string)
    requires IsStripped(v) && AllSpace(w)
    ensures Strip(v + w) == v
  {
    StripFramed([], v, w);
    assert [] + v + w == v + w;
  }

  /** Stripping twice is stripping once. */
  lemma StripIdempotent(s: string)
    ensures Strip(Strip(s)) == Strip(s)
  {
    var v := Strip(s);
    assert [] + v + [] == v;
    StripFramed([], v, []);
  }

  // ---------------------------------------------------------------------------
  // Slicing and case

  /** Python's `s[:n]`. */
  function Take(s: string, n: nat): (r: string)
    ensures r <= s && |r| == if n <= |s| then n else |s|
  {
    if n <= |s| then s[..n] else s
  }

  function LowerChar(c: char): char {
    if 'A' <= c <= 'Z' then (c as int - 'A' as int + 'a' as int) as char else c
  }

  function UpperChar(c: char): char {
    if 'a' <= c <= 'z' then (c as int - 'a' as int + 'A' as int) as char else c
  }

  /** Python's `s.lower()` on ASCII letters. */
  function Lower(s: string): (r: string)
    ensures |r| == |s|
    ensures forall i :: 0 <= i < |s| ==> r[i] == LowerChar(s[i])
  {
    seq(|s|, i requires 0 <= i < |s| => LowerChar(s[i]))
  }

  /** Lower-casing leaves a string without upper-case ASCII letters unchanged. */
  lemma LowerNoUpper(s: string)
    requires forall i :: 0 <= i < |s| ==> !('A' <= s[i] <= 'Z')
    ensures Lower(s) == s
  {
  }

  lemma LowerIdempotent(s: string)
    ensures Lower(Lower(s)) == Lower(s)
  {
  }

  /** Python's `s.capitalize()` on ASCII letters: first letter upper case, the rest lower case. */
  function Capitalize(s: string): (r: string)
    ensures |r| == |s|
    ensures s != [] ==> r[0] == UpperChar(s[0]) && r[1..] == Lower(s[1..])
  {
    if s == [] then [] else [UpperChar(s[0])] + Lower(s[1..])
  }

  /** A word whose tail is already lower case is capitalized by raising its first letter alone. */
  lemma CapitalizeCons(c: char, rest: string)
    requires Lower(rest) == rest
    ensures Capitalize([c] + rest) == [UpperChar(c)] + rest
  {
    assert ([c] + rest)[1..] == rest;
  }

  // ---------------------------------------------------------------------------
  // Decimal numerals, as `f"{i}"` renders a natural number

  predicate IsDigit(c: char) {
    '0' <= c <= '9'
  }

  function DigitChar(d: nat): char
    requires d < 10
  {
    (d + '0' as int) as char
  }

  function NatToString(n: nat): (r: string)
    ensures |r| >= 1
    ensures forall i :: 0 <= i < |r| ==> IsDigit(r[i])
    ensures |r| > 1 ==> r[0] != '0'
  {
    if n < 10 then [DigitChar(n)] else NatToString(n / 10) + [DigitChar(n % 10)]
  }

  /** The value of a string of decimal digits. */
  function DecimalValue(s: string): nat
    requires forall i :: 0 <= i < |s| ==> IsDigit(s[i])
  {
    if s == [] then 0
    else
      assert IsDigit(s[|s| - 1]);
      DecimalValue(s[..|s| - 1]) * 10 + (s[|s| - 1] as int - '0' as int)
  }

  /** Reading back a rendered number gives the number: distinct numbers render differently. */
  lemma {:induction false} NatToStringValue(n: nat)
    ensures DecimalValue(NatToString(n)) == n
  {
    if n >= 10 {
      var prefix := NatToString(n / 10);
      var r := prefix + [DigitChar(n % 10)];
      assert r[..|r| - 1] == prefix;
      NatToStringValue(n / 10);
    }
  }

  // ---------------------------------------------------------------------------
  // Accumulated text

  /** The text built by `acc += x` over `xs` in order, starting from `""`. */
  function Concat(xs: seq<string>): string {
    if xs == [] then "" else Concat(xs[..|xs| - 1]) + xs[|xs| - 1]
  }

  lemma ConcatSnoc(xs: seq<string>, x: string)
    ensures Concat(xs + [x]) == Concat(xs) + x
  {
    assert (xs + [x])[..|xs|] == xs;
  }

  /** One more piece of a prefix adds that piece at the end. */
  lemma ConcatPrefix(xs: seq<string>, i: nat)
    requires i < |xs|
    ensures Concat(xs[..i + 1]) == Concat(xs[..i]) + xs[i]
  {
    assert xs[..i + 1][..i] == xs[..i];
  }

  /** One step of a loop that appends `xs[i]` to a header followed by the first `i` pieces. */
  lemma AppendStep(h: string, xs: seq<string>, i: nat)
    requires i < |xs|
    ensures h + Concat(xs[..i]) + xs[i] == h + Concat(xs[..i + 1])
  {
    ConcatPrefix(xs, i);
  }

  /** The accumulated text is empty exactly when every piece is. */
  lemma {:induction false} ConcatEmpty(xs: seq<string>)
    ensures Concat(xs) == "" <==> forall i :: 0 <= i < |xs| ==> xs[i] == ""
  {
    if xs != [] {
      var init := xs[..|xs| - 1];
      ConcatEmpty(init);
      assert forall i :: 0 <= i < |init| ==> init[i] == xs[i];
    }
  }
}
