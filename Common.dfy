/**
 * Values shared by every module: optional values, results carrying the
 * Python exception that the original code would raise, and the handful of
 * Python `str` operations (strip, split, join, count, startswith, `in`)
 * that the pipeline relies on, written out over `seq<char>`.
 */
module Common {

  datatype Option<+T> = None | Some(value: T)

  /** The exceptions the modelled code raises or catches. */
  datatype Error =
    | ValueError(message: string)
    | KeyError(key: string)
    | IndexError
    | TypeError(message: string)
    | AttributeError(name: string)
    | RuntimeError(message: string)    // a crawl that did not succeed
    | HttpError                        // the model endpoint failed
    | ImportError(moduleName: string)      // an import error other than "module not found"

  datatype Result<+T> = Ok(value: T) | Err(error: Error)

  /** Python truthiness of an optional string: present and non-empty. */
  predicate IsTruthyText(s: Option<string>)
  {
    s.Some? && s.value != []
  }

  // ---------------------------------------------------------------------
  // Characters
  // ---------------------------------------------------------------------

  /** Python's `str.isspace`, which is also what `\s` matches in a `str` regex. */
  predicate IsSpace(c: char)
  {
    c == ' ' || ('\t' <= c <= '\r') || ('\U{1c}' <= c <= '\U{1f}') ||
    c == '\U{85}' || c == '\U{a0}' || c == '\U{1680}' ||
    ('\U{2000}' <= c <= '\U{200a}') || c == '\U{2028}' || c == '\U{2029}' ||
    c == '\U{202f}' || c == '\U{205f}' || c == '\U{3000}'
  }

  predicate IsAsciiDigit(c: char) { '0' <= c <= '9' }

  predicate IsAsciiLetter(c: char) { 'a' <= c <= 'z' || 'A' <= c <= 'Z' }

  // ---------------------------------------------------------------------
  // Searching
  // ---------------------------------------------------------------------

  predicate StartsWith(s: string, prefix: string)
  {
    |prefix| <= |s| && s[..|prefix|] == prefix
  }

  predicate EndsWith(s: string, suffix: string)
  {
    |suffix| <= |s| && s[|s| - |suffix|..] == suffix
  }

  /** `r` is the last `|r|` characters of `s`, stated character by character. */
  predicate SuffixOf(r: string, s: string)
  {
    |r| <= |s| && forall i :: 0 <= i < |r| ==> r[i] == s[|s| - |r| + i]
  }

  /** `sub` occurs in `s` starting at index `i`. */
  predicate OccursAt(s: string, sub: string, i: int)
  {
    0 <= i <= |s| - |sub| && s[i..i + |sub|] == sub
  }

  /** Python's `sub in s` for strings. */
  predicate Contains(s: string, sub: string)
  {
    exists i :: 0 <= i <= |s| - |sub| && OccursAt(s, sub, i)
  }

  /** The index of the first occurrence of `sub` in `s` (Python's `s.find(sub)`), or -1. */
  function IndexOf(s: string, sub: string): (i: int)
    ensures i == -1 || 0 <= i <= |s| - |sub|
    decreases |s|
  {
    if |s| < |sub| then -1
    else if s[..|sub|] == sub then 0
    else
      var k := IndexOf(s[1..], sub);
      if k == -1 then -1 else k + 1
  }

  /** `IndexOf` finds the first occurrence, and -1 exactly when there is none. */
  lemma {:induction false} IndexOfFirst(s: string, sub: string)
    ensures IndexOf(s, sub) == -1 <==> !Contains(s, sub)
    ensures IndexOf(s, sub) != -1 ==>
              OccursAt(s, sub, IndexOf(s, sub)) && forall j :: 0 <= j < IndexOf(s, sub) ==> !OccursAt(s, sub, j)
    decreases |s|
  {
    if |s| < |sub| {
    } else if s[..|sub|] == sub {
      assert OccursAt(s, sub, 0);
    } else {
      IndexOfFirst(s[1..], sub);
      var k := IndexOf(s[1..], sub);
      assert !OccursAt(s, sub, 0) by { assert s[0..|sub|] == s[..|sub|]; }
      var last := if k == -1 then |s| - |sub| else k;
      forall j | 1 <= j <= last
        ensures !OccursAt(s, sub, j)
      {
        OccursShift(s, sub, j);
      }
      if k != -1 {
        OccursShift(s, sub, k + 1);
      }
    }
  }

  /** An occurrence past the first character is an occurrence in the rest. */
  lemma OccursShift(s: string, sub: string, j: int)
    requires 1 <= j && s != []
    ensures OccursAt(s, sub, j) <==> OccursAt(s[1..], sub, j - 1)
  {
    if j <= |s| - |sub| {
      var a, b := s[j..j + |sub|], s[1..][j - 1..j - 1 + |sub|];
      assert |a| == |b| && forall t :: 0 <= t < |a| ==> a[t] == s[j + t] == b[t];
    }
  }

  /** A string that occurs inside another carries everything that occurs inside it. */
  lemma ContainsTransitive(outer: string, inner: string, sub: string, at: int)
    requires OccursAt(outer, inner, at) && Contains(inner, sub)
    ensures Contains(outer, sub)
  {
    var i :| 0 <= i <= |inner| - |sub| && OccursAt(inner, sub, i);
    assert inner == outer[at..at + |inner|];
    forall k | 0 <= k < |sub|
      ensures outer[at + i..at + i + |sub|][k] == sub[k]
    {
      assert sub[k] == inner[i + k] == outer[at + i + k];
    }
    assert OccursAt(outer, sub, at + i);
  }

  /** An occurrence inside an occurrence is an occurrence in the outer string. */
  lemma OccursCompose(outer: string, mid: string, inner: string, i: int, j: int)
    requires OccursAt(outer, mid, i) && OccursAt(mid, inner, j)
    ensures OccursAt(outer, inner, i + j)
    ensures Contains(outer, inner)
  {
    forall k | 0 <= k < |inner|
      ensures outer[i + j..i + j + |inner|][k] == inner[k]
    {
      assert inner[k] == mid[j + k] == outer[i + j + k];
    }
    assert outer[i + j..i + j + |inner|] == inner;
    assert OccursAt(outer, inner, i + j);
  }

  /** A string occurs in any concatenation at the position where it is placed. */
  lemma ConcatOccurs(a: string, b: string, c: string)
    ensures OccursAt(a + b + c, b, |a|)
  {
    assert (a + b + c)[|a|..|a| + |b|] == b;
  }

  /** Concatenation is associative. */
  lemma AppendAssoc<T>(x: seq<T>, y: seq<T>, z: seq<T>)
    ensures x + y + z == x + (y + z)
  {
  }

  /** Python's `s.count(c)` for a one-character argument. */
  function Count(s: string, c: char): nat
  {
    if s == [] then 0 else (if s[0] == c then 1 else 0) + Count(s[1..], c)
  }

  lemma {:induction false} CountAppend(a: string, b: string, c: char)
    ensures Count(a + b, c) == Count(a, c) + Count(b, c)
  {
    if a != [] {
      assert (a + b)[1..] == a[1..] + b;
      CountAppend(a[1..], b, c);
    } else {
      assert a + b == b;
    }
  }

  function Repeat(c: char, n: nat): (r: string)
    ensures |r| == n
  {
    if n == 0 then [] else [c] + Repeat(c, n - 1)
  }

  lemma {:induction false} CountRepeat(c: char, n: nat, d: char)
    ensures Count(Repeat(c, n), d) == if c == d then n else 0
  {
    if n > 0 {
      assert Repeat(c, n)[1..] == Repeat(c, n - 1);
      CountRepeat(c, n - 1, d);
    }
  }

  // ---------------------------------------------------------------------
  // Stripping
  // ---------------------------------------------------------------------

  /** Python's `s.lstrip()`. */
  function LStrip(s: string): (r: string)
    ensures |r| <= |s|
    ensures r == [] || !IsSpace(r[0])
  {
    if s != [] && IsSpace(s[0]) then LStrip(s[1..]) else s
  }

  /** `lstrip` keeps the end of the text. */
  lemma {:induction false} LStripIsSuffix(s: string)
    ensures SuffixOf(LStrip(s), s)
  {
    if s != [] && IsSpace(s[0]) {
      LStripIsSuffix(s[1..]);
    }
  }

  /** Python's `s.rstrip(chars)` for a set of characters given as a predicate. */
  function RStripWhile(s: string, strip: char -> bool): (r: string)
    ensures |r| <= |s| && r == s[..|r|]
    ensures r == [] || !strip(r[|r| - 1])
  {
    if s != [] && strip(s[|s| - 1]) then RStripWhile(s[..|s| - 1], strip) else s
  }

  /** `rstrip` removes only characters it was asked to strip. */
  lemma {:induction false} RStripWhileRemoves(s: string, strip: char -> bool)
    ensures forall i :: |RStripWhile(s, strip)| <= i < |s| ==> strip(s[i])
  {
    if s != [] && strip(s[|s| - 1]) {
      RStripWhileRemoves(s[..|s| - 1], strip);
    }
  }

  /** Python's `s.rstrip()`. */
  function RStrip(s: string): (r: string)
    ensures |r| <= |s| && r == s[..|r|]
    ensures r == [] || !IsSpace(r[|r| - 1])
  {
    RStripWhile(s, IsSpace)
  }

  /** Python's `s.strip()`. */
  function Strip(s: string): (r: string)
    ensures |r| <= |s|
    ensures r == [] || (!IsSpace(r[0]) && !IsSpace(r[|r| - 1]))
    ensures OccursAt(s, r, |s| - |LStrip(s)|)
  {
    var l := LStrip(s);
    var r := RStrip(l);
    LStripIsSuffix(s);
    PrefixOfSuffix(s, l, r);
    r
  }

  /** Dropping a prefix leaves a suffix. */
  lemma DropIsSuffix(s: string, k: nat)
    requires k <= |s|
    ensures SuffixOf(s[k..], s)
  {
  }

  /** A prefix of a suffix occurs where the suffix starts. */
  lemma PrefixOfSuffix(s: string, l: string, r: string)
    requires SuffixOf(l, s)
    requires |r| <= |l| && r == l[..|r|]
    ensures OccursAt(s, r, |s| - |l|)
  {
    var at := |s| - |l|;
    forall k | 0 <= k < |r|
      ensures s[at..at + |r|][k] == r[k]
    {
      assert r[k] == l[k] == s[at + k];
    }
    assert s[at..at + |r|] == r;
  }

  /** A string without whitespace at either end is its own strip. */
  lemma StripUnchanged(s: string)
    requires s != [] && !IsSpace(s[0]) && !IsSpace(s[|s| - 1])
    ensures Strip(s) == s
  {
    assert LStrip(s) == s;
  }

  lemma {:induction false} LStripAppend(a: string, b: string)
    ensures LStrip(a + b) == if LStrip(a) == [] then LStrip(b) else LStrip(a) + b
  {
    if a == [] {
      assert a + b == b;
    } else if IsSpace(a[0]) {
      assert (a + b)[1..] == a[1..] + b;
      LStripAppend(a[1..], b);
    }
  }

  lemma RStripWhileAppend(s: string, c: char, strip: char -> bool)
    requires strip(c)
    ensures RStripWhile(s + [c], strip) == RStripWhile(s, strip)
  {
    assert (s + [c])[..|s|] == s;
  }

  /** A trailing whitespace character does not change the strip. */
  lemma StripAppendSpace(s: string, c: char)
    requires IsSpace(c)
    ensures Strip(s + [c]) == Strip(s)
  {
    LStripAppend(s, [c]);
    assert LStrip([c]) == [];
    if LStrip(s) != [] {
      RStripWhileAppend(LStrip(s), c, IsSpace);
    }
  }

  /** Stripping something that occurs in a text leaves something that occurs in it. */
  lemma StripOccurs(outer: string, s: string, at: int)
    requires OccursAt(outer, s, at)
    ensures Contains(outer, Strip(s))
  {
    OccursCompose(outer, s, Strip(s), at, |s| - |LStrip(s)|);
  }

  // ---------------------------------------------------------------------
  // Splitting and joining
  // ---------------------------------------------------------------------

  /** Python's `s.split(sep)` for a one-character separator. */
  function Split(s: string, sep: char): (r: seq<string>)
    ensures |r| >= 1
  {
    if s == [] then [[]]
    else
      var rest := Split(s[1..], sep);
      if s[0] == sep then [[]] + rest else [[s[0]] + rest[0]] + rest[1..]
  }

  /** Python's `sep.join(parts)`. */
  function Join(parts: seq<string>, sep: string): string
  {
    if |parts| == 0 then []
    else if |parts| == 1 then parts[0]
    else parts[0] + sep + Join(parts[1..], sep)
  }

  lemma {:induction false} JoinSplit(s: string, sep: char)
    ensures Join(Split(s, sep), [sep]) == s
  {
    if s != [] {
      var rest := Split(s[1..], sep);
      JoinSplit(s[1..], sep);
      if s[0] == sep {
        assert Split(s, sep)[1..] == rest;
      } else {
        var r := Split(s, sep);
        assert r[1..] == rest[1..];
        if |rest| > 1 {
          assert rest[1..] == rest[1..][..];
          assert Join(rest, [sep]) == rest[0] + [sep] + Join(rest[1..], [sep]);
        }
      }
    }
  }

  /** `Join` of two non-empty lists puts one separator between the two joins. */
  lemma {:induction false} JoinConcat(p: seq<string>, q: seq<string>, sep: string)
    requires p != [] && q != []
    ensures Join(p + q, sep) == Join(p, sep) + sep + Join(q, sep)
  {
    if |p| > 1 {
      assert (p + q)[1..] == p[1..] + q;
      JoinConcat(p[1..], q, sep);
    } else {
      assert (p + q)[1..] == q;
    }
  }

  /** The join of a contiguous run of parts occurs inside the join of all parts. */
  lemma JoinSliceOccurs(parts: seq<string>, sep: string, a: nat, b: nat)
    requires a <= b <= |parts|
    ensures Contains(Join(parts, sep), Join(parts[a..b], sep))
  {
    var whole := Join(parts, sep);
    var mid := Join(parts[a..b], sep);
    if a == b {
      assert OccursAt(whole, mid, 0);
    } else {
      var left := if a == 0 then [] else Join(parts[..a], sep) + sep;
      var right := if b == |parts| then [] else sep + Join(parts[b..], sep);
      JoinUpTo(parts, sep, a, b);
      JoinFrom(parts, sep, b);
      assert whole == left + mid + right;
      ConcatOccurs(left, mid, right);
    }
  }

  /** The join of the first `b` parts, cut before part `a`. */
  lemma JoinUpTo(parts: seq<string>, sep: string, a: nat, b: nat)
    requires a < b <= |parts|
    ensures Join(parts[..b], sep) == (if a == 0 then [] else Join(parts[..a], sep) + sep) + Join(parts[a..b], sep)
  {
    if a > 0 {
      assert parts[..b] == parts[..a] + parts[a..b];
      JoinConcat(parts[..a], parts[a..b], sep);
    } else {
      assert parts[..b] == parts[a..b];
    }
  }

  /** The join of all parts, cut after part `b`. */
  lemma JoinFrom(parts: seq<string>, sep: string, b: nat)
    requires 0 < b <= |parts|
    ensures Join(parts, sep) == Join(parts[..b], sep) + (if b == |parts| then [] else sep + Join(parts[b..], sep))
  {
    if b < |parts| {
      assert parts == parts[..b] + parts[b..];
      JoinConcat(parts[..b], parts[b..], sep);
    } else {
      assert parts == parts[..b];
    }
  }

  /** Splitting after a first line without the separator gives that line, then the split of the rest. */
  lemma {:induction false} SplitFirstLine(a: string, b: string, sep: char)
    requires forall k :: 0 <= k < |a| ==> a[k] != sep
    ensures Split(a + [sep] + b, sep) == [a] + Split(b, sep)
  {
    if a == [] {
      assert a + [sep] + b == [sep] + b;
      assert ([sep] + b)[1..] == b;
    } else {
      assert (a + [sep] + b)[1..] == a[1..] + [sep] + b;
      SplitFirstLine(a[1..], b, sep);
      assert [a[0]] + a[1..] == a;
    }
  }

  lemma {:induction false} SplitPiecesHaveNoSeparator(s: string, sep: char)
    ensures forall k, j :: 0 <= k < |Split(s, sep)| && 0 <= j < |Split(s, sep)[k]| ==> Split(s, sep)[k][j] != sep
  {
    if s != [] {
      SplitPiecesHaveNoSeparator(s[1..], sep);
    }
  }

  // ---------------------------------------------------------------------
  // Numbers
  // ---------------------------------------------------------------------

  function DigitChar(d: nat): (c: char)
    requires d < 10
    ensures IsAsciiDigit(c) && c as int - '0' as int == d
  {
    ('0' as int + d) as char
  }

  /** Python's `str(n)` for a natural number. */
  function NatToString(n: nat): (r: string)
    ensures |r| >= 1 && forall i :: 0 <= i < |r| ==> IsAsciiDigit(r[i])
  {
    if n < 10 then [DigitChar(n)] else NatToString(n / 10) + [DigitChar(n % 10)]
  }

  /** The value of a string of ASCII digits. */
  function DigitsValue(s: string): nat
    requires forall i :: 0 <= i < |s| ==> IsAsciiDigit(s[i])
  {
    if s == [] then 0
    else
      assert IsAsciiDigit(s[|s| - 1]);
      10 * DigitsValue(s[..|s| - 1]) + (s[|s| - 1] as int - '0' as int)
  }

  /** Reading back the decimal form of a number gives the number. */
  lemma {:induction false} NatToStringValue(n: nat)
    ensures DigitsValue(NatToString(n)) == n
    decreases n
  {
    var s := NatToString(n);
    if n < 10 {
      assert s[..|s| - 1] == [];
    } else {
      assert s[..|s| - 1] == NatToString(n / 10);
      NatToStringValue(n / 10);
    }
  }
}
