/** The Python `str` operations the core relies on, over `seq<char>`: `strip`, `lower`,
    `in`, `replace`, `join`, `split`, slicing and `str(int)`. */
module Text {

  /** Python's `str.isspace()` on one character: what `strip()` and `split()` remove. */
  predicate IsSpace(c: char)
  {
    c == ' ' || '\t' <= c <= '\r' || '\U{1C}' <= c <= '\U{1F}' || c == '\U{85}' || c == '\U{A0}'
    || c == '\U{1680}' || '\U{2000}' <= c <= '\U{200A}' || c == '\U{2028}' || c == '\U{2029}'
    || c == '\U{202F}' || c == '\U{205F}' || c == '\U{3000}'
  }

  predicate AllSpace(s: string)
  {
    forall i :: 0 <= i < |s| ==> IsSpace(s[i])
  }

  /** The length of the whitespace run that `s` starts with. */
  function LeadingSpaces(s: string): (n: nat)
    ensures n <= |s|
    ensures forall i :: 0 <= i < n ==> IsSpace(s[i])
    ensures n == |s| || !IsSpace(s[n])
  {
    if s != [] && IsSpace(s[0]) then
      var m := LeadingSpaces(s[1..]);
      assert forall i :: 1 <= i < m + 1 ==> s[i] == s[1..][i - 1];
      m + 1
    else 0
  }

  /** The length of the whitespace run that `s` ends with. */
  function TrailingSpaces(s: string): (n: nat)
    ensures n <= |s|
    ensures forall i :: |s| - n <= i < |s| ==> IsSpace(s[i])
    ensures n == |s| || !IsSpace(s[|s| - n - 1])
  {
    if s != [] && IsSpace(s[|s| - 1]) then
      var m := TrailingSpaces(s[..|s| - 1]);
      assert forall i :: |s| - 1 - m <= i < |s| - 1 ==> s[i] == s[..|s| - 1][i];
      m + 1
    else 0
  }

  /** `s.lstrip()` */
  function TrimStart(s: string): (r: string)
    ensures |r| <= |s| && r == s[|s| - |r|..]
    ensures AllSpace(s[..|s| - |r|])
    ensures r == [] || !IsSpace(r[0])
  {
    var n := LeadingSpaces(s);
    assert forall i :: 0 <= i < n ==> s[..n][i] == s[i];
    s[n..]
  }

  /** `s.rstrip()` */
  function TrimEnd(s: string): (r: string)
    ensures |r| <= |s| && r == s[..|r|]
    ensures AllSpace(s[|r|..])
    ensures r == [] || !IsSpace(r[|r| - 1])
  {
    var n := TrailingSpaces(s);
    s[..|s| - n]
  }

  /** `s.strip()`: the middle of `s` once the surrounding whitespace runs are cut off. */
  function Strip(s: string): (r: string)
    ensures |r| <= |s|
    ensures r == [] || (!IsSpace(r[0]) && !IsSpace(r[|r| - 1]))
    ensures exists a :: 0 <= a <= |s| - |r| && r == s[a..a + |r|] && AllSpace(s[..a]) && AllSpace(s[a + |r|..])
  {
    StripParts(s);
    TrimEnd(TrimStart(s))
  }

  /** The stripped text sits between the two whitespace runs that were cut off. */
  lemma StripParts(s: string)
    ensures var t := TrimStart(s);
            var r := TrimEnd(t);
            var a := |s| - |t|;
            0 <= a <= |s| - |r| && r == s[a..a + |r|] && AllSpace(s[..a]) && AllSpace(s[a + |r|..])
  {
    var t := TrimStart(s);
    var r := TrimEnd(t);
    var a := |s| - |t|;
    assert t == s[a..];
    assert s[a + |r|..] == t[|r|..];
  }

  /** Stripping twice is stripping once. */
  lemma StripIdempotent(s: string)
    ensures Strip(Strip(s)) == Strip(s)
  {
  }

  /** `s.strip() == ""` exactly when `s` is all whitespace. */
  lemma {:induction false} StripBlank(s: string)
    ensures Strip(s) == [] <==> AllSpace(s)
  {
    if AllSpace(s) {
      TrimStartAllSpace(s);
    } else {
      var i :| 0 <= i < |s| && !IsSpace(s[i]);
      TrimStartNonBlank(s, i);
      TrimEndNonBlank(TrimStart(s));
    }
  }

  lemma {:induction false} TrimStartAllSpace(s: string)
    requires AllSpace(s)
    ensures TrimStart(s) == []
    decreases |s|
  {
    if s != [] {
      assert AllSpace(s[1..]) by {
        forall i | 0 <= i < |s| - 1 ensures IsSpace(s[1..][i]) {
          assert s[1..][i] == s[i + 1];
        }
      }
      TrimStartAllSpace(s[1..]);
    }
  }

  lemma {:induction false} TrimStartNonBlank(s: string, i: nat)
    requires i < |s| && !IsSpace(s[i])
    ensures TrimStart(s) != []
    decreases |s|
  {
    if IsSpace(s[0]) {
      assert s[1..][i - 1] == s[i];
      TrimStartNonBlank(s[1..], i - 1);
    }
  }

  lemma {:induction false} TrimEndNonBlank(t: string)
    requires t != [] && !IsSpace(t[0])
    ensures TrimEnd(t) != []
    decreases |t|
  {
    if IsSpace(t[|t| - 1]) {
      TrimEndNonBlank(t[..|t| - 1]);
    }
  }

  /** Python's `str.lower()` on ASCII letters; other characters are kept. */
  function LowerChar(c: char): char
  {
    if 'A' <= c <= 'Z' then (c as int + 32) as char else c
  }

  function Lower(s: string): string
  {
    seq(|s|, i requires 0 <= i < |s| => LowerChar(s[i]))
  }

  /** A lower-case letter absent from `s` in both cases is absent from `s.lower()`. */
  lemma LowerKeepsAbsent(s: string, c: char)
    requires 'a' <= c <= 'z' && c !in s && (c as int - 32) as char !in s
    ensures c !in Lower(s)
  {
    var low := Lower(s);
    forall i | 0 <= i < |s|
      ensures low[i] != c
    {
      assert s[i] in s;
    }
  }

  predicate StartsWith(s: string, p: string)
  {
    |p| <= |s| && s[..|p|] == p
  }

  /** Python's `p in s` for strings. */
  predicate Contains(s: string, p: string)
  {
    exists i :: 0 <= i <= |s| && StartsWith(s[i..], p)
  }

  /** An occurrence found at position `i` makes `p in s` true. */
  lemma ContainsAt(s: string, p: string, i: nat)
    requires i <= |s| && StartsWith(s[i..], p)
    ensures Contains(s, p)
  {
  }

  /** A pattern whose first character does not occur in `s` does not occur in `s`. */
  lemma NotContainsMissingHead(s: string, p: string)
    requires p != [] && p[0] !in s
    ensures !Contains(s, p)
  {
    forall i | 0 <= i <= |s|
      ensures !StartsWith(s[i..], p)
    {
      if i < |s| {
        assert s[i] in s;
        NotStartsWithAt(s[i..], p, 0);
      } else {
        NotStartsWithAt(s[i..], p, 0);
      }
    }
  }

  /** An occurrence in a part of `s` is an occurrence in `s`. */
  lemma ContainsInfix(s: string, p: string, a: nat, b: nat)
    requires a <= b <= |s| && Contains(s[a..b], p)
    ensures Contains(s, p)
  {
    var i :| 0 <= i <= b - a && StartsWith(s[a..b][i..], p);
    assert s[a..b][i..][..|p|] == p;
    forall j | 0 <= j < |p|
      ensures s[a + i..][..|p|][j] == p[j]
    {
      assert s[a + i..][..|p|][j] == s[a..b][i..][..|p|][j];
    }
    assert s[a + i..][..|p|] == p;
    ContainsAt(s, p, a + i);
  }

  /** A string that contains `p` contains every part of `p`. */
  lemma ContainsPart(s: string, p: string, a: nat, b: nat)
    requires a <= b <= |p| && Contains(s, p)
    ensures Contains(s, p[a..b])
  {
    var i :| 0 <= i <= |s| && StartsWith(s[i..], p);
    assert s[i..][..|p|] == p;
    forall j | 0 <= j < b - a
      ensures s[i + a..][..b - a][j] == p[a..b][j]
    {
      assert s[i + a..][..b - a][j] == s[i..][..|p|][a + j];
    }
    assert s[i + a..][..b - a] == p[a..b];
    ContainsAt(s, p[a..b], i + a);
  }

  /** An occurrence in `a` or in `b` is an occurrence in `a + b`. */
  lemma ContainsConcat(a: string, b: string, p: string)
    requires Contains(a, p) || Contains(b, p)
    ensures Contains(a + b, p)
  {
    var s := a + b;
    if Contains(a, p) {
      assert s[..|a|] == a;
      ContainsInfix(s, p, 0, |a|);
    } else {
      assert s[|a|..|s|] == b;
      ContainsInfix(s, p, |a|, |s|);
    }
  }

  /** `"".join` with the empty pattern: Python puts `r` before, between and after every character. */
  function Interleave(s: string, r: string): string
  {
    if s == [] then r else r + [s[0]] + Interleave(s[1..], r)
  }

  /** Python's `s.replace(p, r)`: every non-overlapping occurrence of `p`, scanning from the left. */
  function ReplaceAll(s: string, p: string, r: string): string
    decreases |s|
  {
    if p == [] then Interleave(s, r)
    else if s == [] then []
    else if StartsWith(s, p) then r + ReplaceAll(s[|p|..], p, r)
    else [s[0]] + ReplaceAll(s[1..], p, r)
  }

  /** Replacing a pattern that does not occur changes nothing. */
  lemma {:induction false} ReplaceAllAbsent(s: string, p: string, r: string)
    requires p != [] && !Contains(s, p)
    ensures ReplaceAll(s, p, r) == s
    decreases |s|
  {
    if s != [] {
      assert s[0..] == s;
      assert !StartsWith(s, p);
      forall i | 0 <= i <= |s| - 1
        ensures !StartsWith(s[1..][i..], p)
      {
        assert s[1..][i..] == s[i + 1..];
      }
      ReplaceAllAbsent(s[1..], p, r);
    }
  }

  lemma {:induction false} InterleaveEmpty(s: string)
    ensures Interleave(s, []) == s
    decreases |s|
  {
    if s != [] {
      InterleaveEmpty(s[1..]);
    }
  }

  /** Replacing a pattern by itself changes nothing. */
  lemma {:induction false} ReplaceAllSelf(s: string, p: string)
    ensures ReplaceAll(s, p, p) == s
    decreases |s|
  {
    if p == [] {
      InterleaveEmpty(s);
    } else if s == [] {
    } else if StartsWith(s, p) {
      ReplaceAllSelf(s[|p|..], p);
      assert s == s[..|p|] + s[|p|..];
    } else {
      ReplaceAllSelf(s[1..], p);
    }
  }

  /** A position where `t` and `p` differ, or where `t` has ended, rules out `t` starting with `p`. */
  lemma NotStartsWithAt(t: string, p: string, j: nat)
    requires j < |p| && (j >= |t| || t[j] != p[j])
    ensures !StartsWith(t, p)
  {
    if |p| <= |t| {
      assert t[..|p|][j] == t[j];
    }
  }

  /** Where the pattern matches, the output begins with the replacement. */
  lemma ReplaceAllAtMatch(t: string, p: string, r: string)
    ensures p != [] && r != [] && StartsWith(t, p) ==> ReplaceAll(t, p, r)[0] == r[0]
  {
    if p != [] && r != [] && StartsWith(t, p) {
      assert ReplaceAll(t, p, r) == r + ReplaceAll(t[|p|..], p, r);
    }
  }

  /** Up to the first character that came from the replacement, the output copies the input. */
  lemma {:induction false} ReplaceAllPrefixAgree(t: string, p: string, r: string, k: nat)
    requires p != [] && r != []
    requires k <= |ReplaceAll(t, p, r)|
    requires forall j :: 0 <= j < k ==> ReplaceAll(t, p, r)[j] !in r
    ensures k <= |t| && ReplaceAll(t, p, r)[..k] == t[..k]
    decreases |t|
  {
    var out := ReplaceAll(t, p, r);
    if k > 0 {
      assert t != [];
      ReplaceAllAtMatch(t, p, r);
      assert out[0] !in r;
      assert !StartsWith(t, p);
      var x := ReplaceAll(t[1..], p, r);
      assert out == [t[0]] + x;
      forall j | 0 <= j < k - 1
        ensures x[j] !in r
      {
        assert x[j] == out[j + 1];
      }
      ReplaceAllPrefixAgree(t[1..], p, r, k - 1);
      assert out[..k] == [t[0]] + x[..k - 1];
      assert t[..k] == [t[0]] + t[1..][..k - 1];
    }
  }

  /** `[c] + x` cannot start with `q` when `s` does not, `x` is the replacement output of `s[1..]`,
      and the replacement shares no character with `q`. */
  lemma NoOccurrenceAtHead(s: string, p: string, r: string, q: string)
    requires p != [] && r != [] && q != [] && s != []
    requires forall c :: c in r ==> c !in q
    requires !StartsWith(s, q)
    ensures !StartsWith([s[0]] + ReplaceAll(s[1..], p, r), q)
  {
    var x := ReplaceAll(s[1..], p, r);
    var out := [s[0]] + x;
    var k := |q| - 1;
    if j :| 0 <= j < k && j < |x| && x[j] in r {
      assert out[j + 1] == x[j];
      assert q[j + 1] in q;
      NotStartsWithAt(out, q, j + 1);
    } else if k <= |x| {
      ReplaceAllPrefixAgree(s[1..], p, r, k);
      assert s[..|q|] == [s[0]] + s[1..][..k];
      assert out[..|q|] == [s[0]] + x[..k];
    } else {
      NotStartsWithAt(out, q, |out|);
    }
  }

  /** No occurrence of `q` can begin inside a copy of the replacement `r` when they share no character. */
  lemma NoOccurrenceInReplacement(r: string, x: string, q: string, i: nat)
    requires q != [] && i < |r|
    requires forall c :: c in r ==> c !in q
    ensures !StartsWith((r + x)[i..], q)
  {
    assert (r + x)[i..][0] == r[i];
    assert r[i] in r;
    assert q[0] in q;
    NotStartsWithAt((r + x)[i..], q, 0);
  }

  /** When the replacement shares no character with the pattern, no occurrence survives. */
  lemma {:induction false} ReplaceAllRemoves(s: string, p: string, r: string)
    requires p != [] && r != []
    requires forall c :: c in r ==> c !in p
    ensures !Contains(ReplaceAll(s, p, r), p)
    decreases |s|
  {
    var out := ReplaceAll(s, p, r);
    if s == [] {
      assert out == [];
      assert forall i :: 0 <= i <= |out| ==> out[i..] == [];
    } else if StartsWith(s, p) {
      var x := ReplaceAll(s[|p|..], p, r);
      ReplaceAllRemoves(s[|p|..], p, r);
      assert out == r + x;
      forall i | 0 <= i <= |out|
        ensures !StartsWith(out[i..], p)
      {
        if i < |r| {
          NoOccurrenceInReplacement(r, x, p, i);
        } else {
          assert out[i..] == x[i - |r|..];
        }
      }
    } else {
      var x := ReplaceAll(s[1..], p, r);
      ReplaceAllRemoves(s[1..], p, r);
      assert out == [s[0]] + x;
      forall i | 0 <= i <= |out|
        ensures !StartsWith(out[i..], p)
      {
        if i == 0 {
          NoOccurrenceAtHead(s, p, r, p);
        } else {
          assert out[i..] == x[i - 1..];
        }
      }
    }
  }

  /** A replacement that shares no character with `q` cannot create an occurrence of `q`. */
  lemma {:induction false} ReplaceAllKeepsAbsent(s: string, p: string, r: string, q: string)
    requires p != [] && r != [] && q != []
    requires forall c :: c in r ==> c !in q
    requires !Contains(s, q)
    ensures !Contains(ReplaceAll(s, p, r), q)
    decreases |s|
  {
    var out := ReplaceAll(s, p, r);
    if s == [] {
      assert out == [];
      assert forall i :: 0 <= i <= |out| ==> out[i..] == [];
    } else if StartsWith(s, p) {
      var x := ReplaceAll(s[|p|..], p, r);
      NotContainsSuffix(s, q, |p|);
      ReplaceAllKeepsAbsent(s[|p|..], p, r, q);
      assert out == r + x;
      forall i | 0 <= i <= |out|
        ensures !StartsWith(out[i..], q)
      {
        if i < |r| {
          NoOccurrenceInReplacement(r, x, q, i);
        } else {
          assert out[i..] == x[i - |r|..];
        }
      }
    } else {
      var x := ReplaceAll(s[1..], p, r);
      NotContainsSuffix(s, q, 1);
      ReplaceAllKeepsAbsent(s[1..], p, r, q);
      assert out == [s[0]] + x;
      forall i | 0 <= i <= |out|
        ensures !StartsWith(out[i..], q)
      {
        if i == 0 {
          assert s[0..] == s;
          NoOccurrenceAtHead(s, p, r, q);
        } else {
          assert out[i..] == x[i - 1..];
        }
      }
    }
  }

  lemma NotContainsSuffix(s: string, q: string, k: nat)
    requires k <= |s| && !Contains(s, q)
    ensures !Contains(s[k..], q)
  {
    forall i | 0 <= i <= |s| - k
      ensures !StartsWith(s[k..][i..], q)
    {
      assert s[k..][i..] == s[k + i..];
    }
  }
  /** Python's `sep.join(parts)`. */
  function Join(parts: seq<string>, sep: string): string
  {
    if |parts| == 0 then []
    else if |parts| == 1 then parts[0]
    else parts[0] + sep + Join(parts[1..], sep)
  }

  /** Python's `s.split(c)` for a one-character separator. */
  function SplitOn(s: string, c: char): (parts: seq<string>)
    ensures |parts| >= 1
  {
    if s == [] then [[]]
    else
      var rest := SplitOn(s[1..], c);
      if s[0] == c then [[]] + rest else [[s[0]] + rest[0]] + rest[1..]
  }

  lemma {:induction false} SplitOnNoSeparator(a: string, c: char)
    requires c !in a
    ensures SplitOn(a, c) == [a]
    decreases |a|
  {
    if a != [] {
      SplitOnNoSeparator(a[1..], c);
      assert [a[0]] + a[1..] == a;
    }
  }

  lemma {:induction false} SplitOnFirst(a: string, b: string, c: char)
    requires c !in a
    ensures SplitOn(a + [c] + b, c) == [a] + SplitOn(b, c)
    decreases |a|
  {
    var s := a + [c] + b;
    if a == [] {
      assert s[1..] == b;
    } else {
      assert s[1..] == a[1..] + [c] + b;
      SplitOnFirst(a[1..], b, c);
      assert [a[0]] + a[1..] == a;
    }
  }

  /** Splitting a join on its separator gives the parts back, when no part holds the separator. */
  lemma {:induction false} SplitJoin(parts: seq<string>, c: char)
    requires |parts| >= 1
    requires forall i :: 0 <= i < |parts| ==> c !in parts[i]
    ensures SplitOn(Join(parts, [c]), c) == parts
    decreases |parts|
  {
    if |parts| == 1 {
      SplitOnNoSeparator(parts[0], c);
    } else {
      SplitJoin(parts[1..], c);
      SplitOnFirst(parts[0], Join(parts[1..], [c]), c);
      assert parts == [parts[0]] + parts[1..];
    }
  }

  predicate IsWord(w: string)
  {
    w != [] && forall j :: 0 <= j < |w| ==> !IsSpace(w[j])
  }

  /** Length of the leading run of non-whitespace characters. */
  function SpanNonSpace(s: string): (n: nat)
    ensures n <= |s|
    ensures forall i :: 0 <= i < n ==> !IsSpace(s[i])
    ensures n == |s| || IsSpace(s[n])
  {
    if s == [] || IsSpace(s[0]) then 0 else 1 + SpanNonSpace(s[1..])
  }

  /** Python's `s.split()`: the maximal runs of non-whitespace characters, in order. */
  function Words(s: string): (ws: seq<string>)
    ensures forall i :: 0 <= i < |ws| ==> IsWord(ws[i])
    decreases |s|
  {
    if s == [] then []
    else if IsSpace(s[0]) then Words(s[1..])
    else
      var n := SpanNonSpace(s);
      [s[..n]] + Words(s[n..])
  }

  /** Splitting a space-joined list of words gives the words back. */
  lemma {:induction false} WordsJoin(ws: seq<string>)
    requires forall i :: 0 <= i < |ws| ==> IsWord(ws[i])
    ensures Words(Join(ws, " ")) == ws
    decreases |ws|
  {
    if |ws| == 1 {
      SpanWord(ws[0], []);
      assert ws[0][..|ws[0]|] == ws[0];
    } else if |ws| > 1 {
      WordsCons(ws[0], Join(ws[1..], " "));
      WordsJoin(ws[1..]);
      assert ws == [ws[0]] + ws[1..];
    }
  }

  /** A word followed by a space and more text splits off as the first word. */
  lemma WordsCons(w: string, t: string)
    requires IsWord(w)
    ensures Words(w + " " + t) == [w] + Words(t)
  {
    var s := w + " " + t;
    SpanWord(w, " " + t);
    assert s[0] == w[0];
    assert s[..|w|] == w;
    assert s[|w|..] == " " + t;
    assert Words(s) == [w] + Words(" " + t);
    WordsSpace(t);
  }

  lemma WordsSpace(t: string)
    ensures Words(" " + t) == Words(t)
  {
    assert (" " + t)[1..] == t;
  }

  lemma {:induction false} SpanWord(w: string, rest: string)
    requires IsWord(w)
    requires rest == [] || IsSpace(rest[0])
    ensures SpanNonSpace(w + rest) == |w|
    decreases |w|
  {
    var s := w + rest;
    if |w| > 1 {
      assert s[1..] == w[1..] + rest;
      SpanWord(w[1..], rest);
    } else {
      assert s[1..] == rest;
    }
  }

  /** Python's `s[:n]` for `n >= 0`. */
  function Take<T>(s: seq<T>, n: nat): (r: seq<T>)
    ensures |r| == (if |s| <= n then |s| else n)
    ensures r == s[..|r|]
  {
    if |s| <= n then s else s[..n]
  }

  /** Python's `s[:n]` for any integer `n`: a negative `n` drops the last `-n` items. */
  function SliceTo<T>(s: seq<T>, n: int): (r: seq<T>)
    ensures n >= 0 ==> r == Take(s, n)
    ensures n < 0 ==> r == s[..if |s| + n < 0 then 0 else |s| + n]
  {
    if n >= 0 then Take(s, n) else if |s| + n < 0 then [] else s[..|s| + n]
  }

  /** Python's `s[n:]` for any integer `n`: a negative `n` keeps the last `-n` items. */
  function SliceFrom<T>(s: seq<T>, n: int): (r: seq<T>)
    ensures n >= 0 ==> r == s[if n <= |s| then n else |s|..]
    ensures n < 0 ==> r == s[if |s| + n < 0 then 0 else |s| + n..]
  {
    if n >= 0 then (if n <= |s| then s[n..] else [])
    else if |s| + n < 0 then s else s[|s| + n..]
  }

  predicate IsDigit(c: char)
  {
    '0' <= c <= '9'
  }

  function DigitValue(c: char): nat
    requires IsDigit(c)
  {
    c as int - '0' as int
  }

  function DigitChar(d: nat): (c: char)
    requires d < 10
    ensures IsDigit(c) && DigitValue(c) == d
  {
    (d + '0' as int) as char
  }

  /** The value of a string of decimal digits (`0` for the empty string). */
  function DigitsValue(s: string): nat
    requires forall i :: 0 <= i < |s| ==> IsDigit(s[i])
  {
    if s == [] then 0 else DigitsValue(s[..|s| - 1]) * 10 + DigitValue(s[|s| - 1])
  }

  /** Python's `str(n)` for a natural number. */
  function NatToString(n: nat): (s: string)
    ensures s != [] && forall i :: 0 <= i < |s| ==> IsDigit(s[i])
  {
    if n < 10 then [DigitChar(n)] else NatToString(n / 10) + [DigitChar(n % 10)]
  }

  /** Reading back the digits of `str(n)` gives `n`. */
  lemma {:induction false} NatToStringRoundTrip(n: nat)
    ensures DigitsValue(NatToString(n)) == n
  {
    var s := NatToString(n);
    if n >= 10 {
      NatToStringRoundTrip(n / 10);
      assert s[..|s| - 1] == NatToString(n / 10);
    } else {
      assert s[..0] == [];
    }
  }
}
