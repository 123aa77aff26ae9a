/**
 * The JavaScript built-ins the two TA Instruments parsers rely on, restricted to
 * the patterns they use: character classes of regular expressions, prefix tests,
 * `String.prototype.split` on one character or on runs of whitespace, trimming
 * and `Array.prototype.filter`. Two definitions the parsers do not call stand
 * beside them: `Join`, the inverse of `Split` in the round-trip lemmas, and
 * `FirstIndex`, the first-match search a loop with `break` performs.
 */
module JsBuiltins {
  import opened Wrappers

  // ---------------------------------------------------------------------------
  // Character classes
  // ---------------------------------------------------------------------------

  /** `\s` of an ECMAScript regular expression, which is also the set of characters
      `String.prototype.trim` removes: the WhiteSpace and LineTerminator characters. */
  predicate IsJsSpace(c: char) {
    || c == ' ' || c == '\t' || c == '\n' || c == '\r' || c == '\U{000B}' || c == '\U{000C}'
    || c == '\U{00A0}' || c == '\U{1680}' || ('\U{2000}' <= c <= '\U{200A}')
    || c == '\U{2028}' || c == '\U{2029}' || c == '\U{202F}' || c == '\U{205F}'
    || c == '\U{3000}' || c == '\U{FEFF}'
  }

  /** The line terminators, the characters `.` in a regular expression does not match. */
  predicate IsLineTerminator(c: char) {
    c == '\n' || c == '\r' || c == '\U{2028}' || c == '\U{2029}'
  }

  /** The class `[ \t]`. */
  predicate IsSpaceOrTab(c: char) {
    c == ' ' || c == '\t'
  }

  predicate AllChars(s: string, p: char -> bool) {
    forall i :: 0 <= i < |s| ==> p(s[i])
  }

  /** `s.startsWith(prefix)`, and the regular expression `/^prefix/`. */
  predicate StartsWith(s: string, prefix: string) {
    |prefix| <= |s| && forall i :: 0 <= i < |prefix| ==> s[i] == prefix[i]
  }

  // ---------------------------------------------------------------------------
  // Splitting on one character, and its inverse
  // ---------------------------------------------------------------------------

  /** The pieces put back together with `sep` between them (what `parts.join(sep)`
      gives); the parsers never call it, it is the inverse of `Split`. */
  function Join(parts: seq<string>, sep: char): string {
    if parts == [] then []
    else if |parts| == 1 then parts[0]
    else parts[0] + [sep] + Join(parts[1..], sep)
  }

  /** `s.split(sep)` for a one-character separator: the pieces between the
      occurrences of `sep`, one more than there are occurrences. */
  function Split(s: string, sep: char): (parts: seq<string>)
    ensures |parts| >= 1
  {
    if s == [] then [[]]
    else
      var rest := Split(s[1..], sep);
      if s[0] == sep then [[]] + rest
      else [[s[0]] + rest[0]] + rest[1..]
  }

  /** The number of occurrences of `c` in `s`. */
  function Count(s: string, c: char): nat {
    if s == [] then 0 else (if s[0] == c then 1 else 0) + Count(s[1..], c)
  }

  /** A character occurs in a string exactly when it is counted there. */
  lemma {:induction false} CountZero(s: string, c: char)
    ensures Count(s, c) == 0 <==> c !in s
  {
    if s != [] {
      CountZero(s[1..], c);
      assert s == [s[0]] + s[1..];
    }
  }

  /** Split makes one piece more than there are separators, and no piece holds
      the separator. */
  lemma {:induction false} SplitShape(s: string, sep: char)
    ensures |Split(s, sep)| == Count(s, sep) + 1
    ensures forall i :: 0 <= i < |Split(s, sep)| ==> sep !in Split(s, sep)[i]
  {
    if s != [] {
      SplitShape(s[1..], sep);
      var rest := Split(s[1..], sep);
      if s[0] != sep {
        forall i | 0 <= i < |Split(s, sep)| ensures sep !in Split(s, sep)[i] {
          if i == 0 {
            assert Split(s, sep)[0] == [s[0]] + rest[0];
          } else {
            assert Split(s, sep)[i] == rest[i];
          }
        }
      } else {
        forall i | 0 <= i < |Split(s, sep)| ensures sep !in Split(s, sep)[i] {
          if i > 0 {
            assert Split(s, sep)[i] == rest[i - 1];
          }
        }
      }
    }
  }

  /** Join undoes Split: the pieces, put back together with the separator, are
      the original string. */
  lemma {:induction false} JoinSplit(s: string, sep: char)
    ensures Join(Split(s, sep), sep) == s
  {
    if s != [] {
      var rest := Split(s[1..], sep);
      JoinSplit(s[1..], sep);
      if s[0] == sep {
        JoinAfterEmpty(rest, sep);
      } else {
        JoinExtendFirst(s[0], rest, sep);
      }
      assert s == [s[0]] + s[1..];
    }
  }

  /** Two pieces joined. */
  lemma JoinTwo(a: string, b: string, sep: char)
    ensures Join([a, b], sep) == a + [sep] + b
  {
    assert [a, b][1..] == [b];
  }

  lemma JoinAfterEmpty(rest: seq<string>, sep: char)
    requires |rest| >= 1
    ensures Join([[]] + rest, sep) == [sep] + Join(rest, sep)
  {
    var parts := [[]] + rest;
    assert parts[1..] == rest;
    assert parts[0] == [];
  }

  lemma JoinExtendFirst(c: char, rest: seq<string>, sep: char)
    requires |rest| >= 1
    ensures Join([[c] + rest[0]] + rest[1..], sep) == [c] + Join(rest, sep)
  {
    var parts := [[c] + rest[0]] + rest[1..];
    if |rest| > 1 {
      assert parts[1..] == rest[1..];
      assert parts[0] == [c] + rest[0];
    }
  }

  /** Splitting a string that starts with a separator-free piece `a`. */
  lemma {:induction false} SplitAfterPiece(a: string, b: string, sep: char)
    requires sep !in a
    ensures Split(a + b, sep) == [a + Split(b, sep)[0]] + Split(b, sep)[1..]
  {
    if a == [] {
      var S := Split(b, sep);
      assert a + b == b;
      assert a + S[0] == S[0];
      assert [S[0]] + S[1..] == S;
    } else {
      var S := Split(b, sep);
      var ab := a + b;
      assert ab[1..] == a[1..] + b;
      assert ab[0] == a[0] && ab != [];
      SplitAfterPiece(a[1..], b, sep);
      var R := Split(ab[1..], sep);
      assert R == [a[1..] + S[0]] + S[1..];
      assert Split(ab, sep) == [[ab[0]] + R[0]] + R[1..];
      assert R[0] == a[1..] + S[0];
      assert R[1..] == S[1..];
      assert [a[0]] + (a[1..] + S[0]) == a + S[0];
    }
  }

  /** Split undoes Join: a separator-free list of pieces is recovered exactly. */
  lemma {:induction false} SplitJoin(parts: seq<string>, sep: char)
    requires |parts| >= 1
    requires forall i :: 0 <= i < |parts| ==> sep !in parts[i]
    ensures Split(Join(parts, sep), sep) == parts
  {
    if |parts| == 1 {
      SplitAfterPiece(parts[0], [], sep);
      assert parts[0] + [] == parts[0];
    } else {
      var tail := Join(parts[1..], sep);
      SplitJoin(parts[1..], sep);
      assert ([sep] + tail)[1..] == tail;
      assert Split([sep] + tail, sep) == [[]] + parts[1..];
      assert Join(parts, sep) == parts[0] + ([sep] + tail);
      SplitAfterPiece(parts[0], [sep] + tail, sep);
      assert parts[0] + [] == parts[0];
    }
  }

  // ---------------------------------------------------------------------------
  // Trimming
  // ---------------------------------------------------------------------------

  /** The string without its leading `blank` characters. */
  function TrimStart(s: string, blank: char -> bool): (r: string)
    ensures |r| <= |s| && r == s[|s| - |r|..]
    ensures AllChars(s[..|s| - |r|], blank)
    ensures r == [] || !blank(r[0])
  {
    if s != [] && blank(s[0]) then
      var r := TrimStart(s[1..], blank);
      var k := |s| - |r|;
      assert forall i :: 1 <= i < k ==> s[..k][i] == s[1..][..k - 1][i - 1];
      r
    else s
  }

  /** The string without its trailing `blank` characters. */
  function TrimEnd(s: string, blank: char -> bool): (r: string)
    ensures |r| <= |s| && r == s[..|r|]
    ensures AllChars(s[|r|..], blank)
    ensures r == [] || !blank(r[|r| - 1])
  {
    if s != [] && blank(s[|s| - 1]) then
      var r := TrimEnd(s[..|s| - 1], blank);
      assert s[|r|..] == s[..|s| - 1][|r|..] + [s[|s| - 1]];
      r
    else s
  }

  /** The string without its leading and trailing `blank` characters: it is the
      string less a blank prefix and a blank suffix, and it neither starts nor
      ends with a blank character. */
  function Trim(s: string, blank: char -> bool): (r: string)
    ensures |r| <= |s|
    ensures r == [] || (!blank(r[0]) && !blank(r[|r| - 1]))
    ensures exists k :: 0 <= k <= |s| - |r| && s[k..][..|r|] == r
                        && AllChars(s[..k], blank) && AllChars(s[k..][|r|..], blank)
  {
    var t := TrimStart(s, blank);
    var r := TrimEnd(t, blank);
    var k := |s| - |t|;
    assert s[k..] == t;
    r
  }

  /** Trimming removes exactly the blank padding: the trimmed core of a padded
      string is recovered, whatever the padding. */
  lemma TrimOfPadded(a: string, m: string, b: string, blank: char -> bool)
    requires AllChars(a, blank) && AllChars(b, blank)
    requires m == [] || (!blank(m[0]) && !blank(m[|m| - 1]))
    ensures Trim(a + m + b, blank) == m
  {
    if m == [] {
      assert a + m + b == (a + b) + [];
      TrimStartPast(a + b, [], blank);
    } else {
      assert a + m + b == a + (m + b);
      TrimStartPast(a, m + b, blank);
      TrimEndPast(m, b, blank);
    }
  }

  lemma {:induction false} TrimStartPast(a: string, t: string, blank: char -> bool)
    requires AllChars(a, blank)
    requires t == [] || !blank(t[0])
    ensures TrimStart(a + t, blank) == t
  {
    if a == [] {
      assert a + t == t;
    } else {
      assert (a + t)[1..] == a[1..] + t;
      TrimStartPast(a[1..], t, blank);
    }
  }

  lemma {:induction false} TrimEndPast(m: string, b: string, blank: char -> bool)
    requires AllChars(b, blank)
    requires m != [] && !blank(m[|m| - 1])
    ensures TrimEnd(m + b, blank) == m
  {
    if b == [] {
      assert m + b == m;
    } else {
      var b' := b[..|b| - 1];
      assert (m + b)[..|m + b| - 1] == m + b';
      TrimEndPast(m, b', blank);
    }
  }

  /** `s.trim()`. */
  function JsTrim(s: string): (r: string)
    ensures |r| <= |s|
    ensures r == [] || (!IsJsSpace(r[0]) && !IsJsSpace(r[|r| - 1]))
    ensures exists k :: 0 <= k <= |s| - |r| && s[k..][..|r|] == r
                        && AllChars(s[..k], IsJsSpace) && AllChars(s[k..][|r|..], IsJsSpace)
  {
    Trim(s, IsJsSpace)
  }

  // ---------------------------------------------------------------------------
  // Splitting on runs of whitespace
  // ---------------------------------------------------------------------------

  /** `s.split(/\s+/)`: the pieces between maximal runs of whitespace; a leading
      run gives an empty first piece and a trailing run an empty last piece. */
  function SplitWhitespace(s: string): (fields: seq<string>)
    ensures |fields| >= 1
    ensures forall i :: 0 <= i < |fields| ==> !exists j :: 0 <= j < |fields[i]| && IsJsSpace(fields[i][j])
  {
    if s == [] then [[]]
    else
      var rest := SplitWhitespace(s[1..]);
      if !IsJsSpace(s[0]) then [[s[0]] + rest[0]] + rest[1..]
      else if |s| > 1 && IsJsSpace(s[1]) then rest
      else [[]] + rest
  }

  /** The string with every maximal run of whitespace replaced by one space. */
  function Squeeze(s: string): string {
    if s == [] then []
    else if IsJsSpace(s[0]) && |s| > 1 && IsJsSpace(s[1]) then Squeeze(s[1..])
    else [if IsJsSpace(s[0]) then ' ' else s[0]] + Squeeze(s[1..])
  }

  /** Splitting on whitespace runs is splitting on single spaces once every run
      has been squeezed to one space. */
  lemma {:induction false} SplitWhitespaceIsSplitOfSqueezed(s: string)
    ensures SplitWhitespace(s) == Split(Squeeze(s), ' ')
  {
    if s != [] {
      SplitWhitespaceIsSplitOfSqueezed(s[1..]);
      var q := Squeeze(s[1..]);
      if !IsJsSpace(s[0]) {
        assert ([s[0]] + q)[1..] == q;
      } else if !(|s| > 1 && IsJsSpace(s[1])) {
        assert ([' '] + q)[1..] == q;
      }
    }
  }

  // ---------------------------------------------------------------------------
  // Arrays
  // ---------------------------------------------------------------------------

  /** `s.filter(keep)`. */
  function Filter<T>(s: seq<T>, keep: T -> bool): (r: seq<T>)
    ensures |r| <= |s|
  {
    if s == [] then []
    else (if keep(s[0]) then [s[0]] else []) + Filter(s[1..], keep)
  }

  /** Filtering keeps the order: the survivors of a concatenation are the
      survivors of its first part followed by those of its second. */
  lemma {:induction false} FilterAppend<T>(a: seq<T>, b: seq<T>, keep: T -> bool)
    ensures Filter(a + b, keep) == Filter(a, keep) + Filter(b, keep)
  {
    if a == [] {
      assert a + b == b;
    } else {
      var ab := a + b;
      assert ab[0] == a[0] && ab[1..] == a[1..] + b;
      FilterAppend(a[1..], b, keep);
      var head := if keep(a[0]) then [a[0]] else [];
      assert Filter(ab, keep) == head + Filter(a[1..] + b, keep);
      assert Filter(a, keep) == head + Filter(a[1..], keep);
    }
  }

  /** Filtering drops every occurrence of a rejected element and no occurrence of
      a kept one. */
  lemma {:induction false} FilterMultiplicity<T>(s: seq<T>, keep: T -> bool, x: T)
    ensures multiset(Filter(s, keep))[x] == if keep(x) then multiset(s)[x] else 0
  {
    if s != [] {
      FilterMultiplicity(s[1..], keep, x);
      assert s == [s[0]] + s[1..];
      assert multiset(s) == multiset([s[0]]) + multiset(s[1..]);
      assert Filter(s, keep) == (if keep(s[0]) then [s[0]] else []) + Filter(s[1..], keep);
    }
  }

  /** Every survivor passes the test. */
  lemma {:induction false} FilterAllKept<T>(s: seq<T>, keep: T -> bool)
    ensures forall i :: 0 <= i < |Filter(s, keep)| ==> keep(Filter(s, keep)[i])
  {
    if s != [] {
      FilterAllKept(s[1..], keep);
      var head, rest := (if keep(s[0]) then [s[0]] else []), Filter(s[1..], keep);
      assert Filter(s, keep) == head + rest;
      forall i | 0 <= i < |head + rest| ensures keep((head + rest)[i]) {
        if i >= |head| {
          assert (head + rest)[i] == rest[i - |head|];
        }
      }
    }
  }

  /** The index of the first element of `s` that passes `p`, or `None`: the
      search a loop over `s` performs when it stops with `break` at the first
      such element. */
  function FirstIndex<T>(s: seq<T>, p: T -> bool): (r: Option<nat>)
    ensures r.Some? ==> r.value < |s| && p(s[r.value]) && forall j :: 0 <= j < r.value ==> !p(s[j])
    ensures r.None? ==> forall j :: 0 <= j < |s| ==> !p(s[j])
  {
    if s == [] then None
    else if p(s[0]) then Some(0)
    else match FirstIndex(s[1..], p)
      case None => None
      case Some(k) => Some(k + 1)
  }

  /** The first index is the one index before which nothing satisfies `p`. */
  lemma FirstIndexAt<T>(s: seq<T>, p: T -> bool, i: nat)
    requires i < |s| && p(s[i])
    requires forall j :: 0 <= j < i ==> !p(s[j])
    ensures FirstIndex(s, p) == Some(i)
  {
  }

  /** If nothing before `i` satisfies `p`, the first index is not before `i`. */
  lemma FirstIndexNotBefore<T>(s: seq<T>, p: T -> bool, i: nat)
    requires i <= |s|
    requires forall j :: 0 <= j < i ==> !p(s[j])
    ensures FirstIndex(s, p).None? || FirstIndex(s, p).value >= i
  {
  }
}
