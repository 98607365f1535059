/**
 * The few JavaScript string operations the client relies on:
 * `includes`, `startsWith`, `split('/')` and `trim`.
 */
module Strings {

  /** `s.includes(sub)`: `sub` occurs somewhere in `s`. */
  predicate Contains(s: string, sub: string)
    decreases |s|
  {
    sub <= s || (|s| > 0 && Contains(s[1..], sub))
  }

  /** `Contains` agrees with the positional definition of an occurrence. */
  lemma {:induction false} ContainsAt(s: string, sub: string)
    ensures Contains(s, sub) <==> exists i :: 0 <= i <= |s| && sub <= s[i..]
    decreases |s|
  {
    if sub <= s {
      assert s[0..] == s;
    } else if |s| == 0 {
      forall i | 0 <= i <= |s| ensures !(sub <= s[i..]) {
        assert s[i..] == s;
      }
    } else {
      ContainsAt(s[1..], sub);
      if Contains(s[1..], sub) {
        var j :| 0 <= j <= |s[1..]| && sub <= s[1..][j..];
        assert s[1..][j..] == s[j + 1..];
      }
      if exists i :: 0 <= i <= |s| && sub <= s[i..] {
        var i :| 0 <= i <= |s| && sub <= s[i..];
        assert i != 0 by { assert s[0..] == s; }
        assert s[i..] == s[1..][i - 1..];
      }
    }
  }

  /** `s.split(sep)` for a one-character separator. */
  function Split(s: string, sep: char): (parts: seq<string>)
    ensures |parts| >= 1
    ensures forall k :: 0 <= k < |parts| ==> sep !in parts[k]
    decreases |s|
  {
    if s == [] then [""]
    else
      var rest := Split(s[1..], sep);
      if s[0] == sep then [""] + rest
      else [[s[0]] + rest[0]] + rest[1..]
  }

  /** `parts.join(sep)`. */
  function Join(parts: seq<string>, sep: char): string
    requires |parts| >= 1
    decreases |parts|
  {
    if |parts| == 1 then parts[0] else parts[0] + [sep] + Join(parts[1..], sep)
  }

  /** Splitting loses nothing: joining the parts gives the string back. */
  lemma {:induction false} JoinSplit(s: string, sep: char)
    ensures Join(Split(s, sep), sep) == s
    decreases |s|
  {
    if s != [] {
      var rest := Split(s[1..], sep);
      JoinSplit(s[1..], sep);
      if s[0] == sep {
        assert Split(s, sep)[1..] == rest;
      } else if |rest| == 1 {
        assert Split(s, sep) == [[s[0]] + rest[0]];
      } else {
        var parts := Split(s, sep);
        assert parts[1..] == rest[1..];
        assert Join(rest, sep) == rest[0] + [sep] + Join(rest[1..], sep);
      }
    }
  }

  /** A string that splits into several parts holds the separator. */
  lemma {:induction false} SeveralPartsHaveSeparator(s: string, sep: char)
    ensures |Split(s, sep)| > 1 ==> sep in s
    decreases |s|
  {
    if s != [] && s[0] != sep {
      SeveralPartsHaveSeparator(s[1..], sep);
      if |Split(s, sep)| > 1 {
        assert sep in s[1..];
      }
    }
  }

  /** `s.split(sep)` read at its last index, `parts[parts.length - 1]`. */
  function LastSegment(s: string, sep: char): string
  {
    var parts := Split(s, sep);
    parts[|parts| - 1]
  }

  /** One step of `LastSegment`: a first character that is not a separator belongs to the last segment only when no separator follows. */
  lemma {:induction false} LastSegmentStep(s: string, sep: char)
    requires s != []
    ensures LastSegment(s, sep) ==
      if s[0] != sep && |Split(s[1..], sep)| == 1 then s else LastSegment(s[1..], sep)
  {
    var rest := Split(s[1..], sep);
    if s[0] != sep && |rest| == 1 {
      JoinSplit(s[1..], sep);
      assert Split(s, sep) == [[s[0]] + rest[0]];
      assert [s[0]] + s[1..] == s;
    }
  }

  /**
   * The last segment is the part of `s` after its last separator: a suffix
   * of `s` that holds no separator and is either all of `s` or preceded by one.
   */
  lemma {:induction false} LastSegmentIsTail(s: string, sep: char)
    ensures var last := LastSegment(s, sep);
      && |last| <= |s|
      && s[|s| - |last|..] == last
      && sep !in last
      && (|last| < |s| ==> s[|s| - |last| - 1] == sep)
    decreases |s|
  {
    if s != [] {
      LastSegmentIsTail(s[1..], sep);
      LastSegmentStep(s, sep);
      var last := LastSegment(s, sep);
      if !(s[0] != sep && |Split(s[1..], sep)| == 1) {
        assert s[1..][|s| - 1 - |last|..] == s[|s| - |last|..];
        SeveralPartsHaveSeparator(s[1..], sep);
      }
    }
  }

  /** The last segment after an appended separator is exactly what was appended after it. */
  lemma {:induction false} LastSegmentAfter(a: string, b: string, sep: char)
    requires sep !in b
    ensures LastSegment(a + [sep] + b, sep) == b
  {
    var s := a + [sep] + b;
    var last := LastSegment(s, sep);
    LastSegmentIsTail(s, sep);
    assert s[|a|] == sep;
    assert forall j :: |s| - |last| <= j < |s| ==> s[j] == last[j - (|s| - |last|)];
    assert forall j :: |a| < j < |s| ==> s[j] == b[j - |a| - 1];
    assert s[|s| - |b|..] == b;
  }

  /** The characters that `String.prototype.trim` removes (white space and line terminators). */
  predicate IsSpace(c: char)
  {
    c == ' ' || c == '\t' || c == '\n' || c == '\r' || c == '\U{B}' || c == '\U{C}'
    || c == '\U{A0}' || c == '\U{1680}' || ('\U{2000}' <= c <= '\U{200A}')
    || c == '\U{2028}' || c == '\U{2029}' || c == '\U{202F}' || c == '\U{205F}'
    || c == '\U{3000}' || c == '\U{FEFF}'
  }

  function TrimStart(s: string): (r: string)
    ensures |r| <= |s| && r == s[|s| - |r|..]
    ensures forall k :: 0 <= k < |s| - |r| ==> IsSpace(s[k])
    ensures r != [] ==> !IsSpace(r[0])
    decreases |s|
  {
    if s != [] && IsSpace(s[0]) then TrimStart(s[1..]) else s
  }

  function TrimEnd(s: string): (r: string)
    ensures |r| <= |s| && r == s[..|r|]
    ensures forall k :: |r| <= k < |s| ==> IsSpace(s[k])
    ensures r != [] ==> !IsSpace(r[|r| - 1])
    decreases |s|
  {
    if s != [] && IsSpace(s[|s| - 1]) then TrimEnd(s[..|s| - 1]) else s
  }

  /**
   * `s.trim()`: the piece of `s` left once leading and trailing white space
   * is removed; it neither starts nor ends with white space, and a string
   * without white space is its own trim. `TrimIsSlice` states which piece.
   */
  function Trim(s: string): (r: string)
    ensures |r| <= |s|
    ensures r != [] ==> !IsSpace(r[0]) && !IsSpace(r[|r| - 1])
    ensures (forall k :: 0 <= k < |s| ==> !IsSpace(s[k])) ==> r == s
    ensures (forall k :: 0 <= k < |s| ==> IsSpace(s[k])) ==> r == []
  {
    var front := TrimStart(s);
    var r := TrimEnd(front);
    assert r != [] ==> r[0] == front[0];
    assert front != [] ==> front[0] == s[|s| - |front|];
    assert |front| == |s| ==> front == s;
    assert |r| == |front| ==> r == front;
    r
  }

  /** How many white-space characters `trim` removes from the front of `s`. */
  function Indent(s: string): (n: nat)
    ensures n <= |s| && TrimStart(s) == s[n..]
    ensures forall k :: 0 <= k < n ==> IsSpace(s[k])
  {
    |s| - |TrimStart(s)|
  }

  /**
   * The trim of `s` is the slice of `s` that starts after the leading white
   * space and is followed only by white space.
   */
  lemma TrimIsSlice(s: string)
    ensures var r := Trim(s); var i := Indent(s);
      && i + |r| <= |s| && r == s[i..i + |r|]
      && (forall k :: 0 <= k < i ==> IsSpace(s[k]))
      && (forall k :: i + |r| <= k < |s| ==> IsSpace(s[k]))
  {
    var front := TrimStart(s);
    var r := TrimEnd(front);
    assert Trim(s) == r && Indent(s) == |s| - |front|;
    PrefixOfSuffix(s, front, r);
    TrailingSpace(s);
  }

  /** What `TrimEnd` drops from the end of `TrimStart(s)` is white space at the end of `s`. */
  lemma TrailingSpace(s: string)
    ensures var front := TrimStart(s); var i := |s| - |front|;
      forall k :: i + |TrimEnd(front)| <= k < |s| ==> IsSpace(s[k])
  {
    var front := TrimStart(s);
    var i := |s| - |front|;
    forall k | i + |TrimEnd(front)| <= k < |s|
      ensures IsSpace(s[k])
    {
      assert s[k] == front[k - i];
    }
  }

  /** A prefix `r` of a suffix `front` of `s` is a slice of `s`, followed in `s` by the rest of `front`. */
  lemma PrefixOfSuffix<T>(s: seq<T>, front: seq<T>, r: seq<T>)
    requires |front| <= |s| && front == s[|s| - |front|..]
    requires |r| <= |front| && r == front[..|r|]
    ensures var i := |s| - |front|;
      && i + |r| <= |s| && r == s[i..i + |r|]
      && forall k :: i + |r| <= k < |s| ==> s[k] == front[k - i]
  {
  }

  /** The decimal text of an integer, as a JSON number is written. */
  function Decimal(n: int): string
    decreases if n < 0 then 1 - n else n
  {
    if n < 0 then "-" + Decimal(-n)
    else if n < 10 then ["0123456789"[n]]
    else Decimal(n / 10) + ["0123456789"[n % 10]]
  }
}
