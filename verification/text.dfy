/**
 * The handful of Python `str` operations that the importer and the screener
 * rely on: `upper`, `strip`, `split(sep)`, `splitlines`, `startswith`, the
 * substring test `k in s`, and `list.index`.
 */
module Text {

  /** `c.upper()` for one character; only the ASCII letters change. */
  function UpperChar(c: char): char {
    if 'a' <= c <= 'z' then (c as int - 32) as char else c
  }

  /** `s.upper()`: every character upper-cased, length unchanged. */
  function Upper(s: string): (r: string)
    ensures |r| == |s|
    ensures forall i :: 0 <= i < |s| ==> r[i] == UpperChar(s[i])
  {
    if s == [] then [] else [UpperChar(s[0])] + Upper(s[1..])
  }

  /** Upper-casing twice is upper-casing once: the result of `upper()` is upper-case. */
  lemma UpperIdempotent(s: string)
    ensures Upper(Upper(s)) == Upper(s)
  {
    assert forall i :: 0 <= i < |s| ==> Upper(Upper(s))[i] == Upper(s)[i];
  }

  /** The characters `str.isspace` accepts in the Latin-1 range. */
  predicate IsSpace(c: char) {
    c == ' ' || '\t' <= c <= '\r' || '\U{1C}' <= c <= '\U{1F}' || c == '\U{85}' || c == '\U{A0}'
  }

  function TrimStart(s: string): (r: string)
    ensures |r| <= |s| && r == s[|s| - |r|..]
    ensures forall i :: 0 <= i < |s| - |r| ==> IsSpace(s[i])
    ensures r == [] || !IsSpace(r[0])
  {
    if s != [] && IsSpace(s[0]) then TrimStart(s[1..]) else s
  }

  function TrimEnd(s: string): (r: string)
    ensures |r| <= |s| && r == s[..|r|]
    ensures forall i :: |r| <= i < |s| ==> IsSpace(s[i])
    ensures r == [] || !IsSpace(r[|r| - 1])
  {
    if s != [] && IsSpace(s[|s| - 1]) then TrimEnd(s[..|s| - 1]) else s
  }

  /**
   * `s.strip()`: no whitespace is left at either end, and the result is
   * empty exactly when `s` is nothing but whitespace.
   */
  function Strip(s: string): (r: string)
    ensures |r| <= |s|
    ensures r == [] || (!IsSpace(r[0]) && !IsSpace(r[|r| - 1]))
    ensures r == [] <==> forall i :: 0 <= i < |s| ==> IsSpace(s[i])
  {
    var t := TrimStart(s);
    assert t != [] ==> t[0] == s[|s| - |t|];
    TrimEnd(t)
  }

  /** `xs.index(x)`: the position of the first occurrence of `x`. */
  function IndexOf<T(==)>(xs: seq<T>, x: T): (i: nat)
    requires x in xs
    ensures i < |xs| && xs[i] == x && x !in xs[..i]
  {
    if xs[0] == x then 0
    else
      assert xs == [xs[0]] + xs[1..];
      1 + IndexOf(xs[1..], x)
  }

  /** `s.split(sep)` for a one-character separator: never an empty list. */
  function Split(s: string, sep: char): (parts: seq<string>)
    ensures |parts| >= 1
    decreases |s|
  {
    if sep in s then
      var i := IndexOf(s, sep);
      [s[..i]] + Split(s[i + 1..], sep)
    else
      [s]
  }

  /** No part of a split holds the separator. */
  lemma {:induction false} SplitParts(s: string, sep: char)
    ensures forall p :: p in Split(s, sep) ==> sep !in p
    decreases |s|
  {
    if sep in s {
      var i := IndexOf(s, sep);
      SplitParts(s[i + 1..], sep);
      assert Split(s, sep) == [s[..i]] + Split(s[i + 1..], sep);
    }
  }

  /** `sep.join(parts)` */
  function Join(parts: seq<string>, sep: char): string {
    if parts == [] then []
    else if |parts| == 1 then parts[0]
    else parts[0] + [sep] + Join(parts[1..], sep)
  }

  /** Joining a part in front of a non-empty list puts a separator between them. */
  lemma JoinCons(a: string, tail: seq<string>, sep: char)
    requires tail != []
    ensures Join([a] + tail, sep) == a + [sep] + Join(tail, sep)
  {
    assert ([a] + tail)[1..] == tail;
  }

  /** Cutting `s` around position `i` and gluing the pieces back gives `s`. */
  lemma CutAround<T>(s: seq<T>, i: nat)
    requires i < |s|
    ensures s[..i] + [s[i]] + s[i + 1..] == s
  {
  }

  /** Splitting and joining again gives back the original text. */
  lemma {:induction false} JoinSplit(s: string, sep: char)
    ensures Join(Split(s, sep), sep) == s
    decreases |s|
  {
    if sep in s {
      var i := IndexOf(s, sep);
      var head, rest := s[..i], s[i + 1..];
      var tail := Split(rest, sep);
      JoinSplit(rest, sep);
      JoinCons(head, tail, sep);
      CutAround(s, i);
      calc {
        Join(Split(s, sep), sep);
        Join([head] + tail, sep);
        head + [sep] + Join(tail, sep);
        head + [sep] + rest;
        s;
      }
    }
  }

  /** The line boundaries of `str.splitlines`. */
  predicate IsLineBreak(c: char) {
    c == '\n' || c == '\r' || c == '\U{B}' || c == '\U{C}' || '\U{1C}' <= c <= '\U{1E}'
    || c == '\U{85}' || c == '\U{2028}' || c == '\U{2029}'
  }

  /** The index of the first line boundary in `s`, or `|s|` when there is none. */
  function LineEnd(s: string): (i: nat)
    ensures i <= |s|
    ensures i < |s| ==> IsLineBreak(s[i])
    ensures forall k :: 0 <= k < i ==> !IsLineBreak(s[k])
  {
    if s == [] || IsLineBreak(s[0]) then 0 else 1 + LineEnd(s[1..])
  }

  /** Where the first line of a text with a boundary at `i` ends and the next one starts. */
  function NextLine(s: string, i: nat): (next: nat)
    requires i < |s|
    ensures i < next <= |s|
  {
    if s[i] == '\r' && i + 1 < |s| && s[i + 1] == '\n' then i + 2 else i + 1
  }

  /**
   * `s.splitlines()`: the lines of `s` without their boundaries ("\r\n" counts
   * as one); no line is produced after a final boundary, and "" has no lines.
   */
  function SplitLines(s: string): (lines: seq<string>)
    ensures lines == [] <==> s == []
    ensures |lines| <= |s|
    decreases |s|
  {
    if s == [] then []
    else
      var i := LineEnd(s);
      if i == |s| then [s]
      else
        [s[..i]] + SplitLines(s[NextLine(s, i)..])
  }

  /** No line of `splitlines` holds a boundary character. */
  lemma {:induction false} SplitLinesNoBreaks(s: string)
    ensures forall l :: l in SplitLines(s) ==> forall c :: c in l ==> !IsLineBreak(c)
    decreases |s|
  {
    if s != [] {
      var i := LineEnd(s);
      if i < |s| {
        SplitLinesNoBreaks(s[NextLine(s, i)..]);
      }
    }
  }

  /** `s` with every line boundary character removed. */
  function RemoveBreaks(s: string): string {
    if s == [] then [] else (if IsLineBreak(s[0]) then [] else [s[0]]) + RemoveBreaks(s[1..])
  }

  /** The lines put back together, without separators. */
  function Concat(lines: seq<string>): string {
    if lines == [] then [] else lines[0] + Concat(lines[1..])
  }

  /** The number of line boundaries in `s`, a "\r\n" pair counting once. */
  function Boundaries(s: string): nat
    decreases |s|
  {
    if s == [] then 0
    else if s[0] == '\r' && |s| > 1 && s[1] == '\n' then 1 + Boundaries(s[2..])
    else (if IsLineBreak(s[0]) then 1 else 0) + Boundaries(s[1..])
  }

  /** `s` has a last line that no boundary ends. */
  predicate EndsOpen(s: string) {
    s != [] && !IsLineBreak(s[|s| - 1])
  }

  lemma {:induction false} RemoveBreaksAppend(a: string, b: string)
    ensures RemoveBreaks(a + b) == RemoveBreaks(a) + RemoveBreaks(b)
  {
    if a != [] {
      RemoveBreaksAppend(a[1..], b);
      assert (a + b)[1..] == a[1..] + b;
    } else {
      assert a + b == b;
    }
  }

  lemma {:induction false} RemoveBreaksClean(a: string)
    requires forall k :: 0 <= k < |a| ==> !IsLineBreak(a[k])
    ensures RemoveBreaks(a) == a
  {
    if a != [] {
      RemoveBreaksClean(a[1..]);
    }
  }

  /** A prefix without boundaries adds no boundary. */
  lemma {:induction false} BoundariesClean(a: string, b: string)
    requires forall k :: 0 <= k < |a| ==> !IsLineBreak(a[k])
    ensures Boundaries(a + b) == Boundaries(b)
    decreases |a|
  {
    if a != [] {
      assert (a + b)[0] == a[0] && (a + b)[1..] == a[1..] + b;
      BoundariesClean(a[1..], b);
    } else {
      assert a + b == b;
    }
  }

  /** The boundary at `i` holds only boundary characters and counts once. */
  lemma {:induction false} BoundaryAt(s: string, i: nat)
    requires i < |s| && IsLineBreak(s[i])
    ensures RemoveBreaks(s[i..NextLine(s, i)]) == []
    ensures Boundaries(s[i..]) == 1 + Boundaries(s[NextLine(s, i)..])
  {
    var next := NextLine(s, i);
    var sep := s[i..next];
    var t := s[i..];
    if next == i + 2 {
      assert sep[1..] == [s[i + 1]] && [s[i + 1]][1..] == [];
      assert RemoveBreaks(sep) == RemoveBreaks(sep[1..]);
      assert t[0] == '\r' && |t| > 1 && t[1] == '\n';
      assert t[2..] == s[next..];
      assert Boundaries(t) == 1 + Boundaries(t[2..]);
    } else {
      assert sep[1..] == [];
      assert t[1..] == s[next..];
      assert !(t[0] == '\r' && |t| > 1 && t[1] == '\n');
    }
  }

  /** Removing boundaries piece by piece around a cut at `i` and `next`. */
  lemma {:induction false} RemoveBreaksAround(s: string, i: nat, next: nat)
    requires i <= next <= |s|
    ensures RemoveBreaks(s) == RemoveBreaks(s[..i]) + (RemoveBreaks(s[i..next]) + RemoveBreaks(s[next..]))
  {
    var a, b, c := s[..i], s[i..next], s[next..];
    calc {
      RemoveBreaks(s);
      { assert s == a + (b + c); }
      RemoveBreaks(a + (b + c));
      { RemoveBreaksAppend(a, b + c); }
      RemoveBreaks(a) + RemoveBreaks(b + c);
      { RemoveBreaksAppend(b, c); }
      RemoveBreaks(a) + (RemoveBreaks(b) + RemoveBreaks(c));
    }
  }

  /** Concatenating lines with one more in front. */
  lemma {:induction false} ConcatCons(head: string, lines: seq<string>)
    ensures Concat([head] + lines) == head + Concat(lines)
  {
    assert ([head] + lines)[1..] == lines;
  }

  /** `splitlines` loses only the boundaries: the lines put together are `s` without its boundary characters. */
  lemma {:induction false} SplitLinesConcat(s: string)
    ensures Concat(SplitLines(s)) == RemoveBreaks(s)
    decreases |s|
  {
    if s != [] {
      var i := LineEnd(s);
      var head := s[..i];
      RemoveBreaksClean(head);
      if i == |s| {
        assert head == s;
        ConcatCons(s, []);
        assert s + [] == s;
      } else {
        var next := NextLine(s, i);
        var rest := s[next..];
        SplitLinesConcat(rest);
        BoundaryAt(s, i);
        RemoveBreaksAround(s, i, next);
        ConcatCons(head, SplitLines(rest));
        assert [] + RemoveBreaks(rest) == RemoveBreaks(rest);
      }
    }
  }

  /** A first boundary at `i` is the first one counted. */
  lemma {:induction false} BoundariesAt(s: string, i: nat)
    requires i < |s| && IsLineBreak(s[i])
    requires forall k :: 0 <= k < i ==> !IsLineBreak(s[k])
    ensures Boundaries(s) == 1 + Boundaries(s[NextLine(s, i)..])
  {
    assert s == s[..i] + s[i..];
    BoundariesClean(s[..i], s[i..]);
    BoundaryAt(s, i);
  }

  /** Whether the text ends open is decided after the boundary at `i`. */
  lemma {:induction false} EndsOpenAfter(s: string, i: nat)
    requires i < |s| && IsLineBreak(s[i])
    ensures EndsOpen(s) == EndsOpen(s[NextLine(s, i)..])
  {
    var next := NextLine(s, i);
    var rest := s[next..];
    if rest != [] {
      assert s[|s| - 1] == rest[|rest| - 1];
    } else {
      assert IsLineBreak(s[next - 1]);
    }
  }

  /**
   * One line per boundary ("\r\n" counting once), plus one for a last line
   * that no boundary ends.
   */
  lemma {:induction false} SplitLinesCount(s: string)
    ensures |SplitLines(s)| == Boundaries(s) + (if EndsOpen(s) then 1 else 0)
    decreases |s|
  {
    if s != [] {
      var i := LineEnd(s);
      if i == |s| {
        assert s + [] == s;
        BoundariesClean(s, []);
      } else {
        var rest := s[NextLine(s, i)..];
        SplitLinesCount(rest);
        BoundariesAt(s, i);
        EndsOpenAfter(s, i);
      }
    }
  }

  /** `s.startswith(p)` */
  predicate StartsWith(s: string, p: string) {
    |p| <= |s| && s[..|p|] == p
  }

  /** `k` occurs in `s` starting at position `i`. */
  predicate OccursAt(s: string, k: string, i: nat) {
    i + |k| <= |s| && s[i..i + |k|] == k
  }

  /** `k in s`, Python's substring test, scanning from the left. */
  predicate Contains(s: string, k: string)
    decreases |s|
  {
    StartsWith(s, k) || (s != [] && Contains(s[1..], k))
  }

  /** The scan finds `k` exactly when `k` occurs somewhere in `s`. */
  lemma {:induction false} ContainsOccurs(s: string, k: string)
    ensures Contains(s, k) <==> exists i: nat :: OccursAt(s, k, i)
    decreases |s|
  {
    if s != [] {
      ContainsOccurs(s[1..], k);
      if StartsWith(s, k) {
        assert OccursAt(s, k, 0);
      }
      if Contains(s[1..], k) {
        var i: nat :| OccursAt(s[1..], k, i);
        assert OccursAt(s, k, i + 1);
      }
      if !StartsWith(s, k) && exists i: nat :: OccursAt(s, k, i) {
        var i: nat :| OccursAt(s, k, i);
        assert i > 0;
        assert OccursAt(s[1..], k, i - 1);
      }
    } else {
      if k == [] {
        assert OccursAt(s, k, 0);
      }
      if exists i: nat :: OccursAt(s, k, i) {
        var i: nat :| OccursAt(s, k, i);
        assert k == [];
      }
    }
  }
}
