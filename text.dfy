/** String operations with the meaning JavaScript gives them, as far as this
    model needs them: `toLowerCase` (restricted to ASCII letters), `includes`,
    `trim` (over ECMAScript's fixed white-space set) and `split` on one
    separator character, together with `join`, its inverse. */
module Text {

  /** ECMAScript WhiteSpace and LineTerminator code points: what `trim` removes. */
  predicate IsSpace(c: char) {
    || c == ' ' || c == '\t' || c == '\n' || c == '\r' || c == '\U{B}' || c == '\U{C}'
    || c == '\U{A0}' || c == '\U{1680}' || ('\U{2000}' <= c <= '\U{200A}')
    || c == '\U{2028}' || c == '\U{2029}' || c == '\U{202F}' || c == '\U{205F}'
    || c == '\U{3000}' || c == '\U{FEFF}'
  }

  predicate IsUpper(c: char) {
    'A' <= c <= 'Z'
  }

  function LowerChar(c: char): (d: char)
    ensures !IsUpper(d)
    ensures !IsUpper(c) ==> d == c
  {
    if IsUpper(c) then (c as int + 32) as char else c
  }

  /** `toLowerCase`, on ASCII letters only. */
  function Lower(s: string): (r: string)
    ensures |r| == |s|
    ensures forall i :: 0 <= i < |s| ==> r[i] == LowerChar(s[i])
  {
    seq(|s|, i requires 0 <= i < |s| => LowerChar(s[i]))
  }

  /** `needle` occurs in `s` starting at index `i`. */
  ghost predicate OccursAt(s: string, needle: string, i: int) {
    0 <= i && i + |needle| <= |s| && s[i..i + |needle|] == needle
  }

  lemma ShiftOccurrence(s: string, needle: string)
    requires s != []
    ensures forall i :: 0 <= i ==> (OccursAt(s[1..], needle, i) <==> OccursAt(s, needle, i + 1))
  {
    forall i | 0 <= i
      ensures OccursAt(s[1..], needle, i) <==> OccursAt(s, needle, i + 1)
    {
      if 0 <= i && i + |needle| <= |s| - 1 {
        assert s[1..][i..i + |needle|] == s[i + 1..i + 1 + |needle|];
      }
    }
  }

  /** `s.includes(needle)`: some window of `s` equals `needle`; the empty
      string occurs in every string. */
  function Contains(s: string, needle: string): (b: bool)
    ensures b <==> exists i :: OccursAt(s, needle, i)
    decreases |s|
  {
    if |needle| <= |s| && s[..|needle|] == needle then
      assert OccursAt(s, needle, 0);
      true
    else if s == [] then
      false
    else
      ShiftOccurrence(s, needle);
      assert !OccursAt(s, needle, 0);
      assert forall i :: OccursAt(s, needle, i) ==> i == 0 || OccursAt(s[1..], needle, i - 1);
      Contains(s[1..], needle)
  }

  /** `needle` found at a given index is contained. */
  lemma ContainsAt(s: string, needle: string, i: int)
    requires OccursAt(s, needle, i)
    ensures Contains(s, needle)
  {
  }

  /** Every string contains itself, so two equal strings match each other. */
  lemma ContainsSelf(s: string)
    ensures Contains(s, s)
  {
    assert OccursAt(s, s, 0);
  }

  /** Number of white-space characters at the front of `s`. */
  function LeadingSpace(s: string): (n: nat)
    ensures n <= |s|
    ensures forall k :: 0 <= k < n ==> IsSpace(s[k])
    ensures n < |s| ==> !IsSpace(s[n])
  {
    if s != [] && IsSpace(s[0]) then 1 + LeadingSpace(s[1..]) else 0
  }

  /** Number of white-space characters at the back of `s`. */
  function TrailingSpace(s: string): (n: nat)
    ensures n <= |s|
    ensures forall k :: |s| - n <= k < |s| ==> IsSpace(s[k])
    ensures n < |s| ==> !IsSpace(s[|s| - 1 - n])
  {
    if s != [] && IsSpace(s[|s| - 1]) then 1 + TrailingSpace(s[..|s| - 1]) else 0
  }

  /** Neither end of `s` is white space (the empty string counts as trimmed). */
  predicate IsTrimmed(s: string) {
    s == [] || (!IsSpace(s[0]) && !IsSpace(s[|s| - 1]))
  }

  predicate AllSpace(s: string) {
    forall k :: 0 <= k < |s| ==> IsSpace(s[k])
  }

  /** `s.trim()`: the window of `s` that starts at its first and ends at its
      last non-white-space character; empty when `s` is all white space. */
  function Trim(s: string): (r: string)
    ensures IsTrimmed(r)
    ensures exists i :: OccursAt(s, r, i) && AllSpace(s[..i]) && AllSpace(s[i + |r|..])
    ensures forall c :: c in r ==> c in s
    ensures r == [] <==> AllSpace(s)
  {
    var a := LeadingSpace(s);
    if a == |s| then
      assert OccursAt(s, [], a) && s[..a] == s && s[a..] == [];
      []
    else
      var b := TrailingSpace(s);
      assert b < |s| - a;
      var r := s[a..|s| - b];
      assert OccursAt(s, r, a);
      assert s[a + |r|..] == s[|s| - b..];
      assert !IsSpace(s[a]) && !AllSpace(s);
      r
  }

  /** Trimming removes exactly the white-space padding around a trimmed middle. */
  lemma TrimPadded(before: string, middle: string, after: string)
    requires AllSpace(before) && AllSpace(after) && IsTrimmed(middle)
    ensures Trim(before + middle + after) == middle
  {
    var s := before + middle + after;
    if middle == [] {
      assert AllSpace(s) by {
        forall k | 0 <= k < |s| ensures IsSpace(s[k]) {
          if k < |before| { assert s[k] == before[k]; } else { assert s[k] == after[k - |before|]; }
        }
      }
    } else {
      var a := LeadingSpace(s);
      assert s[|before|] == middle[0];
      assert a == |before|;
      var b := TrailingSpace(s);
      assert s[|s| - 1 - |after|] == middle[|middle| - 1];
      assert b == |after|;
      assert s[a..|s| - b] == middle;
    }
  }

  /** A trimmed string is its own `trim()`. */
  lemma TrimTrimmed(s: string)
    requires IsTrimmed(s)
    ensures Trim(s) == s
  {
    TrimPadded([], s, []);
    assert [] + s + [] == s;
  }

  /** Splitting around one separator splits each side on its own. */
  lemma SplitAround(a: string, b: string, sep: char)
    ensures Split(a + [sep] + b, sep) == Split(a, sep) + Split(b, sep)
  {
    var p, q := Split(a, sep), Split(b, sep);
    JoinSplit(a, sep);
    JoinSplit(b, sep);
    JoinAppend(p, q, sep);
    assert Join(p + q, sep) == a + [sep] + b;
    forall i | 0 <= i < |p + q| ensures sep !in (p + q)[i] {
      if i < |p| { assert (p + q)[i] == p[i]; } else { assert (p + q)[i] == q[i - |p|]; }
    }
    SplitJoin(p + q, sep);
  }

  /** A string occurs at the front of any extension of it. */
  lemma OccursPrefix(x: string, y: string)
    ensures OccursAt(x + y, x, 0)
  {
    assert (x + y)[..|x|] == x;
  }

  /** An occurrence survives putting text in front of and behind it. */
  lemma OccursWithin(before: string, s: string, after: string, needle: string, i: int)
    requires OccursAt(s, needle, i)
    ensures OccursAt(before + s + after, needle, |before| + i)
  {
    assert (before + s + after)[|before| + i..|before| + i + |needle|] == s[i..i + |needle|];
  }

  /** Text between a non-white-space first and a non-white-space last
      character is trimmed. */
  lemma Framed(head: string, middle: string, tail: string)
    requires head != [] && !IsSpace(head[0])
    requires tail != [] && !IsSpace(tail[|tail| - 1])
    ensures IsTrimmed(head + middle + tail)
  {
    var s := head + middle + tail;
    assert s[0] == head[0];
    assert s[|s| - 1] == tail[|tail| - 1];
  }

  /** The middle of a three-part concatenation occurs after the first part. */
  lemma OccursInMiddle(a: string, b: string, c: string)
    ensures OccursAt(a + b + c, b, |a|)
  {
    assert (a + b + c)[|a|..|a| + |b|] == b;
  }

  /** Number of occurrences of `c` in `s`. */
  function CountOf(s: string, c: char): nat {
    if s == [] then 0 else (if s[0] == c then 1 else 0) + CountOf(s[1..], c)
  }

  /** `s.split(sep)`: the maximal pieces between separators, one more than
      there are separators, none containing the separator. */
  function Split(s: string, sep: char): (pieces: seq<string>)
    ensures |pieces| == CountOf(s, sep) + 1
    ensures forall i :: 0 <= i < |pieces| ==> sep !in pieces[i]
    decreases |s|
  {
    if s == [] then
      [[]]
    else
      var rest := Split(s[1..], sep);
      if s[0] == sep then [[]] + rest
      else [[s[0]] + rest[0]] + rest[1..]
  }

  /** Text without the separator splits into itself alone. */
  lemma {:induction false} SplitWithout(s: string, sep: char)
    requires sep !in s
    ensures Split(s, sep) == [s]
    decreases |s|
  {
    if s != [] {
      SplitWithout(s[1..], sep);
      assert [s[0]] + s[1..] == s;
    }
  }

  /** `pieces.join(sep)`. */
  function Join(pieces: seq<string>, sep: char): string
    requires |pieces| > 0
    decreases |pieces|
  {
    if |pieces| == 1 then pieces[0] else pieces[0] + [sep] + Join(pieces[1..], sep)
  }

  /** Joining two non-empty lists of pieces puts one separator between
      their joins. */
  lemma {:induction false} JoinAppend(p: seq<string>, q: seq<string>, sep: char)
    requires |p| > 0 && |q| > 0
    ensures Join(p + q, sep) == Join(p, sep) + [sep] + Join(q, sep)
    decreases |p|
  {
    if |p| == 1 {
      assert (p + q)[0] == p[0] && (p + q)[1..] == q;
    } else {
      JoinAppend(p[1..], q, sep);
      assert (p + q)[1..] == p[1..] + q;
    }
  }

  /** Joining the pieces of a split gives back the original string. */
  lemma {:induction false} JoinSplit(s: string, sep: char)
    ensures Join(Split(s, sep), sep) == s
    decreases |s|
  {
    if s != [] {
      var rest := Split(s[1..], sep);
      JoinSplit(s[1..], sep);
      assert s == [s[0]] + s[1..];
      if s[0] == sep {
        var pieces := [[]] + rest;
        assert Split(s, sep) == pieces;
        assert pieces[0] == [] && pieces[1..] == rest;
        assert Join(pieces, sep) == [] + [sep] + Join(rest, sep);
      } else if |rest| == 1 {
        var pieces := [[s[0]] + rest[0]];
        assert Split(s, sep) == pieces;
        assert Join(pieces, sep) == [s[0]] + rest[0];
      } else {
        var pieces := [[s[0]] + rest[0]] + rest[1..];
        assert Split(s, sep) == pieces;
        assert pieces[0] == [s[0]] + rest[0] && pieces[1..] == rest[1..];
        assert Join(pieces, sep) == pieces[0] + [sep] + Join(rest[1..], sep);
        assert Join(rest, sep) == rest[0] + [sep] + Join(rest[1..], sep);
      }
    }
  }

  lemma {:induction false} SplitPrefix(x: string, y: string, sep: char)
    requires sep !in x
    ensures Split(x + y, sep) == [x + Split(y, sep)[0]] + Split(y, sep)[1..]
    decreases |x|
  {
    if x == [] {
      var S := Split(y, sep);
      assert x + y == y;
      assert x + S[0] == S[0];
      assert [S[0]] + S[1..] == S;
    } else {
      var S := Split(y, sep);
      var R := Split(x[1..] + y, sep);
      assert (x + y)[0] == x[0] && x[0] != sep;
      assert (x + y)[1..] == x[1..] + y;
      SplitPrefix(x[1..], y, sep);
      assert R[0] == x[1..] + S[0] && R[1..] == S[1..];
      assert Split(x + y, sep) == [[x[0]] + R[0]] + R[1..];
      assert [x[0]] + (x[1..] + S[0]) == x + S[0];
    }
  }

  /** Splitting a join of separator-free pieces gives back the pieces. */
  lemma {:induction false} SplitJoin(pieces: seq<string>, sep: char)
    requires |pieces| > 0
    requires forall i :: 0 <= i < |pieces| ==> sep !in pieces[i]
    ensures Split(Join(pieces, sep), sep) == pieces
    decreases |pieces|
  {
    if |pieces| == 1 {
      SplitPrefix(pieces[0], [], sep);
      assert pieces[0] + [] == pieces[0];
    } else {
      var tail := Join(pieces[1..], sep);
      SplitJoin(pieces[1..], sep);
      assert pieces[0] + [sep] + tail == pieces[0] + ([sep] + tail);
      SplitPrefix(pieces[0], [sep] + tail, sep);
      assert ([sep] + tail)[1..] == tail;
      var q := Split([sep] + tail, sep);
      assert q == [[]] + pieces[1..];
      assert q[0] == [] && q[1..] == pieces[1..];
      assert pieces[0] + q[0] == pieces[0];
      assert Join(pieces, sep) == pieces[0] + ([sep] + tail);
      assert pieces == [pieces[0]] + pieces[1..];
    }
  }
}
