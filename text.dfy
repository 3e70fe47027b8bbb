/**
 * String helpers shared by the question-answering and evaluation modules:
 * Python's `sep.join(parts)`, ASCII `str.lower()` and the substring test `a in b`.
 */
module Text {

  /** Python's `sep.join(parts)`: the parts in order, with `sep` between neighbours. */
  function Join(parts: seq<string>, sep: string): string
  {
    if |parts| == 0 then ""
    else if |parts| == 1 then parts[0]
    else parts[0] + sep + Join(parts[1..], sep)
  }

  /** Total length of the parts. */
  function TotalLength(parts: seq<string>): nat
  {
    if |parts| == 0 then 0 else |parts[0]| + TotalLength(parts[1..])
  }

  /** Where part `i` starts in `Join(parts, sep)`. */
  function Offset(parts: seq<string>, sep: string, i: nat): nat
    requires i < |parts|
  {
    if i == 0 then 0 else |parts[0]| + |sep| + Offset(parts[1..], sep, i - 1)
  }

  /** A join is as long as its parts plus one separator between each pair of neighbours. */
  lemma {:induction false} JoinLength(parts: seq<string>, sep: string)
    requires |parts| > 0
    ensures |Join(parts, sep)| == TotalLength(parts) + (|parts| - 1) * |sep|
  {
    if |parts| > 1 {
      JoinLength(parts[1..], sep);
    }
  }

  /** Part `i` appears verbatim at its offset: the join keeps every part, unchanged and in order. */
  lemma {:induction false} JoinPartAt(parts: seq<string>, sep: string, i: nat)
    requires i < |parts|
    ensures Offset(parts, sep, i) + |parts[i]| <= |Join(parts, sep)|
    ensures Join(parts, sep)[Offset(parts, sep, i)..Offset(parts, sep, i) + |parts[i]|] == parts[i]
  {
    var j := Join(parts, sep);
    if |parts| > 1 {
      var rest := Join(parts[1..], sep);
      assert j == parts[0] + (sep + rest);
      if i > 0 {
        var k := |parts[0]| + |sep|;
        var o := Offset(parts[1..], sep, i - 1);
        var len := |parts[i]|;
        assert parts[1..][i - 1] == parts[i];
        assert Offset(parts, sep, i) == k + o;
        JoinPartAt(parts[1..], sep, i - 1);
        assert j[k..] == rest;
        assert j[k..][o..o + len] == j[k + o..k + o + len];
      }
    }
  }

  /** Every part but the last is followed by the separator in the join. */
  lemma {:induction false} JoinSeparatorAfter(parts: seq<string>, sep: string, i: nat)
    requires i + 1 < |parts|
    ensures Offset(parts, sep, i) + |parts[i]| + |sep| <= |Join(parts, sep)|
    ensures Join(parts, sep)[Offset(parts, sep, i) + |parts[i]|..Offset(parts, sep, i) + |parts[i]| + |sep|] == sep
  {
    var j := Join(parts, sep);
    var rest := Join(parts[1..], sep);
    assert j == (parts[0] + sep) + rest;
    if i > 0 {
      var k := |parts[0]| + |sep|;
      var e := Offset(parts[1..], sep, i - 1) + |parts[i]|;
      assert parts[1..][i - 1] == parts[i];
      assert Offset(parts, sep, i) + |parts[i]| == k + e;
      JoinSeparatorAfter(parts[1..], sep, i - 1);
      assert j[k..] == rest;
      assert j[k..][e..e + |sep|] == j[k + e..k + e + |sep|];
    }
  }

  /** Appending one more part extends the join by a separator and that part. */
  lemma {:induction false} JoinSnoc(parts: seq<string>, sep: string, last: string)
    requires |parts| > 0
    ensures Join(parts + [last], sep) == Join(parts, sep) + sep + last
  {
    if |parts| == 1 {
      assert (parts + [last])[1..] == [last];
    } else {
      assert (parts + [last])[1..] == parts[1..] + [last];
      JoinSnoc(parts[1..], sep, last);
    }
  }

  predicate IsUpperChar(c: char)
  {
    'A' <= c <= 'Z'
  }

  predicate IsLowerChar(c: char)
  {
    'a' <= c <= 'z'
  }

  function LowerChar(c: char): char
  {
    if IsUpperChar(c) then (c as int + 32) as char else c
  }

  function UpperChar(c: char): char
  {
    if IsLowerChar(c) then (c as int - 32) as char else c
  }

  /** `str.lower()`, restricted to the ASCII letters. */
  function Lower(s: string): (r: string)
    ensures |r| == |s|
    ensures forall i :: 0 <= i < |s| ==> r[i] == LowerChar(s[i])
  {
    if |s| == 0 then "" else [LowerChar(s[0])] + Lower(s[1..])
  }

  /** `d` is `c` with its letter case possibly flipped. */
  predicate SameCharIgnoringCase(c: char, d: char)
  {
    d == c || (IsUpperChar(c) && d == LowerChar(c)) || (IsLowerChar(c) && d == UpperChar(c))
  }

  /** `b` is `a` with the case of any of its letters changed. */
  predicate CaseVariant(a: string, b: string)
  {
    |a| == |b| && forall i :: 0 <= i < |a| ==> SameCharIgnoringCase(a[i], b[i])
  }

  /** Changing the letter case of a string never changes its lowercase form. */
  lemma CaseVariantSameLower(a: string, b: string)
    requires CaseVariant(a, b)
    ensures Lower(a) == Lower(b)
  {
  }

  /** Python's `needle in hay` on strings (the empty string is in every string). */
  predicate IsSubstring(needle: string, hay: string)
  {
    exists i | 0 <= i <= |hay| - |needle| :: OccursAt(needle, hay, i)
  }

  /** `needle` occurs in `hay` starting at index `i`. */
  predicate OccursAt(needle: string, hay: string, i: int)
  {
    0 <= i <= |hay| - |needle| && hay[i..i + |needle|] == needle
  }
}
