/** Byte strings, and searching them for the first occurrence of another. */
module Bytes {
  import opened Common

  newtype byte = x: int | 0 <= x < 256

  type Bytes = seq<byte>

  /** The bytes of an ASCII text. */
  function Ascii(s: string): (b: Bytes)
    ensures |b| == |s|
  {
    seq(|s|, i requires 0 <= i < |s| => (s[i] as int % 256) as byte)
  }

  /** A character of ASCII is its own byte. */
  lemma AsciiIs(s: string, i: nat)
    requires i < |s| && s[i] < 128 as char
    ensures Ascii(s)[i] as int == s[i] as int
  {
  }

  lemma AsciiJoins(a: string, b: string)
    ensures Ascii(a + b) == Ascii(a) + Ascii(b)
  {
  }

  predicate OccursAt<T(==)>(haystack: seq<T>, needle: seq<T>, i: int) {
    0 <= i <= |haystack| - |needle| && haystack[i..i + |needle|] == needle
  }

  ghost predicate Contains<T>(haystack: seq<T>, needle: seq<T>) {
    exists i: int :: OccursAt(haystack, needle, i)
  }

  /** The first place where `needle` occurs (see `FindIsFirst`). */
  function Find<T(==)>(haystack: seq<T>, needle: seq<T>): (r: Option<nat>)
    requires |needle| > 0
    ensures r.Some? ==> r.value + |needle| <= |haystack|
  {
    FindFrom(haystack, needle, 0)
  }

  function FindFrom<T(==)>(haystack: seq<T>, needle: seq<T>, from: nat): (r: Option<nat>)
    requires |needle| > 0
    ensures r.Some? ==> r.value + |needle| <= |haystack|
    decreases |haystack| - from
  {
    if from + |needle| > |haystack| then None
    else if haystack[from..from + |needle|] == needle then Some(from)
    else FindFrom(haystack, needle, from + 1)
  }

  lemma {:induction false} FindFromIsFirst<T>(haystack: seq<T>, needle: seq<T>, from: nat)
    requires |needle| > 0
    ensures match FindFrom(haystack, needle, from)
            case Some(at) => from <= at && OccursAt(haystack, needle, at) && forall i :: from <= i < at ==> !OccursAt(haystack, needle, i)
            case None => forall i :: from <= i ==> !OccursAt(haystack, needle, i)
    decreases |haystack| - from
  {
    if from + |needle| > |haystack| || haystack[from..from + |needle|] == needle {
    } else {
      FindFromIsFirst(haystack, needle, from + 1);
    }
  }

  /** The search finds an occurrence with none before it, or there is none at all. */
  lemma FindIsFirst<T>(haystack: seq<T>, needle: seq<T>)
    requires |needle| > 0
    ensures match Find(haystack, needle)
            case Some(at) => OccursAt(haystack, needle, at) && forall i :: 0 <= i < at ==> !OccursAt(haystack, needle, i)
            case None => !Contains(haystack, needle)
  {
    FindFromIsFirst(haystack, needle, 0);
  }

  /** `x` runs up to the first `needle` after it: whatever follows, the search stops right after `x`. */
  ghost predicate EndsAt<T>(x: seq<T>, needle: seq<T>) {
    forall i :: 0 <= i < |x| ==> !OccursAt(x + needle, needle, i)
  }

  lemma OccursInPrefix<T>(x: seq<T>, y: seq<T>, needle: seq<T>, i: int)
    requires 0 <= i && i + |needle| <= |x|
    ensures OccursAt(x + y, needle, i) <==> OccursAt(x, needle, i)
  {
    assert (x + y)[i..i + |needle|] == x[i..i + |needle|];
  }

  /** The search finds the end of `x` for every continuation, and only then. */
  lemma FindsEnd<T>(x: seq<T>, needle: seq<T>, rest: seq<T>)
    requires |needle| > 0
    ensures EndsAt(x, needle) <==> Find(x + needle + rest, needle) == Some(|x|)
  {
    var all := x + needle + rest;
    assert all[|x|..|x| + |needle|] == needle;
    forall i | 0 <= i < |x| ensures OccursAt(all, needle, i) <==> OccursAt(x + needle, needle, i) {
      OccursInPrefix(x + needle, rest, needle, i);
    }
    assert OccursAt(all, needle, |x|);
    FindIsFirst(all, needle);
  }

  /** A needle whose first element occurs nowhere else in it has no border, so it
      cannot begin inside `x` and end in the needle that follows. */
  lemma BorderFree<T>(x: seq<T>, needle: seq<T>)
    requires |needle| > 0
    requires forall k :: 0 < k < |needle| ==> needle[k] != needle[0]
    ensures EndsAt(x, needle) <==> !Contains(x, needle)
  {
    forall i | 0 <= i < |x| ensures OccursAt(x + needle, needle, i) <==> OccursAt(x, needle, i) {
      if i + |needle| <= |x| {
        OccursInPrefix(x, needle, needle, i);
      } else {
        assert (x + needle)[i..i + |needle|][|x| - i] == (x + needle)[|x|] == needle[0];
      }
    }
    if Contains(x, needle) {
      var i: int :| OccursAt(x, needle, i);
      assert OccursAt(x + needle, needle, i);
    }
  }

  function StartsWith<T(==)>(s: seq<T>, prefix: seq<T>): bool {
    |prefix| <= |s| && s[..|prefix|] == prefix
  }
}
