/**
 The Soundex code of a word, computed in one pass with an early exit, against the
 textbook description of the code.
 */
module Soundex {
  import opened Common

  predicate IsLetter(c: char) {
    'a' <= c <= 'z' || 'A' <= c <= 'Z'
  }

  function Lower(c: char): char {
    if 'A' <= c <= 'Z' then (c as int + 32) as char else c
  }

  function Upper(c: char): char {
    if 'a' <= c <= 'z' then (c as int - 32) as char else c
  }

  /** The digit of a lower-case letter; '0' for vowels, y, h and w. */
  function Digit(c: char): char {
    match c
    case 'b' | 'f' | 'p' | 'v' => '1'
    case 'c' | 'g' | 'j' | 'k' | 'q' | 's' | 'x' | 'z' => '2'
    case 'd' | 't' => '3'
    case 'l' => '4'
    case 'm' | 'n' => '5'
    case 'r' => '6'
    case _ => '0'
  }

  predicate IsWord(word: string) {
    word != "" && forall i :: 0 <= i < |word| ==> IsLetter(word[i])
  }

  // ------------------------------------------------------------------
  // The textbook code
  // ------------------------------------------------------------------

  predicate IsHW(c: char) {
    Lower(c) == 'h' || Lower(c) == 'w'
  }

  function WithoutHW(s: string): string {
    if s == "" then "" else (if IsHW(s[0]) then "" else [s[0]]) + WithoutHW(s[1..])
  }

  function Digits(s: string): (d: string)
    ensures |d| == |s|
  {
    seq(|s|, i requires 0 <= i < |s| => Digit(Lower(s[i])))
  }

  /** Runs of one digit become a single digit. */
  function Collapse(s: string): (r: string)
    ensures s != "" ==> r != "" && r[0] == s[0]
  {
    if |s| <= 1 then s
    else if s[0] == s[1] then Collapse(s[1..])
    else [s[0]] + Collapse(s[1..])
  }

  function WithoutZeros(s: string): string {
    if s == "" then "" else (if s[0] == '0' then "" else [s[0]]) + WithoutZeros(s[1..])
  }

  /**
   Drop every h and w after the first letter, turn letters into digits, collapse runs,
   drop the first digit, drop zeros; then pad with zeros to three digits, or cut.
   */
  function Code(word: string): (code: string)
    requires word != ""
    ensures |code| == 4
  {
    var digits := WithoutZeros(Collapse(Digits([word[0]] + WithoutHW(word[1..])))[1..]);
    [Upper(word[0])] + (digits + "000")[..3]
  }

  // ------------------------------------------------------------------
  // The loop
  // ------------------------------------------------------------------

  /** The digits the loop would emit for `s`, given the digit it compares with. */
  function Emitted(last: char, s: string): string
    decreases |s|
  {
    if s == "" then ""
    else
      var d := Digit(Lower(s[0]));
      (if d != '0' && d != last then [d] else "") + Emitted(if IsHW(s[0]) then last else d, s[1..])
  }

  lemma DigitsCons(c: char, s: string)
    ensures Digits([c] + s) == [Digit(Lower(c))] + Digits(s)
  {
  }

  lemma WithoutHWCons(c: char, s: string)
    ensures WithoutHW([c] + s) == (if IsHW(c) then "" else [c]) + WithoutHW(s)
  {
    assert ([c] + s)[1..] == s;
  }

  lemma EmittedCons(last: char, d: char, c: char, s: string)
    requires d == Digit(Lower(c))
    ensures Emitted(last, [c] + s) == (if d != '0' && d != last then [d] else "") + Emitted(if IsHW(c) then last else d, s)
  {
    assert ([c] + s)[1..] == s;
  }

  lemma HWIsZero(c: char)
    requires IsHW(c)
    ensures Digit(Lower(c)) == '0'
  {
  }

  /** What the textbook leaves of the digits of `s` after a digit `last`. */
  function Textbook(last: char, s: string): string {
    WithoutZeros(Collapse([last] + Digits(WithoutHW(s)))[1..])
  }

  lemma TextbookCons(last: char, d: char, c: char, s: string)
    requires d == Digit(Lower(c))
    ensures Textbook(last, [c] + s) == (if d != '0' && d != last then [d] else "") + Textbook(if IsHW(c) then last else d, s)
  {
    WithoutHWCons(c, s);
    if IsHW(c) {
      HWIsZero(c);
      assert "" + WithoutHW(s) == WithoutHW(s);
    } else {
      DigitsCons(c, WithoutHW(s));
      CollapseTail(last, d, Digits(WithoutHW(s)));
    }
  }

  /** The loop emits what the textbook leaves. */
  lemma {:induction false} EmittedIsTextbook(last: char, s: string)
    ensures Emitted(last, s) == Textbook(last, s)
    decreases |s|
  {
    if s == "" {
      assert [last] + "" == [last];
      assert Digits("") == "";
    } else {
      var d := Digit(Lower(s[0]));
      EmittedIsTextbook(if IsHW(s[0]) then last else d, s[1..]);
      assert s == [s[0]] + s[1..];
      EmittedCons(last, d, s[0], s[1..]);
      TextbookCons(last, d, s[0], s[1..]);
    }
  }

  lemma CollapseTail(a: char, b: char, rest: string)
    ensures var tail := Collapse([b] + rest)[1..];
            WithoutZeros(Collapse([a] + ([b] + rest))[1..]) == (if b != '0' && b != a then [b] else "") + WithoutZeros(tail)
  {
    var all := [a] + ([b] + rest);
    assert all[1..] == [b] + rest;
    if a != b {
      assert Collapse(all) == [a] + Collapse([b] + rest);
      assert Collapse(all)[1..] == Collapse([b] + rest);
    }
  }

  lemma Padding(digits: string, more: string)
    requires |digits| == 3 || (|digits| < 3 && more == "")
    ensures (digits + more + "000")[..3] == digits + "000"[|digits|..]
  {
  }

  /** One turn of the loop. */
  lemma EmitsOne(digits: string, last: char, d: char, c: char, s: string)
    requires d == Digit(Lower(c))
    ensures digits + Emitted(last, [c] + s)
         == (if d != '0' && d != last then digits + [d] else digits) + Emitted(if IsHW(c) then last else d, s)
  {
    EmittedCons(last, d, c, s);
    var head, tail := if d != '0' && d != last then [d] else "", Emitted(if IsHW(c) then last else d, s);
    assert digits + (head + tail) == (digits + head) + tail;
    assert digits + "" == digits;
  }

  /** `soundex`: none for an empty word or one with anything but ASCII letters. */
  method Soundex(word: string) returns (code: Option<string>)
    ensures code == if IsWord(word) then Some(Code(word)) else None
  {
    if !IsWord(word) {
      return None;
    }
    ghost var all := Emitted(Digit(Lower(word[0])), word[1..]);
    var last, digits, i := Digit(Lower(word[0])), "", 1;
    while i < |word| && |digits| < 3
      invariant 1 <= i <= |word| && |digits| <= 3
      invariant digits + Emitted(last, word[i..]) == all
    {
      var d := Digit(Lower(word[i]));
      assert word[i..] == [word[i]] + word[i + 1..];
      EmitsOne(digits, last, d, word[i], word[i + 1..]);
      if d != '0' && d != last {
        digits := digits + [d];
      }
      if !IsHW(word[i]) {
        last := d;
      }
      i := i + 1;
    }
    CodeIsEmitted(word);
    Padding(digits, Emitted(last, word[i..]));
    code := Some([Upper(word[0])] + (digits + "000"[|digits|..]));
  }

  // ------------------------------------------------------------------
  // Properties of the code
  // ------------------------------------------------------------------

  lemma {:induction false} WithoutHWJoins(a: string, b: string)
    ensures WithoutHW(a + b) == WithoutHW(a) + WithoutHW(b)
  {
    if a == "" {
      assert a + b == b;
    } else {
      WithoutHWJoins(a[1..], b);
      WithoutHWCons(a[0], a[1..]);
      WithoutHWCons(a[0], a[1..] + b);
      assert a == [a[0]] + a[1..] && a + b == [a[0]] + (a[1..] + b);
    }
  }

  /** An h or w put anywhere after the first letter never changes the code. */
  lemma HWIsSilent(front: string, c: char, rest: string)
    requires front != "" && IsHW(c)
    ensures Code(front + ([c] + rest)) == Code(front + rest)
  {
    assert (front + ([c] + rest))[1..] == front[1..] + ([c] + rest);
    assert (front + rest)[1..] == front[1..] + rest;
    WithoutHWJoins(front[1..], [c] + rest);
    WithoutHWCons(c, rest);
    WithoutHWJoins(front[1..], rest);
    assert "" + WithoutHW(rest) == WithoutHW(rest);
  }

  /** A letter of the same class put right after another counts for nothing. */
  lemma DoubledLetterCountsOnce(front: string, c: char, rest: string)
    requires front != "" && !IsHW(c) && !IsHW(front[|front| - 1]) && Digit(Lower(c)) == Digit(Lower(front[|front| - 1]))
    ensures Code(front + ([c] + rest)) == Code(front + rest)
  {
    CodeIsEmitted(front + ([c] + rest));
    CodeIsEmitted(front + rest);
    EmittedDoubles(Digit(Lower(front[0])), front, c, rest);
    assert (front + ([c] + rest))[1..] == front[1..] + ([c] + rest);
    assert (front + rest)[1..] == front[1..] + rest;
  }

  lemma CodeIsEmitted(word: string)
    requires word != ""
    ensures Code(word) == [Upper(word[0])] + (Emitted(Digit(Lower(word[0])), word[1..]) + "000")[..3]
  {
    EmittedIsTextbook(Digit(Lower(word[0])), word[1..]);
    DigitsCons(word[0], WithoutHW(word[1..]));
  }

  lemma {:induction false} EmittedDoubles(last: char, s: string, c: char, rest: string)
    requires s != "" && Digit(Lower(c)) == Digit(Lower(s[|s| - 1])) && !IsHW(c) && !IsHW(s[|s| - 1])
    requires last == Digit(Lower(s[0])) || |s| > 1
    ensures Emitted(last, s[1..] + ([c] + rest)) == Emitted(last, s[1..] + rest)
    decreases |s|
  {
    if |s| == 1 {
      assert s[1..] + ([c] + rest) == [c] + rest && s[1..] + rest == rest;
      assert ([c] + rest)[1..] == rest;
    } else {
      var d := Digit(Lower(s[1]));
      var t := s[1..];
      assert (s[1..] + ([c] + rest))[1..] == t[1..] + ([c] + rest);
      assert (s[1..] + rest)[1..] == t[1..] + rest;
      EmittedDoubles(if IsHW(s[1]) then last else d, t, c, rest);
    }
  }

  /** The classes of letters, in either case. */
  lemma DigitsAre(c: char)
    ensures Digit(Lower(c)) ==
            if c in "bfpvBFPV" then '1'
            else if c in "cgjkqsxzCGJKQSXZ" then '2'
            else if c in "dtDT" then '3'
            else if c in "lL" then '4'
            else if c in "mnMN" then '5'
            else if c in "rR" then '6'
            else '0'
    ensures IsHW(c) <==> c in "hwHW"
  {
  }

  /** The letters are those of ASCII, and cases differ by 32. */
  lemma LettersAre(c: char)
    ensures IsLetter(c) <==> 65 <= c as int <= 90 || 97 <= c as int <= 122
    ensures Upper(c) as int == c as int - (if 97 <= c as int <= 122 then 32 else 0)
    ensures Lower(c) as int == c as int + (if 65 <= c as int <= 90 then 32 else 0)
  {
  }

  lemma {:induction false} EmittedIgnoresCase(last: char, a: string, b: string)
    requires |a| == |b| && forall i :: 0 <= i < |a| ==> Lower(a[i]) == Lower(b[i])
    ensures Emitted(last, a) == Emitted(last, b)
    decreases |a|
  {
    if a == "" {
    } else {
      EmittedIgnoresCase(if IsHW(a[0]) then last else Digit(Lower(a[0])), a[1..], b[1..]);
    }
  }

  /** The case of the letters does not matter. */
  lemma CodeIgnoresCase(a: string, b: string)
    requires IsWord(a) && |a| == |b| && forall i :: 0 <= i < |a| ==> Lower(a[i]) == Lower(b[i])
    ensures Code(a) == Code(b)
  {
    CodeIsEmitted(a);
    CodeIsEmitted(b);
    EmittedIgnoresCase(Digit(Lower(a[0])), a[1..], b[1..]);
    assert Lower(a[0]) == Lower(b[0]) && (IsLetter(a[0]) ==> Upper(a[0]) == Upper(b[0]));
  }
}
