/**
 Tokens of a transcript as the vocabulary corrector takes them apart: whitespace,
 punctuation around a word, matching keys and letter case.
 */
module Words {

  /** Character classes and case mappings, kept abstract. */
  datatype Unicode = Unicode(
    alphanumeric: char -> bool,
    alphabetic: char -> bool,
    uppercase: char -> bool,
    space: char -> bool,
    lower: char -> string,
    upper: char -> string)

  // ------------------------------------------------------------------
  // Whitespace
  // ------------------------------------------------------------------

  predicate IsToken(u: Unicode, word: string) {
    word != "" && forall i :: 0 <= i < |word| ==> !u.space(word[i])
  }

  /** The maximal runs without whitespace; `word` is the run read so far. */
  function SplitFrom(u: Unicode, word: string, text: string): seq<string>
    decreases |text|
  {
    if text == "" then (if word == "" then [] else [word])
    else if u.space(text[0]) then (if word == "" then [] else [word]) + SplitFrom(u, "", text[1..])
    else SplitFrom(u, word + [text[0]], text[1..])
  }

  function Split(u: Unicode, text: string): seq<string> {
    SplitFrom(u, "", text)
  }

  function Join(tokens: seq<string>): string {
    if tokens == [] then ""
    else if |tokens| == 1 then tokens[0]
    else tokens[0] + " " + Join(tokens[1..])
  }

  lemma {:induction false} SplitGivesTokens(u: Unicode, word: string, text: string)
    requires word == "" || IsToken(u, word)
    ensures forall t :: t in SplitFrom(u, word, text) ==> IsToken(u, t)
    decreases |text|
  {
    if text == "" {
    } else {
      if u.space(text[0]) {
        SplitGivesTokens(u, "", text[1..]);
      } else {
        SplitGivesTokens(u, word + [text[0]], text[1..]);
      }
    }
  }

  lemma {:induction false} SplitRun(u: Unicode, word: string, run: string, text: string)
    requires forall i :: 0 <= i < |run| ==> !u.space(run[i])
    ensures SplitFrom(u, word, run + text) == SplitFrom(u, word + run, text)
    decreases |run|
  {
    if run == "" {
      assert run + text == text && word + run == word;
    } else {
      SplitRun(u, word + [run[0]], run[1..], text);
      assert (run + text)[1..] == run[1..] + text;
      assert word + [run[0]] + run[1..] == word + run;
    }
  }

  /** Joining tokens with single spaces and splitting again gives the same tokens. */
  lemma {:induction false} SplitJoin(u: Unicode, tokens: seq<string>)
    requires u.space(' ') && forall t :: t in tokens ==> IsToken(u, t)
    ensures Split(u, Join(tokens)) == tokens
  {
    if tokens == [] {
    } else {
      var first, rest := tokens[0], tokens[1..];
      assert first in tokens && IsToken(u, first);
      if rest == [] {
        SplitRun(u, "", first, "");
        assert first + "" == first && "" + first == first && tokens == [first];
      } else {
        SplitJoin(u, rest);
        SplitRun(u, "", first, " " + Join(rest));
        assert first + " " + Join(rest) == first + (" " + Join(rest));
        assert "" + first == first && (" " + Join(rest))[1..] == Join(rest);
        assert tokens == [first] + rest;
      }
    }
  }

  /** Whitespace of any kind, wherever it stands, separates what is before it from what is after. */
  lemma SplitAtSpace(u: Unicode, before: string, c: char, after: string)
    requires u.space(c)
    ensures Split(u, before + [c] + after) == Split(u, before) + Split(u, after)
    ensures Split(u, "") == [] && (IsToken(u, before) ==> Split(u, before) == [before])
  {
    SplitsApart(u, "", before, c, after);
    if IsToken(u, before) {
      SplitRun(u, "", before, "");
      assert before + "" == before && "" + before == before;
    }
  }

  lemma {:induction false} SplitsApart(u: Unicode, word: string, before: string, c: char, after: string)
    requires u.space(c)
    ensures SplitFrom(u, word, before + [c] + after) == SplitFrom(u, word, before) + SplitFrom(u, "", after)
    decreases |before|
  {
    var text := before + [c] + after;
    if before == "" {
      assert text == [c] + after && text[1..] == after;
    } else {
      assert text[1..] == before[1..] + [c] + after;
      SplitsApart(u, if u.space(before[0]) then "" else word + [before[0]], before[1..], c, after);
    }
  }

  /** So splitting, joining with single spaces and splitting again is splitting once, whatever the text. */
  lemma SplitJoinSplit(u: Unicode, text: string)
    requires u.space(' ')
    ensures Split(u, Join(Split(u, text))) == Split(u, text)
  {
    SplitGivesTokens(u, "", text);
    SplitJoin(u, Split(u, text));
  }

  // ------------------------------------------------------------------
  // Punctuation
  // ------------------------------------------------------------------

  /** Where the first alphanumeric character is; the length if there is none. */
  function Leading(u: Unicode, word: string): (n: nat)
    ensures n <= |word|
  {
    if word == "" || u.alphanumeric(word[0]) then 0 else 1 + Leading(u, word[1..])
  }

  /** Just past the last alphanumeric character; 0 if there is none. */
  function Trailing(u: Unicode, word: string): (n: nat)
    ensures n <= |word|
  {
    if word == "" then 0
    else if u.alphanumeric(word[|word| - 1]) then |word|
    else Trailing(u, word[..|word| - 1])
  }

  function Prefix(u: Unicode, word: string): string {
    if Leading(u, word) >= Trailing(u, word) then word else word[..Leading(u, word)]
  }

  function Suffix(u: Unicode, word: string): string {
    if Leading(u, word) >= Trailing(u, word) then "" else word[Trailing(u, word)..]
  }

  predicate HasWord(u: Unicode, s: string) {
    exists i :: 0 <= i < |s| && u.alphanumeric(s[i])
  }

  lemma {:induction false} LeadingIsFirst(u: Unicode, word: string)
    ensures var n := Leading(u, word);
            !HasWord(u, word[..n]) && (n < |word| ==> u.alphanumeric(word[n]))
  {
    if word == "" || u.alphanumeric(word[0]) {
    } else {
      LeadingIsFirst(u, word[1..]);
      var n := Leading(u, word);
      forall i | 0 <= i < n ensures !u.alphanumeric(word[i]) {
        if i > 0 { assert word[i] == word[1..][..n - 1][i - 1]; }
      }
    }
  }

  lemma {:induction false} TrailingIsLast(u: Unicode, word: string)
    ensures var n := Trailing(u, word);
            !HasWord(u, word[n..]) && (n > 0 ==> u.alphanumeric(word[n - 1]))
  {
    if word == "" || u.alphanumeric(word[|word| - 1]) {
    } else {
      var front := word[..|word| - 1];
      TrailingIsLast(u, front);
      var n := Trailing(u, word);
      forall i | n <= i < |word| ensures !u.alphanumeric(word[i]) {
        if i < |front| { assert word[i] == front[n..][i - n]; }
      }
    }
  }

  /** A token is its leading punctuation, a core that starts and ends alphanumeric, and the rest. */
  lemma PunctuationSurrounds(u: Unicode, word: string) returns (core: string)
    ensures word == Prefix(u, word) + core + Suffix(u, word)
    ensures core != "" <==> HasWord(u, word)
    ensures core == "" ==> Prefix(u, word) == word && Suffix(u, word) == ""
    ensures core != "" ==> u.alphanumeric(core[0]) && u.alphanumeric(core[|core| - 1])
    ensures core != "" ==> !HasWord(u, Prefix(u, word)) && !HasWord(u, Suffix(u, word))
  {
    var from, to := Leading(u, word), Trailing(u, word);
    LeadingIsFirst(u, word);
    TrailingIsLast(u, word);
    if from < to {
      core := word[from..to];
      assert word == word[..from] + core + word[to..];
    } else {
      core := "";
      assert word == word + "" + "";
      forall i | 0 <= i < |word| ensures !u.alphanumeric(word[i]) {
        assert i < from ==> word[i] == word[..from][i];
        assert i >= to ==> word[i] == word[to..][i - to];
      }
    }
  }

  /** What stands in front of the first alphanumeric character is the prefix, all of the token if there is none. */
  lemma PrefixIs(u: Unicode, front: string, core: string)
    requires !HasWord(u, front) && (core != "" ==> u.alphanumeric(core[0]))
    ensures Prefix(u, front + core) == front
  {
    var word := front + core;
    var first := PunctuationSurrounds(u, word);
    LeadingIsFirst(u, word);
    TrailingIsLast(u, word);
    if core == "" {
      assert word == front;
    } else {
      assert u.alphanumeric(word[|front|]);
      assert forall i :: 0 <= i < |front| ==> !u.alphanumeric(word[i]);
      SplitsOnce(u, word, |front|, Leading(u, word), Trailing(u, word));
    }
  }

  lemma SplitsOnce(u: Unicode, word: string, at: nat, from: nat, to: nat)
    requires at < |word| && from <= |word| && to <= |word|
    requires !HasWord(u, word[..from]) && (from < |word| ==> u.alphanumeric(word[from])) && !HasWord(u, word[to..])
    requires u.alphanumeric(word[at])
    ensures from <= at < to
    ensures (forall i :: 0 <= i < at ==> !u.alphanumeric(word[i])) ==> from == at
    ensures (forall i :: at < i < |word| ==> !u.alphanumeric(word[i])) && to > 0 && u.alphanumeric(word[to - 1]) ==> to == at + 1
  {
    assert forall i :: 0 <= i < from ==> word[..from][i] == word[i];
    assert forall i :: to <= i < |word| ==> word[to..][i - to] == word[i];
  }

  /** What stands behind the last alphanumeric character is the suffix. */
  lemma SuffixIs(u: Unicode, core: string, back: string)
    requires !HasWord(u, back) && core != "" && u.alphanumeric(core[|core| - 1])
    ensures Suffix(u, core + back) == back
  {
    var word, at := core + back, |core| - 1;
    LeadingIsFirst(u, word);
    TrailingIsLast(u, word);
    assert u.alphanumeric(word[at]);
    forall i | at < i < |word| ensures !u.alphanumeric(word[i]) { assert word[i] == back[i - |core|]; }
    SplitsOnce(u, word, at, Leading(u, word), Trailing(u, word));
  }

  // ------------------------------------------------------------------
  // Keys and case
  // ------------------------------------------------------------------

  function MatchKey(u: Unicode, word: string): string {
    if word == "" then "" else
      (if u.alphanumeric(word[0]) then u.lower(word[0]) else "") + MatchKey(u, word[1..])
  }

  lemma {:induction false} KeyJoins(u: Unicode, a: string, b: string)
    ensures MatchKey(u, a + b) == MatchKey(u, a) + MatchKey(u, b)
  {
    if a == "" {
      assert a + b == b;
    } else {
      KeyJoins(u, a[1..], b);
      assert (a + b)[1..] == a[1..] + b;
    }
  }

  lemma {:induction false} KeyOfNothing(u: Unicode, s: string)
    requires !HasWord(u, s)
    ensures MatchKey(u, s) == ""
  {
    if s == "" {
    } else {
      assert !u.alphanumeric(s[0]);
      assert forall i :: 0 <= i < |s[1..]| ==> s[1..][i] == s[i + 1];
      KeyOfNothing(u, s[1..]);
    }
  }

  /** Punctuation around a word does not change its key. */
  lemma KeyIgnoresPunctuation(u: Unicode, word: string) returns (core: string)
    ensures word == Prefix(u, word) + core + Suffix(u, word) && MatchKey(u, word) == MatchKey(u, core)
  {
    core := PunctuationSurrounds(u, word);
    if core == "" {
      KeyOfNothing(u, word);
    } else {
      KeyJoins(u, Prefix(u, word) + core, Suffix(u, word));
      KeyJoins(u, Prefix(u, word), core);
      KeyOfNothing(u, Prefix(u, word));
      KeyOfNothing(u, Suffix(u, word));
    }
  }

  /** The same characters but for their case. */
  predicate SameButCase(u: Unicode, a: string, b: string) {
    |a| == |b| && forall i :: 0 <= i < |a| ==> u.alphanumeric(a[i]) == u.alphanumeric(b[i]) && u.lower(a[i]) == u.lower(b[i])
  }

  /** Neither does the case of its letters. */
  lemma {:induction false} KeyIgnoresCase(u: Unicode, a: string, b: string)
    requires SameButCase(u, a, b)
    ensures MatchKey(u, a) == MatchKey(u, b)
  {
    if a == "" {
    } else {
      KeyIgnoresCase(u, a[1..], b[1..]);
    }
  }

  /** A key is made of the lower-case forms of the alphanumeric characters, and of nothing else. */
  lemma KeyOfOne(u: Unicode, c: char)
    ensures MatchKey(u, [c]) == if u.alphanumeric(c) then u.lower(c) else ""
  {
    assert [c][1..] == "";
  }

  predicate IsAsciiKey(key: string) {
    key != "" && forall i :: 0 <= i < |key| ==> 'a' <= key[i] <= 'z' || 'A' <= key[i] <= 'Z' || '0' <= key[i] <= '9'
  }

  /** A key of letters and digits, by their codes. */
  lemma AsciiKeyMeans(key: string)
    ensures IsAsciiKey(key)
       <==> key != "" && forall i :: 0 <= i < |key| ==>
              48 <= key[i] as int <= 57 || 65 <= key[i] as int <= 90 || 97 <= key[i] as int <= 122
  {
  }

  /** The key of a window of tokens. */
  function Candidate(u: Unicode, window: seq<string>): string {
    if window == [] then "" else MatchKey(u, window[0]) + Candidate(u, window[1..])
  }

  /** The key of a window is the key of its text: the spaces between its tokens do not matter. */
  lemma {:induction false} CandidateIsKeyOfText(u: Unicode, window: seq<string>)
    requires !u.alphanumeric(' ')
    ensures Candidate(u, window) == MatchKey(u, Join(window))
  {
    if window == [] {
    } else if |window| == 1 {
      assert window[1..] == [];
    } else {
      CandidateIsKeyOfText(u, window[1..]);
      KeyJoins(u, window[0] + " ", Join(window[1..]));
      KeyJoins(u, window[0], " ");
      KeyOfNothing(u, " ");
    }
  }

  function ToUpper(u: Unicode, s: string): string {
    if s == "" then "" else u.upper(s[0]) + ToUpper(u, s[1..])
  }

  /** No letter that is not upper case. */
  predicate AllUpper(u: Unicode, s: string) {
    forall i :: 0 <= i < |s| && u.alphabetic(s[i]) ==> u.uppercase(s[i])
  }

  /** More than one character, some letter, and every letter upper case. */
  predicate Shouted(u: Unicode, s: string) {
    && |s| > 1
    && (exists i :: 0 <= i < |s| && u.alphabetic(s[i]))
    && AllUpper(u, s)
  }

  /** The casing pattern of `original` given to `replacement`. */
  function KeepCase(u: Unicode, original: string, replacement: string): string {
    if Shouted(u, original) then ToUpper(u, replacement)
    else if original != "" && u.uppercase(original[0]) then
      if replacement == "" then "" else u.upper(replacement[0]) + replacement[1..]
    else replacement
  }

  lemma {:induction false} ToUpperShouts(u: Unicode, s: string)
    ensures AllUpper(u, ToUpper(u, s)) <==> forall i :: 0 <= i < |s| ==> AllUpper(u, u.upper(s[i]))
  {
    if s == "" {
    } else {
      var first, rest := u.upper(s[0]), ToUpper(u, s[1..]);
      ToUpperShouts(u, s[1..]);
      AllUpperJoins(u, first, rest);
      assert s == [s[0]] + s[1..];
    }
  }

  /** Capitals are put in letter by letter. */
  lemma {:induction false} UpperJoins(u: Unicode, a: string, b: string)
    ensures ToUpper(u, a + b) == ToUpper(u, a) + ToUpper(u, b)
    ensures |a| == 1 ==> ToUpper(u, a) == u.upper(a[0])
  {
    if a == "" {
      assert a + b == b;
    } else {
      UpperJoins(u, a[1..], b);
      assert (a + b)[1..] == a[1..] + b;
    }
  }

  lemma AllUpperJoins(u: Unicode, a: string, b: string)
    ensures AllUpper(u, a + b) <==> AllUpper(u, a) && AllUpper(u, b)
  {
    if AllUpper(u, a + b) {
      assert forall i :: 0 <= i < |a| ==> (a + b)[i] == a[i];
      assert forall i :: 0 <= i < |b| ==> (a + b)[|a| + i] == b[i];
    }
  }

  /**
   The replacement of a shouted token is shouted if and only if each of its letters has a capital; that of
   a capitalised one starts with the capital of its own first letter; any other is as configured.
   */
  lemma CaseIsKept(u: Unicode, original: string, replacement: string)
    ensures Shouted(u, original)
       <==> && |original| > 1 && (exists i :: 0 <= i < |original| && u.alphabetic(original[i]))
            && forall i :: 0 <= i < |original| && u.alphabetic(original[i]) ==> u.uppercase(original[i])
    ensures var r := KeepCase(u, original, replacement);
            && (Shouted(u, original) ==>
                  && r == ToUpper(u, replacement)
                  && (AllUpper(u, r) <==> forall i :: 0 <= i < |replacement| ==> AllUpper(u, u.upper(replacement[i]))))
            && (original != "" && u.uppercase(original[0]) && replacement != "" ==>
                  u.upper(replacement[0]) <= r && (!Shouted(u, original) ==> r[|u.upper(replacement[0])|..] == replacement[1..]))
            && (original == "" || (!u.uppercase(original[0]) && !Shouted(u, original)) ==> r == replacement)
  {
    ToUpperShouts(u, replacement);
  }

  /** Every "&" spelled out. */
  function SpellAnd(word: string): string {
    if word == "" then "" else (if word[0] == '&' then " and " else [word[0]]) + SpellAnd(word[1..])
  }

  /** An "&" becomes the word, set off by spaces, and nothing else changes. */
  lemma AndOfOne(c: char)
    ensures SpellAnd([c]) == if c == '&' then " and " else [c]
  {
    assert [c][1..] == "";
  }

  lemma {:induction false} AndJoins(a: string, b: string)
    ensures SpellAnd(a + b) == SpellAnd(a) + SpellAnd(b)
  {
    if a == "" {
      assert a + b == b;
    } else {
      var first := if a[0] == '&' then " and " else [a[0]];
      AndJoins(a[1..], b);
      assert (a + b)[1..] == a[1..] + b && (a + b)[0] == a[0];
      assert first + (SpellAnd(a[1..]) + SpellAnd(b)) == first + SpellAnd(a[1..]) + SpellAnd(b);
    }
  }
}
