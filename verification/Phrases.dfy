/**
 Case-insensitive, whole-word phrase replacement, and the snippets built on it.

 The replacer scans once from the left. What it replaces is stated by position: matches
 that do not overlap and that cover the start of every other match.
 */
module Phrases {
  import opened Words
  import opened Greedy

  predicate SameLetter(u: Unicode, a: char, b: char) {
    a == b || u.lower(a) == u.lower(b)
  }

  predicate MatchesAt(u: Unicode, text: string, i: nat, phrase: string) {
    && i + |phrase| <= |text|
    && forall k :: 0 <= k < |phrase| ==> SameLetter(u, text[i + k], phrase[k])
  }

  /** Neither the character before nor the one after is alphanumeric. */
  predicate BoundaryOk(u: Unicode, text: string, start: nat, len: nat)
    requires start <= |text|
  {
    && (start == 0 || !u.alphanumeric(text[start - 1]))
    && (start + len >= |text| || !u.alphanumeric(text[start + len]))
  }

  predicate IsMatch(u: Unicode, text: string, phrase: string, i: nat) {
    MatchesAt(u, text, i, phrase) && BoundaryOk(u, text, i, |phrase|)
  }

  /** `contains_phrase_ci`. */
  predicate Contains(u: Unicode, text: string, phrase: string) {
    phrase != "" && exists i: nat :: i < |text| && IsMatch(u, text, phrase, i)
  }

  /** `m` is the phrase, but perhaps for the case of its characters. */
  predicate IsPhrase(u: Unicode, m: string, phrase: string) {
    |m| == |phrase| && forall k :: 0 <= k < |m| ==> m[k] == phrase[k] || u.lower(m[k]) == u.lower(phrase[k])
  }

  /** A match is the phrase, in any case, with nothing alphanumeric right before it or right after it. */
  lemma MatchMeans(u: Unicode, before: string, m: string, after: string, phrase: string)
    requires |m| == |phrase|
    ensures IsMatch(u, before + m + after, phrase, |before|)
       <==> && IsPhrase(u, m, phrase)
            && (before == "" || !u.alphanumeric(before[|before| - 1])) && (after == "" || !u.alphanumeric(after[0]))
  {
    var text, n := before + m + after, |before|;
    assert forall k :: 0 <= k < |m| ==> text[n + k] == m[k];
    assert before != "" ==> text[n - 1] == before[n - 1];
    assert after != "" ==> text[n + |m|] == after[0];
  }

  /** Phrases that differ only in case are found, and replaced, at the same places. */
  lemma CaseDoesNotMatter(u: Unicode, text: string, a: string, b: string, to: string, out: string)
    requires |a| == |b| && forall k :: 0 <= k < |a| ==> u.lower(a[k]) == u.lower(b[k])
    requires Replaced(u, text, a, to, out)
    ensures Replaced(u, text, b, to, out)
  {
    if a != "" {
      forall i: nat ensures IsMatch(u, text, a, i) <==> IsMatch(u, text, b, i) { }
      SameChoice(Places(u, text, a), Places(u, text, b), text, |a|, to, out);
    }
  }

  /** Where the phrase can be replaced. */
  function Places(u: Unicode, text: string, phrase: string): nat -> bool {
    (i: nat) => IsMatch(u, text, phrase, i)
  }

  /** `replace_phrase_ci` as a relation: an empty phrase replaces nothing. */
  ghost predicate Replaced(u: Unicode, text: string, phrase: string, to: string, out: string) {
    if phrase == "" then out == text
    else Substituted(Places(u, text, phrase), text, |phrase|, to, out)
  }

  /** The result is the text with occurrences of the phrase, in any case, taken out and the replacement put in for each. */
  lemma ReplacementReads(u: Unicode, text: string, phrase: string, to: string, out: string)
    returns (kept: seq<string>, matches: seq<string>)
    requires phrase != "" && Replaced(u, text, phrase, to, out)
    ensures |kept| == |matches| + 1 && text == Weave(kept, matches) && out == Weave(kept, Repeated(to, |matches|))
    ensures forall k :: 0 <= k < |matches| ==> IsPhrase(u, matches[k], phrase)
  {
    var at := Places(u, text, phrase);
    var starts :| Chosen(at, |phrase|, starts, |text|) && out == Splice(text, starts, |phrase|, to, |text|);
    kept, matches := SpliceIsWoven(text, starts, |phrase|, to, |text|);
    assert text[..|text|] == text;
    forall k | 0 <= k < |matches| ensures IsPhrase(u, matches[k], phrase) {
      assert at(starts[k]) && IsMatch(u, text, phrase, starts[k]);
    }
  }

  lemma ReplacementIsUnique(u: Unicode, text: string, phrase: string, to: string, a: string, b: string)
    requires Replaced(u, text, phrase, to, a) && Replaced(u, text, phrase, to, b)
    ensures a == b
  {
    if phrase != "" {
      SubstitutionIsUnique(Places(u, text, phrase), text, |phrase|, to, a, b);
    }
  }

  /** The text contains the phrase just when at least one match is replaced. */
  lemma ContainsIffReplaces(u: Unicode, text: string, phrase: string, starts: seq<nat>)
    requires phrase != "" && Chosen(Places(u, text, phrase), |phrase|, starts, |text|)
    ensures Contains(u, text, phrase) <==> starts != []
  {
    var at := Places(u, text, phrase);
    if starts != [] {
      assert at(starts[0]) && IsMatch(u, text, phrase, starts[0]);
    }
    if Contains(u, text, phrase) {
      var i: nat :| i < |text| && IsMatch(u, text, phrase, i);
      assert at(i) && Covered(starts, |phrase|, i);
    }
  }

  /** Without a match the text stays as it is. */
  lemma NothingToReplace(u: Unicode, text: string, phrase: string, to: string)
    requires !Contains(u, text, phrase)
    ensures Replaced(u, text, phrase, to, text)
  {
    if phrase != "" {
      var at := Places(u, text, phrase);
      forall i: nat | i < |text| ensures !at(i) {
        assert !IsMatch(u, text, phrase, i);
      }
      NothingToSubstitute(at, text, |phrase|, to);
    }
  }

  /** The text up to `i` with every match replaced. */
  ghost predicate ReplacedTo(u: Unicode, text: string, phrase: string, to: string, i: nat, out: string) {
    i <= |text| && SubstitutedTo(Places(u, text, phrase), text, |phrase|, to, i, out)
  }

  lemma ReplaceNone(u: Unicode, text: string, phrase: string, to: string)
    ensures ReplacedTo(u, text, phrase, to, 0, "")
  {
    StartScan(Places(u, text, phrase), text, |phrase|, to);
  }

  lemma ReplaceOne(u: Unicode, text: string, phrase: string, to: string, i: nat, out: string)
    requires ReplacedTo(u, text, phrase, to, i, out) && i < |text|
    ensures if IsMatch(u, text, phrase, i) then ReplacedTo(u, text, phrase, to, i + |phrase|, out + to)
            else ReplacedTo(u, text, phrase, to, i + 1, out + [text[i]])
    ensures IsMatch(u, text, phrase, i) ==> i + |phrase| <= |text|
  {
    var at := Places(u, text, phrase);
    if at(i) {
      StepMatch(at, text, |phrase|, to, i, out);
    } else {
      StepOver(at, text, |phrase|, to, i, out);
    }
  }

  lemma ReplaceAll(u: Unicode, text: string, phrase: string, to: string, out: string)
    requires phrase != "" && ReplacedTo(u, text, phrase, to, |text|, out)
    ensures Replaced(u, text, phrase, to, out)
  {
  }

  /** `replace_phrase_ci`. */
  method ReplacePhrase(u: Unicode, text: string, phrase: string, to: string) returns (out: string)
    ensures Replaced(u, text, phrase, to, out)
  {
    if phrase == "" {
      return text;
    }
    out := "";
    var i := 0;
    ReplaceNone(u, text, phrase, to);
    while i < |text|
      invariant i <= |text| && ReplacedTo(u, text, phrase, to, i, out)
    {
      ReplaceOne(u, text, phrase, to, i, out);
      if IsMatch(u, text, phrase, i) {
        out := out + to;
        i := i + |phrase|;
      } else {
        out := out + [text[i]];
        i := i + 1;
      }
    }
    ReplaceAll(u, text, phrase, to, out);
  }

  // ------------------------------------------------------------------
  // Snippets
  // ------------------------------------------------------------------

  /** A trigger and its replacement, with the placeholders resolved. */
  datatype Snippet = Snippet(trigger: string, replacement: string)

  /** Every snippet applied in turn, whether or not its trigger is there. */
  ghost predicate Chained(u: Unicode, snippets: seq<Snippet>, trace: seq<string>) {
    && |trace| == |snippets| + 1
    && forall k: nat :: k < |snippets| ==> Replaced(u, trace[k], snippets[k].trigger, snippets[k].replacement, trace[k + 1])
  }

  ghost predicate Expanded(u: Unicode, text: string, snippets: seq<Snippet>, out: string) {
    exists trace :: Chained(u, snippets, trace) && trace[0] == text && trace[|snippets|] == out
  }

  /** `expand_snippets`: a snippet whose trigger is absent is skipped, which never shows in the result. */
  method ExpandSnippets(u: Unicode, text: string, snippets: seq<Snippet>) returns (out: string)
    ensures Expanded(u, text, snippets, out)
  {
    out := text;
    ghost var trace := [text];
    for i := 0 to |snippets|
      invariant Chained(u, snippets[..i], trace) && trace[0] == text && trace[i] == out
    {
      ghost var before := out;
      if Contains(u, out, snippets[i].trigger) {
        out := ReplacePhrase(u, out, snippets[i].trigger, snippets[i].replacement);
      } else {
        NothingToReplace(u, out, snippets[i].trigger, snippets[i].replacement);
      }
      ChainOn(u, snippets, i, trace, out);
      trace := trace + [out];
    }
    assert snippets[..|snippets|] == snippets;
  }

  lemma ChainOn(u: Unicode, snippets: seq<Snippet>, i: nat, trace: seq<string>, out: string)
    requires i < |snippets| && Chained(u, snippets[..i], trace)
    requires Replaced(u, trace[i], snippets[i].trigger, snippets[i].replacement, out)
    ensures Chained(u, snippets[..i + 1], trace + [out])
  {
    var longer := trace + [out];
    forall k: nat | k < i + 1
      ensures Replaced(u, longer[k], snippets[..i + 1][k].trigger, snippets[..i + 1][k].replacement, longer[k + 1])
    {
      if k < i {
        assert snippets[..i][k] == snippets[k];
        assert Replaced(u, trace[k], snippets[..i][k].trigger, snippets[..i][k].replacement, trace[k + 1]);
      }
    }
  }

  lemma {:induction false} ChainsAgree(u: Unicode, snippets: seq<Snippet>, a: seq<string>, b: seq<string>, k: nat)
    requires Chained(u, snippets, a) && Chained(u, snippets, b) && a[0] == b[0] && k <= |snippets|
    ensures a[k] == b[k]
  {
    if k == 0 {
    } else {
      ChainsAgree(u, snippets, a, b, k - 1);
      ReplacementIsUnique(u, a[k - 1], snippets[k - 1].trigger, snippets[k - 1].replacement, a[k], b[k]);
    }
  }

  lemma ExpansionIsUnique(u: Unicode, text: string, snippets: seq<Snippet>, a: string, b: string)
    requires Expanded(u, text, snippets, a) && Expanded(u, text, snippets, b)
    ensures a == b
  {
    var s :| Chained(u, snippets, s) && s[0] == text && s[|snippets|] == a;
    var t :| Chained(u, snippets, t) && t[0] == text && t[|snippets|] == b;
    ChainsAgree(u, snippets, s, t, |snippets|);
  }
}
