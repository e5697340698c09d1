/**
 Replacing stretches of a text, all of one length, chosen greedily from the left. Where a
 stretch may start is a parameter.

 The choice is stated by position: stretches that do not overlap and that cover the start
 of every place where another could have been.
 */
module Greedy {

  /** Stretch `k` ends before the next one starts, and no further than `to`. */
  ghost predicate SpacedAt(starts: seq<nat>, len: nat, to: nat, k: nat)
    requires k < |starts|
  {
    starts[k] + len <= to && (k + 1 < |starts| ==> starts[k] + len <= starts[k + 1])
  }

  /** Stretches of length `len`, one after the other, the last no further than `to`. */
  ghost predicate Spaced(starts: seq<nat>, len: nat, to: nat) {
    forall k: nat :: k < |starts| ==> SpacedAt(starts, len, to, k)
  }

  ghost predicate Covered(starts: seq<nat>, len: nat, j: nat) {
    exists k: nat :: k < |starts| && starts[k] <= j < starts[k] + len
  }

  /** The leftmost non-overlapping stretches that start before `to`, where `at` allows it. */
  ghost predicate Chosen(at: nat -> bool, len: nat, starts: seq<nat>, to: nat) {
    && Spaced(starts, len, to)
    && (forall k: nat :: k < |starts| ==> at(starts[k]))
    && (forall j: nat {:trigger Covered(starts, len, j)} :: j < to && at(j) ==> Covered(starts, len, j))
  }

  function Gap(text: string, from: nat, to: nat): string {
    if from <= to <= |text| then text[from..to] else ""
  }

  /** The text up to `upto` with those stretches replaced by `to`. */
  function Splice(text: string, starts: seq<nat>, len: nat, to: string, upto: nat): string {
    if starts == [] then Gap(text, 0, upto)
    else
      var last := |starts| - 1;
      Splice(text, starts[..last], len, to, starts[last]) + to + Gap(text, starts[last] + len, upto)
  }

  /** The text up to `upto` with every chosen stretch replaced. */
  ghost predicate SubstitutedTo(at: nat -> bool, text: string, len: nat, to: string, upto: nat, out: string) {
    exists starts :: Chosen(at, len, starts, upto) && out == Splice(text, starts, len, to, upto)
  }

  ghost predicate Substituted(at: nat -> bool, text: string, len: nat, to: string, out: string) {
    SubstitutedTo(at, text, len, to, |text|, out)
  }

  // ------------------------------------------------------------------
  // There is one greedy choice
  // ------------------------------------------------------------------

  lemma {:induction false} StartsInOrder(starts: seq<nat>, len: nat, upto: nat, j: nat, k: nat)
    requires Spaced(starts, len, upto) && j < k < |starts|
    ensures starts[j] + len <= starts[k]
    decreases k
  {
    if j >= k - 1 {
    } else {
      StartsInOrder(starts, len, upto, j, k - 1);
    }
    assert SpacedAt(starts, len, upto, k - 1);
  }

  /** A stretch of one choice starts no earlier than the same one of another. */
  lemma NotEarlier(at: nat -> bool, len: nat, to: nat, a: seq<nat>, b: seq<nat>, k: nat)
    requires Chosen(at, len, a, to) && Chosen(at, len, b, to) && len > 0
    requires k < |a| && (forall i: nat :: i < k ==> i < |b| && a[i] == b[i])
    ensures k < |b| && b[k] <= a[k]
  {
    assert SpacedAt(a, len, to, k) && at(a[k]) && Covered(b, len, a[k]);
    var j: nat :| j < |b| && b[j] <= a[k] < b[j] + len;
    if j < k {
      StartsInOrder(a, len, to, j, k);
      assert false;
    }
    if k < j {
      StartsInOrder(b, len, to, k, j);
    }
  }

  lemma {:induction false} ChoicesAgree(at: nat -> bool, len: nat, to: nat, a: seq<nat>, b: seq<nat>, n: nat)
    requires Chosen(at, len, a, to) && Chosen(at, len, b, to) && len > 0 && n <= |a|
    ensures n <= |b| && forall i: nat :: i < n ==> a[i] == b[i]
  {
    if n == 0 {
    } else {
      ChoicesAgree(at, len, to, a, b, n - 1);
      NotEarlier(at, len, to, a, b, n - 1);
      NotEarlier(at, len, to, b, a, n - 1);
    }
  }

  lemma ChoiceIsUnique(at: nat -> bool, len: nat, to: nat, a: seq<nat>, b: seq<nat>)
    requires Chosen(at, len, a, to) && Chosen(at, len, b, to) && len > 0
    ensures a == b
  {
    ChoicesAgree(at, len, to, a, b, |a|);
    ChoicesAgree(at, len, to, b, a, |b|);
  }

  lemma SubstitutionIsUnique(at: nat -> bool, text: string, len: nat, to: string, a: string, b: string)
    requires Substituted(at, text, len, to, a) && Substituted(at, text, len, to, b) && len > 0
    ensures a == b
  {
    var s :| Chosen(at, len, s, |text|) && a == Splice(text, s, len, to, |text|);
    var t :| Chosen(at, len, t, |text|) && b == Splice(text, t, len, to, |text|);
    ChoiceIsUnique(at, len, |text|, s, t);
  }

  lemma SameChoice(at: nat -> bool, also: nat -> bool, text: string, len: nat, to: string, out: string)
    requires Substituted(at, text, len, to, out) && forall i: nat :: at(i) <==> also(i)
    ensures Substituted(also, text, len, to, out)
  {
    var starts :| Chosen(at, len, starts, |text|) && out == Splice(text, starts, len, to, |text|);
    assert Chosen(also, len, starts, |text|);
  }

  /** Stretches of kept text with fillings between them, one filling fewer than stretches. */
  function Weave(kept: seq<string>, fillings: seq<string>): string
    requires |kept| == |fillings| + 1
  {
    if fillings == [] then kept[0]
    else
      var last := |fillings| - 1;
      Weave(kept[..|kept| - 1], fillings[..last]) + fillings[last] + kept[|kept| - 1]
  }

  lemma WeaveOn(kept: seq<string>, fillings: seq<string>, filling: string, more: string)
    requires |kept| == |fillings| + 1
    ensures Weave(kept + [more], fillings + [filling]) == Weave(kept, fillings) + filling + more
  {
    assert (kept + [more])[..|kept|] == kept && (fillings + [filling])[..|fillings|] == fillings;
  }

  function Repeated(to: string, n: nat): (r: seq<string>)
    ensures |r| == n
  {
    if n == 0 then [] else Repeated(to, n - 1) + [to]
  }

  /** The text up to a stretch, the stretch, and what is kept after it. */
  lemma WeaveStretch(text: string, kept: seq<string>, matches: seq<string>, at: nat, len: nat, upto: nat, to: string)
    requires at + len <= upto <= |text| && |kept| == |matches| + 1 && text[..at] == Weave(kept, matches)
    ensures var m, more := text[at..at + len], text[at + len..upto];
            && text[..upto] == Weave(kept + [more], matches + [m])
            && Weave(kept + [more], Repeated(to, |matches| + 1)) == Weave(kept, Repeated(to, |matches|)) + to + more
  {
    var m, more := text[at..at + len], text[at + len..upto];
    assert text[..upto] == text[..at] + m + more;
    WeaveOn(kept, matches, m, more);
    WeaveOn(kept, Repeated(to, |matches|), to, more);
  }

  /** Stretches of length `len` of the text, one at each of the starts. */
  predicate Stretches(text: string, starts: seq<nat>, len: nat, matches: seq<string>) {
    |matches| == |starts|
    && forall k :: 0 <= k < |starts| ==> starts[k] + len <= |text| && matches[k] == text[starts[k]..starts[k] + len]
  }

  /** What stands between the stretches is kept, and each stretch becomes the filling. */
  predicate Woven(text: string, starts: seq<nat>, len: nat, to: string, upto: nat, kept: seq<string>, matches: seq<string>) {
    && upto <= |text| && Stretches(text, starts, len, matches) && |kept| == |matches| + 1
    && text[..upto] == Weave(kept, matches) && Splice(text, starts, len, to, upto) == Weave(kept, Repeated(to, |matches|))
  }

  lemma WovenNone(text: string, len: nat, to: string, upto: nat)
    requires upto <= |text|
    ensures Woven(text, [], len, to, upto, [text[..upto]], [])
  {
  }

  lemma SpliceOneMore(text: string, front: seq<nat>, at: nat, len: nat, to: string, upto: nat)
    requires at + len <= upto <= |text|
    ensures Splice(text, front + [at], len, to, upto) == Splice(text, front, len, to, at) + to + text[at + len..upto]
  {
    assert (front + [at])[..|front|] == front;
  }

  lemma StretchOneMore(text: string, front: seq<nat>, at: nat, len: nat, matches: seq<string>)
    requires Stretches(text, front, len, matches) && at + len <= |text|
    ensures Stretches(text, front + [at], len, matches + [text[at..at + len]])
  {
  }

  lemma WovenOneMore(text: string, front: seq<nat>, at: nat, len: nat, to: string, upto: nat, kept: seq<string>, matches: seq<string>,
                     m: string, more: string)
    requires at + len <= upto <= |text| && Woven(text, front, len, to, at, kept, matches)
    requires m == text[at..at + len] && more == text[at + len..upto]
    ensures Woven(text, front + [at], len, to, upto, kept + [more], matches + [m])
  {
    StretchOneMore(text, front, at, len, matches);
    SpliceOneMore(text, front, at, len, to, upto);
    WeaveStretch(text, kept, matches, at, len, upto, to);
    assert |matches + [m]| == |matches| + 1;
  }

  lemma WovenOn(text: string, front: seq<nat>, at: nat, len: nat, to: string, upto: nat, kept: seq<string>, matches: seq<string>)
    returns (more: seq<string>, longer: seq<string>)
    requires at + len <= upto <= |text| && Woven(text, front, len, to, at, kept, matches)
    ensures Woven(text, front + [at], len, to, upto, more, longer)
  {
    var m, tail := text[at..at + len], text[at + len..upto];
    WovenOneMore(text, front, at, len, to, upto, kept, matches, m, tail);
    more, longer := kept + [tail], matches + [m];
  }

  /** The last stretch, woven onto what is in front of it. */
  lemma WovenLast(text: string, starts: seq<nat>, len: nat, to: string, upto: nat, kept: seq<string>, matches: seq<string>)
    returns (more: seq<string>, longer: seq<string>)
    requires starts != [] && Spaced(starts, len, upto) && upto <= |text|
    requires Woven(text, starts[..|starts| - 1], len, to, starts[|starts| - 1], kept, matches)
    ensures Woven(text, starts, len, to, upto, more, longer)
  {
    var front, at := starts[..|starts| - 1], starts[|starts| - 1];
    assert SpacedAt(starts, len, upto, |starts| - 1) && starts == front + [at];
    more, longer := WovenOn(text, front, at, len, to, upto, kept, matches);
  }

  lemma {:induction false} SpliceIsWoven(text: string, starts: seq<nat>, len: nat, to: string, upto: nat)
    returns (kept: seq<string>, matches: seq<string>)
    requires Spaced(starts, len, upto) && upto <= |text|
    ensures Woven(text, starts, len, to, upto, kept, matches)
    decreases |starts|
  {
    if starts == [] {
      WovenNone(text, len, to, upto);
      kept, matches := [text[..upto]], [];
    } else {
      FrontIsSpaced(starts, len, upto);
      kept, matches := SpliceIsWoven(text, starts[..|starts| - 1], len, to, starts[|starts| - 1]);
      kept, matches := WovenLast(text, starts, len, to, upto, kept, matches);
    }
  }

  lemma FrontIsSpaced(starts: seq<nat>, len: nat, upto: nat)
    requires starts != [] && Spaced(starts, len, upto)
    ensures Spaced(starts[..|starts| - 1], len, starts[|starts| - 1]) && starts[|starts| - 1] <= upto
  {
    var last := |starts| - 1;
    assert SpacedAt(starts, len, upto, last);
    forall k: nat | k < last ensures SpacedAt(starts[..last], len, starts[last], k) {
      StartsInOrder(starts, len, upto, k, last);
      assert SpacedAt(starts, len, upto, k);
    }
  }

  lemma NothingToSubstitute(at: nat -> bool, text: string, len: nat, to: string)
    requires forall i: nat :: i < |text| ==> !at(i)
    ensures Substituted(at, text, len, to, text)
  {
    assert Chosen(at, len, [], |text|);
    assert Splice(text, [], len, to, |text|) == text;
  }

  // ------------------------------------------------------------------
  // A scan from the left
  // ------------------------------------------------------------------

  lemma SpacedFurther(starts: seq<nat>, len: nat, i: nat, to: nat)
    requires Spaced(starts, len, i) && i <= to
    ensures Spaced(starts, len, to)
  {
    forall k: nat | k < |starts| ensures SpacedAt(starts, len, to, k) {
      assert SpacedAt(starts, len, i, k);
    }
  }

  lemma SpacedOneMore(starts: seq<nat>, len: nat, i: nat, to: nat)
    requires Spaced(starts, len, i) && i + len == to
    ensures Spaced(starts + [i], len, to)
  {
    forall k: nat | k < |starts| + 1 ensures SpacedAt(starts + [i], len, to, k) {
      assert k < |starts| ==> SpacedAt(starts, len, i, k);
    }
  }

  /** A stretch taken covers every place that starts inside it. */
  lemma CoveredOneMore(starts: seq<nat>, len: nat, i: nat, j: nat)
    requires Covered(starts, len, j) || i <= j < i + len
    ensures Covered(starts + [i], len, j)
  {
    var longer := starts + [i];
    if Covered(starts, len, j) {
      var k: nat :| k < |starts| && starts[k] <= j < starts[k] + len;
      assert longer[k] == starts[k];
    } else {
      assert longer[|starts|] == i;
    }
  }

  lemma StartScan(at: nat -> bool, text: string, len: nat, to: string)
    ensures SubstitutedTo(at, text, len, to, 0, "")
  {
    assert Chosen(at, len, [], 0) && Splice(text, [], len, to, 0) == "";
  }

  lemma ChosenFurther(at: nat -> bool, text: string, len: nat, to: string, starts: seq<nat>, i: nat)
    requires Chosen(at, len, starts, i) && i < |text| && !at(i)
    ensures Chosen(at, len, starts, i + 1)
    ensures Splice(text, starts, len, to, i + 1) == Splice(text, starts, len, to, i) + [text[i]]
  {
    SpacedFurther(starts, len, i, i + 1);
    var from := if starts == [] then 0 else starts[|starts| - 1] + len;
    assert starts != [] ==> SpacedAt(starts, len, i, |starts| - 1);
    assert Gap(text, from, i + 1) == Gap(text, from, i) + [text[i]];
  }

  lemma ChosenOneMore(at: nat -> bool, text: string, len: nat, to: string, starts: seq<nat>, i: nat)
    requires Chosen(at, len, starts, i) && at(i)
    ensures Chosen(at, len, starts + [i], i + len)
    ensures Splice(text, starts + [i], len, to, i + len) == Splice(text, starts, len, to, i) + to
  {
    var longer := starts + [i];
    SpacedOneMore(starts, len, i, i + len);
    forall j: nat | j < i + len && at(j) ensures Covered(longer, len, j) {
      assert j < i ==> Covered(starts, len, j);
      CoveredOneMore(starts, len, i, j);
    }
    assert longer[..|starts|] == starts;
    assert Gap(text, i + len, i + len) == "";
  }

  /** The scan steps over a character where no stretch may start. */
  lemma StepOver(at: nat -> bool, text: string, len: nat, to: string, i: nat, out: string)
    requires SubstitutedTo(at, text, len, to, i, out) && i < |text| && !at(i)
    ensures SubstitutedTo(at, text, len, to, i + 1, out + [text[i]])
  {
    var starts :| Chosen(at, len, starts, i) && out == Splice(text, starts, len, to, i);
    ChosenFurther(at, text, len, to, starts, i);
  }

  /** The scan replaces a stretch and steps over all of it. */
  lemma StepMatch(at: nat -> bool, text: string, len: nat, to: string, i: nat, out: string)
    requires SubstitutedTo(at, text, len, to, i, out) && at(i)
    ensures SubstitutedTo(at, text, len, to, i + len, out + to)
  {
    var starts :| Chosen(at, len, starts, i) && out == Splice(text, starts, len, to, i);
    ChosenOneMore(at, text, len, to, starts, i);
  }
}
