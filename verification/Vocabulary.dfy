/**
 Fuzzy correction against a custom vocabulary.

 The scoring of one candidate against one key, the choice of the closest word, and the
 walk over a transcript that replaces windows of one to three tokens. Shares and
 thresholds are exact.
 */
module Vocabulary {
  import opened Common
  import opened Soundex
  import opened EditDistance
  import opened Words
  import opened Choosing

  const MAX_KEY_CHARS := 50
  const DEFAULT_THRESHOLD := 0.18
  const MAX_PHONETIC_EDIT_SHARE := 0.45
  const MAX_PLAIN_DISTANCE := 0.125

  // ------------------------------------------------------------------
  // One candidate against one key
  // ------------------------------------------------------------------

  /** Lengths that differ by more than two and by more than a quarter of the longer one. */
  predicate TooFarApart(candidate: nat, key: nat) {
    var quarter := Max(candidate, key) as real * 0.25;
    Diff(candidate, key) as real > (if quarter >= 2.0 then quarter else 2.0)
  }

  /** How a candidate compares with a key: their lengths, their edits, and whether they sound alike. */
  datatype Likeness = Likeness(candidate: nat, key: nat, edits: nat, phonetic: bool)
  {
    /** What holds whenever the edits are a distance between two words, the key not empty. */
    predicate Sound() {
      key >= 1 && candidate >= 1 && Diff(candidate, key) <= edits <= Max(candidate, key)
    }

    function Longest(): real {
      Max(candidate, key) as real
    }

    /** The key is skipped before any other test. */
    predicate Skipped() {
      TooFarApart(candidate, key)
    }

    function Share(): real
      requires Sound()
    {
      edits as real / Longest()
    }

    predicate Acceptable()
      requires Sound()
    {
      if phonetic then edits as real <= key as real * MAX_PHONETIC_EDIT_SHARE else Share() < MAX_PLAIN_DISTANCE
    }

    function Score(): real
      requires Sound()
    {
      if phonetic then Share() * 0.3 else Share()
    }
  }

  lemma ShareTimesLongest(l: Likeness)
    requires l.Sound()
    ensures l.Share() * l.Longest() == l.edits as real && l.Longest() >= 1.0
  {
  }

  lemma SmallerShare(share: real, longest: real, edits: real, key: real)
    requires longest >= 1.0 && share * longest == edits && edits <= key * 0.45 && key <= longest
    ensures share <= 0.45
  {
    assert share > 0.45 ==> (share - 0.45) * longest > 0.0;
  }

  /** The length test never skips a key that an unlike-sounding candidate could match. */
  lemma SkippingSparesPlainMatches(l: Likeness)
    requires l.Sound() && l.Acceptable() && !l.phonetic
    ensures !l.Skipped()
  {
    ShareTimesLongest(l);
    PlainEdits(l.Share(), l.Longest(), l.edits as real);
  }

  lemma PlainEdits(share: real, longest: real, edits: real)
    requires longest >= 1.0 && share < 0.125 && share * longest == edits
    ensures edits < longest * 0.25
  {
    assert (0.25 - share) * longest > 0.0;
  }

  /** An acceptable match scores at most 0.135. */
  lemma AcceptableScore(l: Likeness)
    requires l.Sound() && l.Acceptable()
    ensures l.Score() <= 0.135
  {
    ShareTimesLongest(l);
    if l.phonetic {
      SmallerShare(l.Share(), l.Longest(), l.edits as real, l.key as real);
    }
  }

  function SoundexOf(word: string): Option<string> {
    if IsWord(word) then Some(Code(word)) else None
  }

  predicate SoundAlike(a: string, b: string) {
    SoundexOf(a).Some? && SoundexOf(a) == SoundexOf(b)
  }

  function Compare(candidate: string, key: string): (l: Likeness)
    requires candidate != "" && key != ""
    ensures l.Sound()
  {
    DistanceBounds(candidate, key);
    Likeness(|candidate|, |key|, Distance(candidate, key), SoundAlike(candidate, key))
  }

  // ------------------------------------------------------------------
  // Which matches the length test and the threshold lose
  // ------------------------------------------------------------------

  /** A key of `n` letters, as candidates and custom words have. */
  predicate KeyOf(word: string, n: nat) {
    IsAsciiKey(word) && |word| == n
  }

  /** Lengths too far apart for the length test, but near enough for words that sound alike. */
  predicate LostLengths(candidate: nat, key: nat) {
    TooFarApart(candidate, key) && Diff(candidate, key) as real <= key as real * MAX_PHONETIC_EDIT_SHARE
  }

  /** Only lengths like that can cost an acceptable match. */
  lemma LostOnlyByLength(candidate: string, key: string)
    requires candidate != "" && key != ""
    ensures var l := Compare(candidate, key); l.Acceptable() && l.Skipped() ==> LostLengths(|candidate|, |key|)
  {
    var l := Compare(candidate, key);
    if l.Acceptable() && !l.phonetic {
      SkippingSparesPlainMatches(l);
    }
  }

  /** The length test skips no acceptable match of two lengths if and only if they are not such lengths. */
  lemma LengthTestIsSafeIff(c: nat, k: nat)
    requires c >= 1 && k >= 1
    ensures (forall candidate, key :: KeyOf(candidate, c) && KeyOf(key, k) && Compare(candidate, key).Acceptable()
               ==> !Compare(candidate, key).Skipped())
       <==> !LostLengths(c, k)
  {
    if LostLengths(c, k) {
      VowelsAreLost(c, k);
    } else {
      forall candidate, key | KeyOf(candidate, c) && KeyOf(key, k) && Compare(candidate, key).Acceptable()
        ensures !Compare(candidate, key).Skipped()
      {
        LostOnlyByLength(candidate, key);
      }
    }
  }

  function Vowels(n: nat): (s: string)
    ensures |s| == n && forall i :: 0 <= i < n ==> s[i] == 'a'
  {
    seq(n, i => 'a')
  }

  /** Words of one vowel are as close as their lengths, and sound alike. */
  lemma VowelsCompare(c: nat, k: nat)
    requires c >= 1 && k >= 1
    ensures Compare(Vowels(c), Vowels(k)) == Likeness(c, k, Diff(c, k), true)
  {
    VowelsSoundAlike(Vowels(c), Vowels(k));
    DistanceBounds(Vowels(c), Vowels(k));
    if c >= k {
      LongerByPrefix(Vowels(c - k), Vowels(k));
      assert Vowels(c - k) + Vowels(k) == Vowels(c);
    } else {
      LongerByPrefix(Vowels(k - c), Vowels(c));
      assert Vowels(k - c) + Vowels(c) == Vowels(k);
      DistanceIsSymmetric(Vowels(c), Vowels(k));
    }
  }

  lemma VowelsAreLost(c: nat, k: nat)
    requires c >= 1 && k >= 1 && LostLengths(c, k)
    ensures KeyOf(Vowels(c), c) && KeyOf(Vowels(k), k)
    ensures var l := Compare(Vowels(c), Vowels(k)); l.Acceptable() && l.Skipped()
  {
    VowelsCompare(c, k);
  }

  /** For instance fourteen vowels against ten, and seven against ten. */
  lemma SkippingLosesSomePhoneticMatches()
    ensures var l := Compare(Vowels(14), Vowels(10)); l.Acceptable() && l.Skipped()
    ensures var l := Compare(Vowels(7), Vowels(10)); l.Acceptable() && l.Skipped()
  {
    VowelsAreLost(14, 10);
    VowelsAreLost(7, 10);
  }

  /** Letters that make no digit. */
  predicate AllVowels(s: string) {
    forall i :: 0 <= i < |s| ==> s[i] == 'a' || s[i] == 'e'
  }

  lemma VowelsSoundAlike(a: string, b: string)
    requires a != "" && b != "" && AllVowels(a) && AllVowels(b) && a[0] == b[0]
    ensures SoundAlike(a, b)
  {
    VowelsEmitNothing('0', a[1..]);
    VowelsEmitNothing('0', b[1..]);
    CodeIsEmitted(a);
    CodeIsEmitted(b);
  }

  lemma {:induction false} LongerByPrefix(p: string, s: string)
    ensures Distance(p + s, s) <= |p|
  {
    if p == "" {
      assert p + s == s;
      ZeroIffEqual(s, s);
    } else {
      LongerByPrefix(p[1..], s);
      assert (p + s)[1..] == p[1..] + s;
      DistanceDrops(p + s, s);
    }
  }

  lemma {:induction false} VowelsEmitNothing(last: char, s: string)
    requires AllVowels(s)
    ensures Emitted(last, s) == ""
    decreases |s|
  {
    if s == "" {
    } else {
      VowelsEmitNothing('0', s[1..]);
    }
  }

  function Es(n: nat): (s: string)
    ensures |s| == n && forall i :: 0 <= i < n ==> s[i] == 'e'
  {
    seq(n, i => 'e')
  }

  /** How many letters are not `a`. */
  function Foreign(s: string): nat {
    if s == "" then 0 else (if s[0] == 'a' then 0 else 1) + Foreign(s[1..])
  }

  lemma {:induction false} ForeignCounts(n: nat, m: nat)
    ensures Foreign(Vowels(n) + Es(m)) == m
    decreases n + m
  {
    if n > 0 {
      assert (Vowels(n) + Es(m))[1..] == Vowels(n - 1) + Es(m);
      ForeignCounts(n - 1, m);
    } else if m > 0 {
      assert (Vowels(0) + Es(m))[1..] == Vowels(0) + Es(m - 1);
      ForeignCounts(0, m - 1);
    } else {
      assert Vowels(0) + Es(0) == "";
    }
  }

  /** Every foreign letter costs an edit. */
  lemma {:induction false} ForeignLettersCost(s: string, n: nat)
    ensures Distance(s, Vowels(n)) >= Foreign(s)
    decreases |s| + n
  {
    if s == "" || n == 0 {
      ForeignFits(s);
    } else {
      assert Vowels(n)[1..] == Vowels(n - 1);
      ForeignLettersCost(s[1..], n);
      ForeignLettersCost(s, n - 1);
      ForeignLettersCost(s[1..], n - 1);
    }
  }

  lemma {:induction false} ForeignFits(s: string)
    ensures Foreign(s) <= |s|
  {
    if s == "" {
    } else {
      ForeignFits(s[1..]);
    }
  }

  lemma {:induction false} SharedFront(p: string, x: string, y: string)
    ensures Distance(p + x, p + y) <= Distance(x, y)
  {
    if p == "" {
      assert p + x == x && p + y == y;
    } else {
      SharedFront(p[1..], x, y);
      assert (p + x)[1..] == p[1..] + x && (p + y)[1..] == p[1..] + y;
    }
  }

  /** The last `m` of a word's vowels misheard: that many edits, and the same sound. */
  lemma MisheardVowels(n: nat, m: nat)
    requires n >= 1
    ensures Compare(Vowels(n) + Es(m), Vowels(n + m)) == Likeness(n + m, n + m, m, true)
  {
    var word := Vowels(n) + Es(m);
    VowelsSoundAlike(word, Vowels(n + m));
    ForeignCounts(n, m);
    ForeignLettersCost(word, n + m);
    SharedFront(Vowels(n), Es(m), Vowels(m));
    assert Vowels(n) + Vowels(m) == Vowels(n + m);
    DistanceBounds(Es(m), Vowels(m));
  }

  /** Everything asked of a match but the threshold. */
  predicate Passes(candidate: string, key: string) {
    && IsAsciiKey(candidate) && |candidate| <= MAX_KEY_CHARS && IsAsciiKey(key)
    && !Compare(candidate, key).Skipped() && Compare(candidate, key).Acceptable()
  }

  /** Nine of twenty letters misheard is as bad as a match can be. */
  lemma WorstMatch()
    ensures exists candidate, key :: Passes(candidate, key) && Compare(candidate, key).Score() == 0.135
  {
    MisheardVowels(11, 9);
    var candidate, key := Vowels(11) + Es(9), Vowels(20);
    assert Passes(candidate, key);
  }

  /** The threshold turns away no match that passes every other test if and only if it is above 0.135; the default is. */
  lemma WhenThresholdIsIdle(threshold: real)
    ensures (forall candidate, key :: Passes(candidate, key) ==> Compare(candidate, key).Score() < threshold)
       <==> threshold > 0.135
    ensures DEFAULT_THRESHOLD > 0.135
  {
    WorstMatch();
    forall candidate, key | threshold > 0.135 && Passes(candidate, key) ensures Compare(candidate, key).Score() < threshold {
      AcceptableScore(Compare(candidate, key));
    }
  }

  // ------------------------------------------------------------------
  // The closest word
  // ------------------------------------------------------------------

  /** A normalised key and the index of the custom word it stands for. */
  datatype Key = Key(word: nat, key: string)

  datatype Dictionary = Dictionary(u: Unicode, words: seq<string>, threshold: real)

  function KeysFor(u: Unicode, word: string, index: nat): seq<Key> {
    var primary, expanded := MatchKey(u, word), MatchKey(u, SpellAnd(word));
    (if IsAsciiKey(primary) then [Key(index, primary)] else [])
    + (if '&' in word && IsAsciiKey(expanded) && expanded != primary then [Key(index, expanded)] else [])
  }

  /** The keys of the first `n` words. */
  function KeysUpTo(d: Dictionary, n: nat): (keys: seq<Key>)
    requires n <= |d.words|
    ensures forall k :: 0 <= k < |keys| ==> IsAsciiKey(keys[k].key) && keys[k].word < |d.words|
  {
    if n == 0 then [] else KeysUpTo(d, n - 1) + KeysFor(d.u, d.words[n - 1], n - 1)
  }

  function Keys(d: Dictionary): seq<Key> {
    KeysUpTo(d, |d.words|)
  }

  predicate Eligible(candidate: string, key: Key, threshold: real) {
    Passes(candidate, key.key) && Compare(candidate, key.key).Score() < threshold
  }

  /** So many edits, weighted, are below the threshold's share of the length. */
  predicate Below(edits: nat, factor: real, threshold: real, longest: nat) {
    edits as real * factor < threshold * longest as real
  }

  lemma ShareBelow(share: real, longest: real, edits: real, factor: real, bound: real)
    requires longest >= 1.0 && share * longest == edits
    ensures share * factor < bound <==> edits * factor < bound * longest
  {
    assert edits * factor == share * factor * longest;
    assert (bound - share * factor) * longest == bound * longest - share * factor * longest;
    assert share * factor < bound ==> (bound - share * factor) * longest > 0.0;
    assert share * factor >= bound ==> (bound - share * factor) * longest <= 0.0;
  }

  /** The length test, without fractions. */
  lemma SkippedMeans(candidate: nat, key: nat)
    ensures TooFarApart(candidate, key) <==> Diff(candidate, key) > 2 && 4 * Diff(candidate, key) > Max(candidate, key)
  {
  }

  /** Whether the edits are few enough, without fractions. */
  lemma AcceptableMeans(l: Likeness)
    requires l.Sound()
    ensures l.Acceptable() <==> if l.phonetic then 100 * l.edits <= 45 * l.key else 8 * l.edits < Max(l.candidate, l.key)
  {
    if !l.phonetic {
      ShareTimesLongest(l);
      ShareBelow(l.Share(), l.Longest(), l.edits as real, 1.0, 0.125);
    }
  }

  lemma BelowMeans(l: Likeness, threshold: real)
    requires l.Sound()
    ensures l.Score() < threshold <==> Below(l.edits, if l.phonetic then 0.3 else 1.0, threshold, Max(l.candidate, l.key))
  {
    ShareTimesLongest(l);
    ShareBelow(l.Share(), l.Longest(), l.edits as real, if l.phonetic then 0.3 else 1.0, threshold);
  }

  /** Two words that have a Soundex code, and the same one. */
  predicate SameCode(a: string, b: string) {
    IsWord(a) && IsWord(b) && Code(a) == Code(b)
  }

  /**
   Which keys a candidate can be taken for. Both are ASCII letters and digits, the candidate at most fifty.
   Their lengths differ by at most two, or a quarter of the longer. If they sound alike the edits come to at most
   45% of the key, and three tenths of their share of the longer is below the threshold; otherwise the edits are
   less than an eighth of the longer, and their share of it is below the threshold.
   */
  lemma EligibleMeans(candidate: string, key: Key, threshold: real)
    ensures Eligible(candidate, key, threshold)
       <==> IsAsciiKey(candidate) && IsAsciiKey(key.key) && |candidate| <= 50
            && NearEnough(|candidate|, |key.key|, Distance(candidate, key.key), SameCode(candidate, key.key), threshold)
  {
    if IsAsciiKey(candidate) && IsAsciiKey(key.key) {
      var l := Compare(candidate, key.key);
      SkippedMeans(l.candidate, l.key);
      AcceptableMeans(l);
      BelowMeans(l, threshold);
    }
  }

  predicate NearEnough(candidate: nat, key: nat, edits: nat, alike: bool, threshold: real) {
    var diff, longest := Diff(candidate, key), Max(candidate, key);
    && (diff <= 2 || 4 * diff <= longest)
    && (if alike then 100 * edits <= 45 * key else 8 * edits < longest)
    && Below(edits, if alike then 0.3 else 1.0, threshold, longest)
  }

  /** A score is the edits over the longer length, times three tenths if the two sound alike. */
  lemma ScoreIs(l: Likeness)
    requires l.Sound()
    ensures l.Score() * Max(l.candidate, l.key) as real == l.edits as real * (if l.phonetic then 0.3 else 1.0)
  {
    ShareTimesLongest(l);
    ThreeTenths(l.Share(), l.Longest());
  }

  lemma ThreeTenths(share: real, longest: real)
    ensures share * 0.3 * longest == share * longest * 0.3
  {
  }

  /** The key is the word's as it stands, or with every "&" spelled out. */
  predicate SpelledAs(u: Unicode, word: string, key: string) {
    key == MatchKey(u, word) || ('&' in word && key == MatchKey(u, SpellAnd(word)))
  }

  lemma KeysForAre(u: Unicode, word: string, index: nat, k: Key)
    ensures k in KeysFor(u, word, index) <==> k.word == index && IsAsciiKey(k.key) && SpelledAs(u, word, k.key)
  {
    var primary, expanded := MatchKey(u, word), MatchKey(u, SpellAnd(word));
    var first: seq<Key> := if IsAsciiKey(primary) then [Key(index, primary)] else [];
    var second: seq<Key> := if '&' in word && IsAsciiKey(expanded) && expanded != primary then [Key(index, expanded)] else [];
    assert KeysFor(u, word, index) == first + second;
    assert k in first + second <==> k in first || k in second;
  }

  /** What a list gathers step by step is what some step adds. */
  lemma {:induction false} Gathered<T(!new)>(upTo: nat -> seq<T>, step: nat -> seq<T>, n: nat, x: T)
    requires upTo(0) == [] && forall i: nat :: i < n ==> upTo(i + 1) == upTo(i) + step(i)
    ensures x in upTo(n) <==> exists i: nat :: i < n && x in step(i)
  {
    if n == 0 {
    } else {
      Gathered(upTo, step, n - 1, x);
      var last := n - 1;
      assert upTo(last + 1) == upTo(last) + step(last);
    }
  }

  /** The keys are those of each word, as it stands and with every "&" spelled out, that are ASCII letters and digits. */
  lemma KeysAre(d: Dictionary, k: Key)
    ensures k in Keys(d)
       <==> k.word < |d.words| && IsAsciiKey(k.key) && SpelledAs(d.u, d.words[k.word], k.key)
  {
    var upTo := (n: nat) => if n <= |d.words| then KeysUpTo(d, n) else [];
    var step := (n: nat) => if n < |d.words| then KeysFor(d.u, d.words[n], n) else [];
    Gathered(upTo, step, |d.words|, k);
    forall i: nat | i < |d.words|
      ensures k in step(i) <==> k.word == i && IsAsciiKey(k.key) && SpelledAs(d.u, d.words[i], k.key)
    {
      KeysForAre(d.u, d.words[i], i, k);
    }
    assert k.word < |d.words| ==> (k in step(k.word) <==> IsAsciiKey(k.key) && SpelledAs(d.u, d.words[k.word], k.key));
  }

  /** The score of every eligible key, in order. */
  function Scores(d: Dictionary, candidate: string): (scores: seq<Option<real>>)
    ensures |scores| == |Keys(d)|
  {
    var keys := Keys(d);
    seq(|keys|, k requires 0 <= k < |keys| =>
      if Eligible(candidate, keys[k], d.threshold) then Some(Compare(candidate, keys[k].key).Score()) else None)
  }

  function MatchUpTo(d: Dictionary, candidate: string, n: nat): Option<Match>
    requires n <= |Keys(d)|
  {
    var scores := Scores(d, candidate);
    match Least(scores, n)
    case None => None
    case Some(k) => Some(Match(d.words[Keys(d)[k].word], scores[k].value))
  }

  /** The outcome of looking a candidate up among all keys. */
  function BestOf(d: Dictionary, candidate: string): Option<Match> {
    MatchUpTo(d, candidate, |Keys(d)|)
  }

  /** What the outcome means: the closest eligible key's word, the earliest of equally close ones. */
  lemma BestIsClosest(d: Dictionary, candidate: string)
    ensures var keys, scores := Keys(d), Scores(d, candidate);
            match BestOf(d, candidate)
            case None => forall k :: 0 <= k < |keys| ==> !Eligible(candidate, keys[k], d.threshold)
            case Some(m) => exists k: nat :: Earliest(scores, |keys|, k) && Eligible(candidate, keys[k], d.threshold)
                                          && m == Match(d.words[keys[k].word], Compare(candidate, keys[k].key).Score())
  {
    var keys, scores := Keys(d), Scores(d, candidate);
    match Least(scores, |keys|)
    case None =>
      forall k | 0 <= k < |keys| ensures !Eligible(candidate, keys[k], d.threshold) {
        assert scores[k].None?;
      }
    case Some(k) => assert Earliest(scores, |keys|, k);
  }

  /** The outcome after one more key. */
  lemma LookAtOne(d: Dictionary, candidate: string, key: Key, l: Likeness, i: nat)
    requires IsAsciiKey(candidate) && |candidate| <= MAX_KEY_CHARS
    requires i < |Keys(d)| && key == Keys(d)[i] && l == Compare(candidate, key.key)
    ensures var best := MatchUpTo(d, candidate, i);
            MatchUpTo(d, candidate, i + 1) ==
            if l.Skipped() || !l.Acceptable() || l.Score() >= d.threshold then best
            else if best.None? || l.Score() < best.value.score then Some(Match(d.words[key.word], l.Score())) else best
  {
    assert Scores(d, candidate)[i].Some? <==> Eligible(candidate, key, d.threshold);
  }

  lemma NothingForOddCandidates(d: Dictionary, candidate: string)
    requires !IsAsciiKey(candidate) || |candidate| > MAX_KEY_CHARS
    ensures BestOf(d, candidate).None?
  {
    var scores := Scores(d, candidate);
    assert forall k :: 0 <= k < |scores| ==> scores[k].None?;
  }

  /** `best_match`. */
  method BestMatch(d: Dictionary, keys: seq<Key>, candidate: string) returns (best: Option<Match>)
    requires keys == Keys(d)
    ensures best == BestOf(d, candidate)
  {
    best := None;
    if !IsAsciiKey(candidate) || |candidate| > MAX_KEY_CHARS {
      NothingForOddCandidates(d, candidate);
      return;
    }
    for i := 0 to |keys|
      invariant best == MatchUpTo(d, candidate, i)
    {
      var key := keys[i];
      var l := Compare(candidate, key.key);
      LookAtOne(d, candidate, key, l, i);
      if l.Skipped() || !l.Acceptable() {
        continue;
      }
      if l.Score() < d.threshold && (best.None? || l.Score() < best.value.score) {
        best := Some(Match(d.words[key.word], l.Score()));
      }
    }
  }

  // ------------------------------------------------------------------
  // The windows
  // ------------------------------------------------------------------

  /** No punctuation ends a token inside the window. */
  predicate Mergeable(u: Unicode, window: seq<string>) {
    forall k :: 0 <= k < |window| - 1 ==> Suffix(u, window[k]) == ""
  }

  function OfferAt(d: Dictionary, tokens: seq<string>, i: nat, n: nat): Option<Match> {
    if 1 <= n && i + n <= |tokens| && Mergeable(d.u, tokens[i..i + n])
    then BestOf(d, Candidate(d.u, tokens[i..i + n])) else None
  }

  /** What windows of up to three tokens offer at each position. */
  function OffersAt(d: Dictionary, tokens: seq<string>): nat -> Offers {
    (i: nat) => [None, OfferAt(d, tokens, i, 1), OfferAt(d, tokens, i, 2), OfferAt(d, tokens, i, 3)]
  }

  /** The token does not end in punctuation, or is nothing else. */
  predicate Unpunctuated(u: Unicode, token: string) {
    token == "" || u.alphanumeric(token[|token| - 1]) || !HasWord(u, token)
  }

  lemma NoSuffixMeans(u: Unicode, token: string)
    ensures Suffix(u, token) == "" <==> Unpunctuated(u, token)
  {
    var core := PunctuationSurrounds(u, token);
    TrailingIsLast(u, token);
    if core != "" {
      var back := Suffix(u, token);
      assert back != "" ==> token[|token| - 1] == back[|back| - 1];
      assert back == "" ==> token == Prefix(u, token) + core && token[|token| - 1] == core[|core| - 1];
    }
  }

  /** No token from `i` to `j` but the last ends in punctuation. */
  predicate Together(u: Unicode, tokens: seq<string>, i: nat, j: nat)
    requires j <= |tokens|
  {
    forall k: nat :: i <= k < j - 1 ==> Unpunctuated(u, tokens[k])
  }

  lemma MergeableMeans(u: Unicode, tokens: seq<string>, i: nat, n: nat)
    requires i + n <= |tokens|
    ensures Mergeable(u, tokens[i..i + n]) <==> Together(u, tokens, i, i + n)
  {
    var window := tokens[i..i + n];
    forall k: nat | k < n ensures Suffix(u, window[k]) == "" <==> Unpunctuated(u, tokens[i + k]) {
      NoSuffixMeans(u, tokens[i + k]);
    }
    assert forall k: nat :: i <= k < i + n ==> tokens[k] == window[k - i];
  }

  /** The closest word to the key of the window is the match's, with its score. */
  predicate IsClosest(d: Dictionary, window: seq<string>, found: Match) {
    BestOf(d, Candidate(d.u, window)) == Some(found)
  }

  /** On offer at a token is what windows of one, two or three tokens offer there. */
  lemma OfferedIs(d: Dictionary, tokens: seq<string>, i: nat, c: Choice)
    ensures Offered(OffersAt(d, tokens)(i), c) <==> 1 <= c.n <= 3 && OfferAt(d, tokens, i, c.n) == Some(c.found)
  {
    ThreeOffers(OfferAt(d, tokens, i, 1), OfferAt(d, tokens, i, 2), OfferAt(d, tokens, i, 3), c);
  }

  /** A window offers the closest word to its key, as long as none of its tokens but the last ends in punctuation. */
  lemma OfferIs(d: Dictionary, tokens: seq<string>, i: nat, n: nat, found: Match)
    ensures OfferAt(d, tokens, i, n) == Some(found)
       <==> 1 <= n && i + n <= |tokens| && Together(d.u, tokens, i, i + n) && IsClosest(d, tokens[i..i + n], found)
  {
    if i + n <= |tokens| { MergeableMeans(d.u, tokens, i, n); }
  }

  /** The inner loop of `apply`: windows of three, two and one tokens. */
  method PickWindow(d: Dictionary, keys: seq<Key>, tokens: seq<string>, i: nat) returns (best: Option<Choice>)
    requires keys == Keys(d) && i < |tokens|
    ensures Picks(OffersAt(d, tokens)(i), best) && (best.Some? ==> i + best.value.n <= |tokens|)
  {
    best := None;
    ghost var offers := OffersAt(d, tokens)(i);
    for n := 4 downto 1
      invariant PicksFrom(offers, n, best) && (best.Some? ==> i + best.value.n <= |tokens|)
    {
      assert offers[n] == OfferAt(d, tokens, i, n);
      NextOffer(offers, n, best);
      if i + n > |tokens| || !Mergeable(d.u, tokens[i..i + n]) {
        continue;
      }
      var found := BestMatch(d, keys, Candidate(d.u, tokens[i..i + n]));
      if found.Some? && (best.None? || found.value.score < best.value.found.score) {
        best := Some(Choice(n, found.value));
      }
    }
  }

  // ------------------------------------------------------------------
  // The whole transcript
  // ------------------------------------------------------------------

  /** What a segment contributes: its token verbatim, or the word in the token's case and punctuation. */
  function Piece(u: Unicode, tokens: seq<string>, s: Segment): string
    requires s.start < s.End() <= |tokens|
  {
    match s.pick
    case None => tokens[s.start]
    case Some(c) =>
      Prefix(u, tokens[s.start]) + KeepCase(u, tokens[s.start], c.found.word) + Suffix(u, tokens[s.End() - 1])
  }

  ghost predicate Written(u: Unicode, tokens: seq<string>, segments: seq<Segment>, pieces: seq<string>) {
    && |pieces| == |segments|
    && forall k :: 0 <= k < |segments| ==>
         segments[k].start < segments[k].End() <= |tokens| && pieces[k] == Piece(u, tokens, segments[k])
  }

  /** The walk over all tokens, and what it writes. */
  ghost predicate Walked(d: Dictionary, tokens: seq<string>, segments: seq<Segment>, pieces: seq<string>) {
    && Walk(OffersAt(d, tokens), |tokens|, segments) && Reached(segments) == |tokens|
    && Written(d.u, tokens, segments, pieces)
  }

  /** What correction makes of a transcript. */
  ghost predicate Corrected(d: Dictionary, text: string, out: string) {
    if d.words == [] then out == text
    else exists segments, pieces :: Walked(d, Split(d.u, text), segments, pieces) && out == Join(pieces)
  }

  lemma WriteOn(u: Unicode, tokens: seq<string>, segments: seq<Segment>, pieces: seq<string>, s: Segment)
    requires Written(u, tokens, segments, pieces) && s.start < s.End() <= |tokens|
    ensures Written(u, tokens, segments + [s], pieces + [Piece(u, tokens, s)])
  {
  }

  /** `apply`. */
  method Correct(d: Dictionary, text: string) returns (out: string)
    ensures Corrected(d, text, out)
  {
    if |d.words| == 0 {
      return text;
    }
    var keys, tokens := Keys(d), Split(d.u, text);
    ghost var offersAt := OffersAt(d, tokens);
    var pieces: seq<string> := [];
    ghost var segments: seq<Segment> := [];
    var i := 0;
    while i < |tokens|
      invariant Walk(offersAt, |tokens|, segments) && i == Reached(segments) <= |tokens|
      invariant Written(d.u, tokens, segments, pieces)
    {
      var best := PickWindow(d, keys, tokens, i);
      var step := Segment(i, best);
      WalkOn(offersAt, |tokens|, segments, best);
      WriteOn(d.u, tokens, segments, pieces, step);
      segments := segments + [step];
      pieces := pieces + [Piece(d.u, tokens, step)];
      i := step.End();
    }
    assert Walked(d, tokens, segments, pieces);
    out := Join(pieces);
  }

  /** An unmatched token is written as it stands. */
  lemma UnmatchedIsVerbatim(d: Dictionary, tokens: seq<string>, segments: seq<Segment>, pieces: seq<string>, k: nat)
    requires Walked(d, tokens, segments, pieces) && k < |segments| && segments[k].pick.None?
    ensures pieces[k] == tokens[segments[k].start]
  {
  }

  /** Without a vocabulary nothing changes at all. */
  lemma EmptyVocabulary(d: Dictionary, text: string, out: string)
    requires Corrected(d, text, out) && d.words == []
    ensures out == text
  {
  }

  /**
   A matched window is written as the configured word, in the case of the window's first token, behind
   the punctuation in front of that token and before the punctuation behind the window's last one.
   */
  lemma MatchedIsReplaced(d: Dictionary, tokens: seq<string>, segments: seq<Segment>, pieces: seq<string>, k: nat,
                          front: string, first: string, last: string, back: string)
    requires Walked(d, tokens, segments, pieces) && k < |segments| && segments[k].pick.Some?
    requires tokens[segments[k].start] == front + first
    requires !HasWord(d.u, front) && (first != "" ==> d.u.alphanumeric(first[0]))
    requires var end := segments[k].start + segments[k].pick.value.n; 1 <= end <= |tokens| && tokens[end - 1] == last + back
    requires !HasWord(d.u, back)
    requires if last != "" && d.u.alphanumeric(last[|last| - 1]) then true else !HasWord(d.u, last) && back == ""
    ensures pieces[k] == front + KeepCase(d.u, front + first, segments[k].pick.value.found.word) + back
  {
    PrefixIs(d.u, front, first);
    if last != "" && d.u.alphanumeric(last[|last| - 1]) {
      SuffixIs(d.u, last, back);
    } else {
      assert last + back == last;
      NoSuffixMeans(d.u, last);
    }
  }

  /** The vocabulary and the transcript decide the correction. */
  lemma CorrectionIsUnique(d: Dictionary, text: string, a: string, b: string)
    requires Corrected(d, text, a) && Corrected(d, text, b)
    ensures a == b
  {
    if d.words != [] {
      var tokens := Split(d.u, text);
      var x, p :| Walked(d, tokens, x, p) && a == Join(p);
      var y, q :| Walked(d, tokens, y, q) && b == Join(q);
      WalkIsUnique(OffersAt(d, tokens), |tokens|, x, y);
      assert p == q;
    }
  }

  /** Where no window matches, nothing changes but whitespace: a clean transcript is left as it is. */
  lemma UnmatchedIsCopied(d: Dictionary, text: string, out: string)
    requires Corrected(d, text, out) && d.words != []
    requires forall i: nat, c: Choice :: i < |Split(d.u, text)| ==> !Offered(OffersAt(d, Split(d.u, text))(i), c)
    ensures out == Join(Split(d.u, text))
  {
    var tokens := Split(d.u, text);
    var segments, pieces :| Walked(d, tokens, segments, pieces) && out == Join(pieces);
    forall k: nat | k < |segments| ensures segments[k] == Segment(k, None) {
      NothingToPick(OffersAt(d, tokens), |tokens|, segments, k);
    }
    assert pieces == tokens;
  }
}
