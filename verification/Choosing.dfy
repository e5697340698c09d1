/**
 Choosing the closest: the earliest of the best-scored keys, and at each position of a
 transcript the best of the windows there, then on from where that window ends. Scores
 and offers are parameters here.
 */
module Choosing {
  import opened Common

  // ------------------------------------------------------------------
  // The earliest least score
  // ------------------------------------------------------------------

  /** Entry `k` has the least score of the first `n`, and none before it is as low. */
  ghost predicate Earliest(scores: seq<Option<real>>, n: nat, k: nat)
    requires n <= |scores|
  {
    && k < n && scores[k].Some?
    && forall j :: 0 <= j < n && scores[j].Some? ==>
         scores[k].value < scores[j].value || (scores[k].value == scores[j].value && k <= j)
  }

  function Least(scores: seq<Option<real>>, n: nat): (r: Option<nat>)
    requires n <= |scores|
    ensures r.None? <==> forall j :: 0 <= j < n ==> scores[j].None?
    ensures r.Some? ==> Earliest(scores, n, r.value)
  {
    if n == 0 then None else
      var r := Least(scores, n - 1);
      if scores[n - 1].Some? && (r.None? || scores[n - 1].value < scores[r.value].value) then Some(n - 1) else r
  }

  // ------------------------------------------------------------------
  // Windows
  // ------------------------------------------------------------------

  datatype Match = Match(word: string, score: real)

  /** A window of `n` tokens and the match that replaces it. */
  datatype Choice = Choice(n: nat, found: Match)

  /** Entry `n` is what the window of `n` tokens offers. */
  type Offers = seq<Option<Match>>

  predicate Offered(offers: Offers, c: Choice) {
    c.n < |offers| && offers[c.n] == Some(c.found)
  }

  lemma ThreeOffers(one: Option<Match>, two: Option<Match>, three: Option<Match>, c: Choice)
    ensures Offered([None, one, two, three], c)
       <==> (c.n == 1 && one == Some(c.found)) || (c.n == 2 && two == Some(c.found)) || (c.n == 3 && three == Some(c.found))
  {
  }

  /** The first choice is closer than the second, or as close and longer, or the same. */
  predicate NotWorse(a: Choice, b: Choice) {
    a.found.score < b.found.score || (a.found.score == b.found.score && (a.n > b.n || a == b))
  }

  /** The best offer of a window of at least `from` tokens. */
  ghost predicate PicksFrom(offers: Offers, from: nat, r: Option<Choice>) {
    && (r.None? ==> forall c :: Offered(offers, c) ==> c.n < from)
    && (r.Some? ==> Offered(offers, r.value) && from <= r.value.n
                    && forall c :: Offered(offers, c) && from <= c.n ==> NotWorse(r.value, c))
  }

  ghost predicate Picks(offers: Offers, r: Option<Choice>) {
    PicksFrom(offers, 1, r)
  }

  lemma PickIsUnique(offers: Offers, a: Option<Choice>, b: Option<Choice>)
    requires Picks(offers, a) && Picks(offers, b)
    ensures a == b
  {
    if a.Some? && b.Some? {
      assert NotWorse(a.value, b.value) && NotWorse(b.value, a.value);
    }
  }

  /** Going on to the next shorter window: its offer is taken when it is strictly closer. */
  lemma NextOffer(offers: Offers, n: nat, r: Option<Choice>)
    requires PicksFrom(offers, n + 1, r) && n < |offers|
    ensures PicksFrom(offers, n,
                      if offers[n].Some? && (r.None? || offers[n].value.score < r.value.found.score)
                      then Some(Choice(n, offers[n].value)) else r)
  {
  }

  /** A step of the walk: where it is and what it picks there. */
  datatype Segment = Segment(start: nat, pick: Option<Choice>)
  {
    function End(): nat {
      start + if pick.None? then 1 else pick.value.n
    }
  }

  /** Step `k` starts where the one before ended, inside the text, with the best pick there. */
  ghost predicate StepAt(offersAt: nat -> Offers, size: nat, segments: seq<Segment>, k: nat)
    requires k < |segments|
  {
    && segments[k].start == (if k == 0 then 0 else segments[k - 1].End())
    && segments[k].start < segments[k].End() <= size
    && Picks(offersAt(segments[k].start), segments[k].pick)
  }

  function Reached(segments: seq<Segment>): nat {
    if segments == [] then 0 else segments[|segments| - 1].End()
  }

  /** Segments follow one another from the first token, each the best pick where it starts. */
  ghost predicate Walk(offersAt: nat -> Offers, size: nat, segments: seq<Segment>) {
    forall k: nat :: k < |segments| ==> StepAt(offersAt, size, segments, k)
  }

  lemma WalkOn(offersAt: nat -> Offers, size: nat, segments: seq<Segment>, pick: Option<Choice>)
    requires Walk(offersAt, size, segments) && Picks(offersAt(Reached(segments)), pick)
    requires Reached(segments) < size && (pick.Some? ==> Reached(segments) + pick.value.n <= size)
    ensures var longer := segments + [Segment(Reached(segments), pick)];
            Walk(offersAt, size, longer) && Reached(segments) < Reached(longer) <= size
  {
    var longer := segments + [Segment(Reached(segments), pick)];
    forall k: nat | k < |longer| ensures StepAt(offersAt, size, longer, k) {
      if k < |segments| { assert StepAt(offersAt, size, segments, k); }
    }
  }

  lemma {:induction false} WalksAgree(offersAt: nat -> Offers, size: nat, a: seq<Segment>, b: seq<Segment>, k: nat)
    requires Walk(offersAt, size, a) && Walk(offersAt, size, b) && k < |a| && k < |b|
    ensures a[k] == b[k]
  {
    if k == 0 {
    } else {
      WalksAgree(offersAt, size, a, b, k - 1);
    }
    assert StepAt(offersAt, size, a, k) && StepAt(offersAt, size, b, k);
    PickIsUnique(offersAt(a[k].start), a[k].pick, b[k].pick);
  }

  lemma WalkIsPrefix(offersAt: nat -> Offers, size: nat, a: seq<Segment>, b: seq<Segment>)
    requires Walk(offersAt, size, a) && Walk(offersAt, size, b) && |a| <= |b|
    requires Reached(a) == Reached(b) == size
    ensures a == b
  {
    forall k: nat | k < |a| ensures a[k] == b[k] {
      WalksAgree(offersAt, size, a, b, k);
    }
    assert |a| < |b| ==> StepAt(offersAt, size, b, |a|);
  }

  /** There is only one way to walk all the tokens. */
  lemma WalkIsUnique(offersAt: nat -> Offers, size: nat, a: seq<Segment>, b: seq<Segment>)
    requires Walk(offersAt, size, a) && Walk(offersAt, size, b) && Reached(a) == Reached(b) == size
    ensures a == b
  {
    if |a| <= |b| {
      WalkIsPrefix(offersAt, size, a, b);
    } else {
      WalkIsPrefix(offersAt, size, b, a);
    }
  }

  /** A walk takes the tokens in order, each once: one where nothing is picked, the whole window where something is. */
  lemma WalkPartitions(offersAt: nat -> Offers, size: nat, segments: seq<Segment>, k: nat)
    requires Walk(offersAt, size, segments) && Reached(segments) == size && k < |segments|
    ensures var next := segments[k].start + if segments[k].pick.None? then 1 else segments[k].pick.value.n;
            && (k == 0 ==> segments[k].start == 0)
            && (if k + 1 < |segments| then segments[k + 1].start == next else next == size)
  {
    assert StepAt(offersAt, size, segments, k);
    if k + 1 < |segments| { assert StepAt(offersAt, size, segments, k + 1); }
  }

  /** Where nothing is offered anywhere, every token is a step of its own. */
  lemma {:induction false} NothingToPick(offersAt: nat -> Offers, size: nat, segments: seq<Segment>, k: nat)
    requires Walk(offersAt, size, segments) && k < |segments|
    requires forall i: nat, c: Choice :: i < size ==> !Offered(offersAt(i), c)
    ensures segments[k] == Segment(k, None)
  {
    if k == 0 {
    } else {
      NothingToPick(offersAt, size, segments, k - 1);
    }
    assert StepAt(offersAt, size, segments, k);
  }
}
