/** Detections returned by the model and the confidence filter applied to them. */
module Predictions {

  /** One detection: the predicted class label and the model's confidence in it. */
  datatype Prediction = Prediction(classLabel: string, confidence: real)

  /** The minimum confidence a detection needs to be shown. */
  const ConfidenceThreshold: real := 0.45

  /**
   * The detections whose confidence is at least `threshold`, in their
   * original order: an element is kept exactly when it is in the input and
   * meets the threshold.
   */
  function FilterAbove(ps: seq<Prediction>, threshold: real): (kept: seq<Prediction>)
    ensures |kept| <= |ps|
    ensures forall p :: p in kept <==> p in ps && p.confidence >= threshold
  {
    if ps == [] then []
    else if ps[0].confidence >= threshold then [ps[0]] + FilterAbove(ps[1..], threshold)
    else FilterAbove(ps[1..], threshold)
  }

  /** `sub` is obtained from `s` by deleting elements, the rest keeping their order. */
  ghost predicate IsSubsequence<T>(sub: seq<T>, s: seq<T>)
    decreases |s|
  {
    if sub == [] then true
    else if s == [] then false
    else (sub[0] == s[0] && IsSubsequence(sub[1..], s[1..])) || IsSubsequence(sub, s[1..])
  }

  /** The filter only deletes: what it keeps is a subsequence of its input. */
  lemma {:induction false} FilterIsSubsequence(ps: seq<Prediction>, threshold: real)
    ensures IsSubsequence(FilterAbove(ps, threshold), ps)
  {
    if ps != [] {
      FilterIsSubsequence(ps[1..], threshold);
      var kept := FilterAbove(ps, threshold);
      if ps[0].confidence >= threshold {
        assert kept[0] == ps[0] && kept[1..] == FilterAbove(ps[1..], threshold);
      }
    }
  }

  /** The filter works element by element, so it keeps the relative order of any split of its input. */
  lemma {:induction false} FilterAppend(a: seq<Prediction>, b: seq<Prediction>, threshold: real)
    ensures FilterAbove(a + b, threshold) == FilterAbove(a, threshold) + FilterAbove(b, threshold)
  {
    if a == [] {
      assert a + b == b;
    } else {
      assert (a + b)[0] == a[0];
      assert (a + b)[1..] == a[1..] + b;
      FilterAppend(a[1..], b, threshold);
    }
  }

  /** A list in which every detection meets the threshold passes through unchanged. */
  lemma {:induction false} FilterKeepsPassingList(ps: seq<Prediction>, threshold: real)
    requires forall i :: 0 <= i < |ps| ==> ps[i].confidence >= threshold
    ensures FilterAbove(ps, threshold) == ps
  {
    if ps != [] {
      FilterKeepsPassingList(ps[1..], threshold);
    }
  }

  /** Filtering twice gives the same list as filtering once. */
  lemma {:induction false} FilterIdempotent(ps: seq<Prediction>, threshold: real)
    ensures FilterAbove(FilterAbove(ps, threshold), threshold) == FilterAbove(ps, threshold)
  {
    var kept := FilterAbove(ps, threshold);
    forall i | 0 <= i < |kept|
      ensures kept[i].confidence >= threshold
    {
      assert kept[i] in kept;
    }
    FilterKeepsPassingList(kept, threshold);
  }

  /** Nothing is kept exactly when no detection reaches the threshold (the empty list included). */
  lemma FilterEmptyIff(ps: seq<Prediction>, threshold: real)
    ensures FilterAbove(ps, threshold) == [] <==> forall i :: 0 <= i < |ps| ==> ps[i].confidence < threshold
  {
  }
}
