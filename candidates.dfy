/** Transcript candidates, backend outcomes, and the stable ranking the
    Google backend applies to its alternatives. */
module Candidates {
  import opened Common

  /** One hypothesised transcript. A backend that gives no confidence is
      recorded with the sentinel Absent. */
  datatype Candidate = Candidate(confidence: real, text: string)

  const Absent: real := -1.0

  /** What one backend call ends in: the candidate list (Google's ranked,
      DeepSpeech's in the model's order) and the time it took, or the
      exception it raised. */
  datatype Outcome =
    | Recognized(candidates: seq<Candidate>, runtime: real)
    | Raised(error: Exception)

  /** Ordered by confidence, highest first (ties in any order). */
  predicate NonIncreasing(s: seq<Candidate>)
  {
    forall i, j :: 0 <= i < j < |s| ==> s[i].confidence >= s[j].confidence
  }

  /** The candidates of s whose confidence is v, in the order of s. A sort
      is stable exactly when it keeps every one of these subsequences. */
  function WithConfidence(s: seq<Candidate>, v: real): seq<Candidate>
  {
    if s == [] then []
    else if s[0].confidence == v then [s[0]] + WithConfidence(s[1..], v)
    else WithConfidence(s[1..], v)
  }

  /** Puts c in front of the first element of s that is not more confident
      than c, so that c precedes every later tie. */
  function Insert(c: Candidate, s: seq<Candidate>): (r: seq<Candidate>)
    ensures |r| == |s| + 1
  {
    if s == [] || s[0].confidence <= c.confidence then [c] + s
    else [s[0]] + Insert(c, s[1..])
  }

  lemma {:induction false} InsertPermutes(c: Candidate, s: seq<Candidate>)
    ensures multiset(Insert(c, s)) == multiset(s) + multiset{c}
  {
    if s != [] && s[0].confidence > c.confidence {
      InsertPermutes(c, s[1..]);
      assert s == [s[0]] + s[1..];
    }
  }

  lemma {:induction false} InsertKeepsOrder(c: Candidate, s: seq<Candidate>)
    requires NonIncreasing(s)
    ensures NonIncreasing(Insert(c, s))
  {
    if s != [] && s[0].confidence > c.confidence {
      var tail := Insert(c, s[1..]);
      InsertKeepsOrder(c, s[1..]);
      InsertPermutes(c, s[1..]);
      forall k | 0 <= k < |tail| ensures s[0].confidence >= tail[k].confidence {
        assert tail[k] in multiset(tail);
        if tail[k] != c {
          assert tail[k] in s[1..];
        }
      }
    }
  }

  lemma {:induction false} InsertKeepsTies(c: Candidate, s: seq<Candidate>, v: real)
    ensures WithConfidence(Insert(c, s), v)
         == (if c.confidence == v then [c] else []) + WithConfidence(s, v)
  {
    if s == [] || s[0].confidence <= c.confidence {
      assert ([c] + s)[1..] == s;
    } else {
      InsertKeepsTies(c, s[1..], v);
      assert ([s[0]] + Insert(c, s[1..]))[1..] == Insert(c, s[1..]);
    }
  }

  /** Python's sorted(s, key=confidence, reverse=True): a stable sort,
      highest confidence first. */
  function SortByConfidence(s: seq<Candidate>): (r: seq<Candidate>)
    ensures |r| == |s|
    ensures multiset(r) == multiset(s)
    ensures NonIncreasing(r)
    ensures forall v :: WithConfidence(r, v) == WithConfidence(s, v)
  {
    if s == [] then []
    else
      var rest := SortByConfidence(s[1..]);
      InsertPermutes(s[0], rest);
      InsertKeepsOrder(s[0], rest);
      forall v ensures WithConfidence(Insert(s[0], rest), v) == WithConfidence(s, v) {
        InsertKeepsTies(s[0], rest, v);
      }
      assert s == [s[0]] + s[1..];
      Insert(s[0], rest)
  }

  lemma {:induction false} WithConfidenceFrom(s: seq<Candidate>, v: real)
    ensures forall x :: x in WithConfidence(s, v) ==> x in s && x.confidence == v
  {
    if s != [] {
      WithConfidenceFrom(s[1..], v);
    }
  }

  lemma HeadHasTies(s: seq<Candidate>)
    ensures s != [] ==> WithConfidence(s, s[0].confidence) != []
  {
  }

  /** Sortedness and stability together leave no freedom: two orderings that
      are both non-increasing and agree on every run of ties are equal. */
  lemma {:induction false} StableOrderUnique(a: seq<Candidate>, b: seq<Candidate>)
    requires NonIncreasing(a) && NonIncreasing(b)
    requires forall v :: WithConfidence(a, v) == WithConfidence(b, v)
    ensures a == b
  {
    HeadHasTies(a);
    HeadHasTies(b);
    if a != [] && b != [] {
      var va, vb := a[0].confidence, b[0].confidence;
      WithConfidenceFrom(a, vb);
      WithConfidenceFrom(b, va);
      var x := WithConfidence(a, vb)[0];
      var y := WithConfidence(b, va)[0];
      assert x in a && x.confidence == vb;
      assert y in b && y.confidence == va;
      assert va == vb;
      assert a[0] == WithConfidence(a, va)[0] == WithConfidence(b, va)[0] == b[0];
      forall w ensures WithConfidence(a[1..], w) == WithConfidence(b[1..], w) {
        var head := if va == w then [a[0]] else [];
        assert WithConfidence(a, w) == head + WithConfidence(a[1..], w);
        assert WithConfidence(b, w) == head + WithConfidence(b[1..], w);
        assert WithConfidence(a, w) == WithConfidence(b, w);
        assert (head + WithConfidence(a[1..], w))[|head|..] == WithConfidence(a[1..], w);
        assert (head + WithConfidence(b[1..], w))[|head|..] == WithConfidence(b[1..], w);
      }
      StableOrderUnique(a[1..], b[1..]);
      assert a == [a[0]] + a[1..] && b == [b[0]] + b[1..];
    }
  }

  /** r orders the candidates of s by descending confidence and keeps every
      run of ties in the order s has it. */
  ghost predicate StableDescending(s: seq<Candidate>, r: seq<Candidate>)
  {
    NonIncreasing(r) && forall v :: WithConfidence(r, v) == WithConfidence(s, v)
  }

  /** The sorted list is the one and only ordering of the input that is
      non-increasing in confidence and keeps ties in their original order. */
  lemma SortCharacterized(s: seq<Candidate>, r: seq<Candidate>)
    ensures r == SortByConfidence(s) <==> StableDescending(s, r)
  {
    var sorted := SortByConfidence(s);
    if StableDescending(s, r) {
      forall v ensures WithConfidence(r, v) == WithConfidence(sorted, v) {
        assert WithConfidence(sorted, v) == WithConfidence(s, v);
      }
      StableOrderUnique(r, sorted);
    }
  }
}
