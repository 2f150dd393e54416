/**
 * The ranking step of the "Predict Crop" handler: the classifier's class labels are
 * zipped with the probabilities it returns, the pairs are sorted in place by
 * probability, highest first, with Python's stable sort, and the first three are shown.
 */
module Ranker {

  /** One (crop label, probability) pair as produced by zip(classes, probs). */
  datatype Pair = Pair(crop: string, prob: real)

  /** How many recommendations are shown. */
  const TopK: nat := 3

  function Min(a: int, b: int): int {
    if a <= b then a else b
  }

  /**
   * Python's zip: pairs by position and stops at the end of the shorter input,
   * so a length mismatch is silently truncated rather than reported.
   */
  function Zip(classes: seq<string>, probs: seq<real>): (r: seq<Pair>)
    ensures |r| == Min(|classes|, |probs|)
    ensures forall i :: 0 <= i < |r| ==> r[i] == Pair(classes[i], probs[i])
  {
    if classes == [] || probs == [] then []
    else [Pair(classes[0], probs[0])] + Zip(classes[1..], probs[1..])
  }

  /** Ordered non-increasing by probability. */
  predicate SortedDesc(s: seq<Pair>) {
    forall i, j :: 0 <= i < j < |s| ==> s[i].prob >= s[j].prob
  }

  /** The pairs of s whose probability is p, in the order s has them. */
  function WithProb(s: seq<Pair>, p: real): (r: seq<Pair>)
    ensures |r| <= |s|
  {
    if s == [] then []
    else (if s[0].prob == p then [s[0]] else []) + WithProb(s[1..], p)
  }

  /**
   * t keeps the relative order that s gives to every group of pairs with equal
   * probability; together with SortedDesc this is what a stable sort promises.
   */
  ghost predicate Stable(s: seq<Pair>, t: seq<Pair>) {
    forall p :: WithProb(t, p) == WithProb(s, p)
  }

  /**
   * Inserts x into t in front of the first pair whose probability is not larger
   * than x's, so x lands before every pair it ties with.
   */
  function Insert(x: Pair, t: seq<Pair>): (r: seq<Pair>)
    ensures |r| == |t| + 1
  {
    if t == [] || t[0].prob <= x.prob then [x] + t
    else [t[0]] + Insert(x, t[1..])
  }

  /**
   * Reference definition of pairs.sort(key=lambda x: x[1], reverse=True):
   * each pair is inserted into the ranking of the pairs after it, ahead of those it ties with.
   */
  function Ranked(s: seq<Pair>): (r: seq<Pair>)
    ensures |r| == |s|
  {
    if s == [] then [] else Insert(s[0], Ranked(s[1..]))
  }

  /** pairs[:k]: the first k pairs, or all of them when there are fewer. */
  function Top(ranked: seq<Pair>, k: nat): (r: seq<Pair>)
    ensures |r| == Min(k, |ranked|)
    ensures forall i :: 0 <= i < |r| ==> r[i] == ranked[i]
  {
    ranked[..Min(k, |ranked|)]
  }

  lemma {:induction false} WithProbAppend(a: seq<Pair>, b: seq<Pair>, p: real)
    ensures WithProb(a + b, p) == WithProb(a, p) + WithProb(b, p)
  {
    if a == [] {
      assert a + b == b;
    } else {
      var head := if a[0].prob == p then [a[0]] else [];
      assert (a + b)[0] == a[0];
      assert (a + b)[1..] == a[1..] + b;
      calc {
        WithProb(a + b, p);
        head + WithProb(a[1..] + b, p);
        { WithProbAppend(a[1..], b, p); }
        head + (WithProb(a[1..], p) + WithProb(b, p));
        (head + WithProb(a[1..], p)) + WithProb(b, p);
      }
    }
  }

  lemma {:induction false} WithProbMembers(s: seq<Pair>, p: real, x: Pair)
    requires x in WithProb(s, p)
    ensures x in s && x.prob == p
  {
    if s != [] {
      if x != s[0] || s[0].prob != p {
        WithProbMembers(s[1..], p, x);
      }
    }
  }

  /** Swapping two neighbours with different probabilities leaves every tie group alone. */
  lemma {:induction false} SwapKeepsTies(s: seq<Pair>, j: int)
    requires 0 < j < |s| && s[j - 1].prob != s[j].prob
    ensures Stable(s, s[j - 1 := s[j]][j := s[j - 1]])
  {
    var t := s[j - 1 := s[j]][j := s[j - 1]];
    assert s == s[..j - 1] + ([s[j - 1]] + [s[j]]) + s[j + 1..];
    assert t == s[..j - 1] + ([s[j]] + [s[j - 1]]) + s[j + 1..];
    forall p ensures WithProb(t, p) == WithProb(s, p) {
      WithProbAppend(s[..j - 1] + ([s[j - 1]] + [s[j]]), s[j + 1..], p);
      WithProbAppend(s[..j - 1], [s[j - 1]] + [s[j]], p);
      WithProbAppend(s[..j - 1] + ([s[j]] + [s[j - 1]]), s[j + 1..], p);
      WithProbAppend(s[..j - 1], [s[j]] + [s[j - 1]], p);
      WithProbAppend([s[j - 1]], [s[j]], p);
      WithProbAppend([s[j]], [s[j - 1]], p);
    }
  }

  lemma {:induction false} InsertPerm(x: Pair, t: seq<Pair>)
    ensures multiset(Insert(x, t)) == multiset(t) + multiset{x}
  {
    if t != [] && t[0].prob > x.prob {
      InsertPerm(x, t[1..]);
      assert t == [t[0]] + t[1..];
    }
  }

  lemma {:induction false} InsertSorted(x: Pair, t: seq<Pair>)
    requires SortedDesc(t)
    ensures SortedDesc(Insert(x, t))
  {
    if t != [] && t[0].prob > x.prob {
      var r := Insert(x, t[1..]);
      InsertSorted(x, t[1..]);
      assert r[0] == x || r[0] == t[1];
      var s := [t[0]] + r;
      assert Insert(x, t) == s;
      forall i, j | 0 <= i < j < |s| ensures s[i].prob >= s[j].prob {
        assert s[j] == r[j - 1];
        if i == 0 {
          assert t[0].prob >= r[0].prob >= r[j - 1].prob;
        } else {
          assert s[i] == r[i - 1];
        }
      }
    }
  }

  lemma {:induction false} InsertTies(x: Pair, t: seq<Pair>, p: real)
    ensures WithProb(Insert(x, t), p) == WithProb([x], p) + WithProb(t, p)
  {
    if t == [] || t[0].prob <= x.prob {
      WithProbAppend([x], t, p);
    } else {
      var r := Insert(x, t[1..]);
      InsertTies(x, t[1..], p);
      assert t == [t[0]] + t[1..];
      WithProbAppend([t[0]], r, p);
      WithProbAppend([t[0]], t[1..], p);
    }
  }

  /** The reference ranking is ordered, a permutation of its input, and stable. */
  lemma {:induction false} RankedSpec(s: seq<Pair>)
    ensures SortedDesc(Ranked(s))
    ensures multiset(Ranked(s)) == multiset(s)
    ensures Stable(s, Ranked(s))
  {
    if s != [] {
      RankedSpec(s[1..]);
      InsertSorted(s[0], Ranked(s[1..]));
      InsertPerm(s[0], Ranked(s[1..]));
      assert s == [s[0]] + s[1..];
      forall p ensures WithProb(Ranked(s), p) == WithProb(s, p) {
        InsertTies(s[0], Ranked(s[1..]), p);
        WithProbAppend([s[0]], s[1..], p);
      }
    }
  }

  /**
   * An ordering by probability that is stable with respect to the same input is
   * unique: any two such results are the same sequence.
   */
  lemma {:induction false} SortedStableUnique(a: seq<Pair>, b: seq<Pair>)
    requires SortedDesc(a) && SortedDesc(b)
    requires forall p :: WithProb(a, p) == WithProb(b, p)
    ensures a == b
    decreases |a|
  {
    if a == [] && b == [] {
    } else if a == [] {
      assert false;
    } else if b == [] {
      assert a[0] in WithProb(a, a[0].prob);
      WithProbMembers(b, a[0].prob, a[0]);
    } else {
      assert a[0] in WithProb(a, a[0].prob);
      WithProbMembers(b, a[0].prob, a[0]);
      assert b[0] in WithProb(b, b[0].prob);
      WithProbMembers(a, b[0].prob, b[0]);
      assert a[0].prob == b[0].prob;
      assert WithProb(a, a[0].prob)[0] == a[0];
      assert WithProb(b, a[0].prob)[0] == b[0];
      forall p ensures WithProb(a[1..], p) == WithProb(b[1..], p) {
        var head := if a[0].prob == p then [a[0]] else [];
        assert WithProb(a, p) == head + WithProb(a[1..], p);
        assert WithProb(b, p) == head + WithProb(b[1..], p);
        assert (head + WithProb(a[1..], p))[|head|..] == WithProb(a[1..], p);
        assert (head + WithProb(b[1..], p))[|head|..] == WithProb(b[1..], p);
      }
      SortedStableUnique(a[1..], b[1..]);
      assert a == [a[0]] + a[1..] && b == [b[0]] + b[1..];
    }
  }

  /**
   * pairs.sort(key=lambda x: x[1], reverse=True), in place: an insertion sort that
   * moves a pair left only past strictly less probable pairs, so ties keep their order.
   */
  method SortByProbDesc(a: array<Pair>)
    modifies a
    ensures SortedDesc(a[..])
    ensures multiset(a[..]) == multiset(old(a[..]))
    ensures Stable(old(a[..]), a[..])
    ensures a[..] == Ranked(old(a[..]))
  {
    ghost var original := a[..];
    var i := 0;
    while i < a.Length
      invariant 0 <= i <= a.Length
      invariant forall k, l :: 0 <= k < l < i ==> a[k].prob >= a[l].prob
      invariant Stable(original, a[..])
    {
      var j := i;
      while j > 0 && a[j - 1].prob < a[j].prob
        invariant 0 <= j <= i
        invariant forall k, l :: 0 <= k < l <= i && k != j && l != j ==> a[k].prob >= a[l].prob
        invariant forall l :: j < l <= i ==> a[j].prob > a[l].prob
        invariant Stable(original, a[..])
        decreases j
      {
        SwapKeepsTies(a[..], j);
        a[j - 1], a[j] := a[j], a[j - 1];
        j := j - 1;
      }
      i := i + 1;
    }
    RankedSpec(original);
    SortedStableUnique(a[..], Ranked(original));
  }

  /**
   * The recommendations are the first k ranked pairs: in order, drawn from the input,
   * and at least as probable as every pair left out.
   */
  lemma {:induction false} TopIsMostProbable(pairs: seq<Pair>, k: nat)
    ensures SortedDesc(Top(Ranked(pairs), k))
    ensures multiset(Top(Ranked(pairs), k)) <= multiset(pairs)
    ensures forall x, y :: x in Top(Ranked(pairs), k) && y in multiset(pairs) - multiset(Top(Ranked(pairs), k))
              ==> x.prob >= y.prob
  {
    var ranked := Ranked(pairs);
    var n := Min(k, |ranked|);
    RankedSpec(pairs);
    assert Top(ranked, k) == ranked[..n];
    CutSplits(ranked, n);
    forall x, y | x in ranked[..n] && y in multiset(pairs) - multiset(ranked[..n]) ensures x.prob >= y.prob {
      BelowCut(ranked, n, x, y);
    }
  }

  lemma {:induction false} CutSplits(s: seq<Pair>, n: nat)
    requires n <= |s|
    ensures multiset(s[..n]) + multiset(s[n..]) == multiset(s)
  {
    assert s == s[..n] + s[n..];
  }

  lemma {:induction false} BelowCut(ranked: seq<Pair>, n: nat, x: Pair, y: Pair)
    requires SortedDesc(ranked) && n <= |ranked|
    requires x in ranked[..n] && y in multiset(ranked) - multiset(ranked[..n])
    ensures x.prob >= y.prob
  {
    CutSplits(ranked, n);
    assert y in multiset(ranked[n..]);
    var i :| 0 <= i < n && ranked[..n][i] == x;
    var j :| 0 <= j < |ranked| - n && ranked[n..][j] == y;
    assert ranked[i] == x && ranked[n + j] == y;
  }

  /** Pairs that tie keep the classifier's order among the recommendations too. */
  lemma {:induction false} TopKeepsTieOrder(pairs: seq<Pair>, k: nat, p: real)
    ensures exists n :: 0 <= n <= |WithProb(pairs, p)| && WithProb(Top(Ranked(pairs), k), p) == WithProb(pairs, p)[..n]
  {
    var ranked := Ranked(pairs);
    var top := Top(ranked, k);
    RankedSpec(pairs);
    assert ranked == top + ranked[|top|..];
    WithProbAppend(top, ranked[|top|..], p);
    var n := |WithProb(top, p)|;
    assert WithProb(top, p) == WithProb(pairs, p)[..n];
  }

  /**
   * list(zip(classes, probs)), sorted in place and cut to the first three: the
   * recommendations the handler displays.
   */
  method Recommend(classes: seq<string>, probs: seq<real>) returns (top: seq<Pair>)
    ensures |top| == Min(TopK, Min(|classes|, |probs|))
    ensures top == Top(Ranked(Zip(classes, probs)), TopK)
    ensures SortedDesc(top)
    ensures multiset(top) <= multiset(Zip(classes, probs))
  {
    var pairs := Zip(classes, probs);
    var a := new Pair[|pairs|](i requires 0 <= i < |pairs| => pairs[i]);
    assert a[..] == pairs;
    SortByProbDesc(a);
    top := a[..Min(TopK, a.Length)];
    TopIsMostProbable(pairs, TopK);
  }

  /** The worked example: wheat 0.2, rice 0.5, maize 0.3 rank as rice, maize, wheat. */
  lemma RankExample()
    ensures Top(Ranked(Zip(["wheat", "rice", "maize"], [0.2, 0.5, 0.3])), TopK)
         == [Pair("rice", 0.5), Pair("maize", 0.3), Pair("wheat", 0.2)]
  {
  }

  /** Tied probabilities keep the classifier's order. */
  lemma TieExample()
    ensures Top(Ranked(Zip(["a", "b"], [0.5, 0.5])), TopK) == [Pair("a", 0.5), Pair("b", 0.5)]
  {
  }
}
