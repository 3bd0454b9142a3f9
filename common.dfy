/**
 * Small shared vocabulary: an optional value, absolute value, min/max,
 * rounding to two or one decimals, and counting over sequences.
 *
 * Floating-point numbers of the system are modelled as `real`. Rounding
 * (`toFixed(2)` on the client, `round(x, 2)` on the server) is modelled over
 * integer hundredths with ties rounded upwards; IEEE tie behaviour is not
 * modelled.
 */
module Common {

  datatype Option<+T> = None | Some(value: T)

  function Abs(x: real): (r: real)
    ensures r >= 0.0
    ensures r == x || r == -x
  {
    if x < 0.0 then -x else x
  }

  function MinR(a: real, b: real): (r: real)
    ensures r <= a && r <= b
    ensures r == a || r == b
  {
    if a <= b then a else b
  }

  function MaxR(a: real, b: real): (r: real)
    ensures r >= a && r >= b
    ensures r == a || r == b
  {
    if a >= b then a else b
  }

  /** `MinR` on naturals, for lengths, counts and slice bounds. */
  function MinN(a: nat, b: nat): (r: nat)
    ensures r <= a && r <= b
    ensures r == a || r == b
  {
    if a <= b then a else b
  }

  /** Rounds to the nearest hundredth: the result is a whole number of
      hundredths within half a hundredth of x. */
  function Round2(x: real): (r: real)
    ensures x - 0.005 < r <= x + 0.005
    ensures (r * 100.0).Floor as real == r * 100.0
  {
    var k := (x * 100.0 + 0.5).Floor;
    assert (k as real / 100.0) * 100.0 == k as real;
    k as real / 100.0
  }

  /** Rounding an already rounded value changes nothing. */
  lemma Round2Idempotent(x: real)
    ensures Round2(Round2(x)) == Round2(x)
  {
    var r := Round2(x);
    var k := (r * 100.0).Floor;
    assert r * 100.0 == k as real;
    assert r * 100.0 + 0.5 == k as real + 0.5;
    assert (r * 100.0 + 0.5).Floor == k;
  }

  /** Python's `x or d` and JavaScript's `x || d` on a number: d when x is zero. */
  function OrDefault(x: real, d: real): (r: real)
    ensures x != 0.0 ==> r == x
    ensures x == 0.0 ==> r == d
  {
    if x != 0.0 then x else d
  }

  /** Sum of a sequence of reals. */
  function Sum(s: seq<real>): real
  {
    if s == [] then 0.0 else Sum(s[..|s| - 1]) + s[|s| - 1]
  }

  /** Arithmetic mean (numpy's `mean`); zero for the empty sequence is never used by callers. */
  function Mean(s: seq<real>): real
    requires |s| > 0
  {
    Sum(s) / (|s| as real)
  }

  /** The identity on booleans, so that flags can be counted with `CountIf`. */
  predicate IsTrue(b: bool)
  {
    b
  }

  /** Number of elements of `s` that satisfy `p`: the `filter(p).length` of the source. */
  function CountIf<T>(s: seq<T>, p: T -> bool): (n: nat)
    ensures n <= |s|
  {
    if s == [] then 0 else CountIf(s[..|s| - 1], p) + (if p(s[|s| - 1]) then 1 else 0)
  }

  /** The elements of `s` that satisfy `p`, in order: JavaScript's `filter`. */
  function Filter<T>(s: seq<T>, p: T -> bool): (r: seq<T>)
    ensures |r| == CountIf(s, p)
    ensures forall x :: x in r ==> x in s && p(x)
  {
    if s == [] then [] else Filter(s[..|s| - 1], p) + (if p(s[|s| - 1]) then [s[|s| - 1]] else [])
  }

  /** `idx` lists, in increasing order, the positions of `s` that spell `sub`. */
  ghost predicate Embeds<T>(idx: seq<nat>, sub: seq<T>, s: seq<T>)
  {
    && |idx| == |sub|
    && (forall k :: 0 <= k < |idx| ==> idx[k] < |s| && s[idx[k]] == sub[k])
    && (forall k, l :: 0 <= k < l < |idx| ==> idx[k] < idx[l])
  }

  /** `sub` is an order-preserving subsequence of `s`. */
  ghost predicate IsSubsequence<T>(sub: seq<T>, s: seq<T>)
  {
    exists idx: seq<nat> :: Embeds(idx, sub, s)
  }

  /** Appending an element to the whole sequence keeps a subsequence one. */
  lemma SubsequenceSkip<T>(sub: seq<T>, s: seq<T>, x: T)
    requires IsSubsequence(sub, s)
    ensures IsSubsequence(sub, s + [x])
  {
    var idx: seq<nat> :| Embeds(idx, sub, s);
    assert forall k :: 0 <= k < |idx| ==> (s + [x])[idx[k]] == s[idx[k]];
    assert Embeds(idx, sub, s + [x]);
  }

  /** Appending the same element to both keeps a subsequence one. */
  lemma SubsequenceTake<T>(sub: seq<T>, s: seq<T>, x: T)
    requires IsSubsequence(sub, s)
    ensures IsSubsequence(sub + [x], s + [x])
  {
    var idx: seq<nat> :| Embeds(idx, sub, s);
    var t, sub' := s + [x], sub + [x];
    var idx' := idx + [|s|];
    assert forall k :: 0 <= k < |idx| ==> idx'[k] == idx[k] && t[idx[k]] == s[idx[k]] && sub'[k] == sub[k];
    assert idx'[|idx|] == |s| && t[|s|] == x == sub'[|idx|];
    assert Embeds(idx', sub', t);
  }

  lemma {:induction false} FilterIsSubsequence<T>(s: seq<T>, p: T -> bool)
    ensures IsSubsequence(Filter(s, p), s)
  {
    if s == [] {
      assert Embeds([], Filter(s, p), s);
    } else {
      var init := s[..|s| - 1];
      var last := s[|s| - 1];
      assert s == init + [last];
      FilterIsSubsequence(init, p);
      if p(last) {
        assert Filter(s, p) == Filter(init, p) + [last];
        SubsequenceTake(Filter(init, p), init, last);
      } else {
        assert Filter(init, p) + [] == Filter(init, p);
        assert Filter(s, p) == Filter(init, p);
        SubsequenceSkip(Filter(init, p), init, last);
      }
    }
  }

  lemma {:induction false} FilterMembership<T>(s: seq<T>, p: T -> bool, x: T)
    ensures x in Filter(s, p) <==> x in s && p(x)
  {
    if s != [] {
      FilterMembership(s[..|s| - 1], p, x);
      assert s == s[..|s| - 1] + [s[|s| - 1]];
    }
  }

  lemma {:induction false} FilterAll<T>(s: seq<T>, p: T -> bool)
    requires forall x :: x in s ==> p(x)
    ensures Filter(s, p) == s
  {
    if s != [] {
      var init, last := s[..|s| - 1], s[|s| - 1];
      assert s == init + [last];
      assert forall x :: x in init ==> x in s;
      FilterAll(init, p);
      assert p(last);
      assert Filter(s, p) == Filter(init, p) + [last];
    }
  }

  /** Counts over disjoint predicates add up to at most the length. */
  lemma {:induction false} CountDisjoint3<T>(s: seq<T>, p: T -> bool, q: T -> bool, r: T -> bool)
    requires forall x :: !(p(x) && q(x)) && !(p(x) && r(x)) && !(q(x) && r(x))
    ensures CountIf(s, p) + CountIf(s, q) + CountIf(s, r) <= |s|
  {
    if s != [] {
      CountDisjoint3(s[..|s| - 1], p, q, r);
    }
  }

  /** A count is zero exactly when no element satisfies the predicate. */
  lemma {:induction false} CountIfZero<T>(s: seq<T>, p: T -> bool)
    ensures CountIf(s, p) == 0 <==> forall k :: 0 <= k < |s| ==> !p(s[k])
  {
    if s != [] {
      var init := s[..|s| - 1];
      CountIfZero(init, p);
      assert forall k :: 0 <= k < |init| ==> init[k] == s[k];
    }
  }

  /** A count equals the length exactly when every element satisfies the predicate. */
  lemma {:induction false} CountIfAll<T>(s: seq<T>, p: T -> bool)
    ensures CountIf(s, p) == |s| <==> forall k :: 0 <= k < |s| ==> p(s[k])
  {
    if s != [] {
      var init := s[..|s| - 1];
      CountIfAll(init, p);
      assert forall k :: 0 <= k < |init| ==> init[k] == s[k];
    }
  }

  /** Filtering with two predicates that agree everywhere gives the same result. */
  lemma {:induction false} FilterCongruent<T>(s: seq<T>, p: T -> bool, q: T -> bool)
    requires forall x :: p(x) == q(x)
    ensures Filter(s, p) == Filter(s, q)
  {
    if s != [] {
      FilterCongruent(s[..|s| - 1], p, q);
    }
  }
}
