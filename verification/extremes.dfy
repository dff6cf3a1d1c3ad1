/** First-occurrence extremes of a sequence of reals: what a linear scan
    that replaces its candidate only on a STRICT improvement returns. */
module Extremes {

  /** k is a maximum of s, and every earlier element is strictly smaller. */
  ghost predicate IsFirstMax(s: seq<real>, k: int)
  {
    && 0 <= k < |s|
    && (forall j :: 0 <= j < |s| ==> s[j] <= s[k])
    && (forall j :: 0 <= j < k ==> s[j] < s[k])
  }

  /** k is a minimum of s, and every earlier element is strictly larger. */
  ghost predicate IsFirstMin(s: seq<real>, k: int)
  {
    && 0 <= k < |s|
    && (forall j :: 0 <= j < |s| ==> s[k] <= s[j])
    && (forall j :: 0 <= j < k ==> s[k] < s[j])
  }

  /** Reference definition of the first arg-max, by recursion on the prefix. */
  function ArgMax(s: seq<real>): (k: nat)
    requires |s| > 0
    ensures IsFirstMax(s, k)
    decreases |s|
  {
    if |s| == 1 then 0
    else
      var k := ArgMax(s[..|s| - 1]);
      if s[|s| - 1] > s[k] then |s| - 1 else k
  }

  /** Reference definition of the first arg-min, by recursion on the prefix. */
  function ArgMin(s: seq<real>): (k: nat)
    requires |s| > 0
    ensures IsFirstMin(s, k)
    decreases |s|
  {
    if |s| == 1 then 0
    else
      var k := ArgMin(s[..|s| - 1]);
      if s[|s| - 1] < s[k] then |s| - 1 else k
  }

  /** There is only one first maximum. */
  lemma FirstMaxUnique(s: seq<real>, a: int, b: int)
    requires IsFirstMax(s, a) && IsFirstMax(s, b)
    ensures a == b
  {
    assert s[a] <= s[b] && s[b] <= s[a];
  }

  /** There is only one first minimum. */
  lemma FirstMinUnique(s: seq<real>, a: int, b: int)
    requires IsFirstMin(s, a) && IsFirstMin(s, b)
    ensures a == b
  {
    assert s[a] <= s[b] && s[b] <= s[a];
  }

  /** The first maximum and first minimum coincide exactly when all
      elements are equal, and then both are the first index. */
  lemma ExtremesCoincide(s: seq<real>)
    requires |s| > 0
    ensures ArgMax(s) == ArgMin(s) <==> (forall j :: 0 <= j < |s| ==> s[j] == s[0])
    ensures (forall j :: 0 <= j < |s| ==> s[j] == s[0]) ==> ArgMax(s) == 0 && ArgMin(s) == 0
  {
    var hi, lo := ArgMax(s), ArgMin(s);
    if hi == lo {
      forall j | 0 <= j < |s|
        ensures s[j] == s[0]
      {
        assert s[lo] <= s[j] <= s[hi];
        assert s[lo] <= s[0] <= s[hi];
      }
    }
    if forall j :: 0 <= j < |s| ==> s[j] == s[0] {
      assert IsFirstMax(s, 0);
      FirstMaxUnique(s, hi, 0);
      assert IsFirstMin(s, 0);
      FirstMinUnique(s, lo, 0);
    }
  }
}
