/** Scanning a sequence from the front: the first position whose element
    satisfies a predicate. Both reconciler loops and the server-string
    parser stop at such a first position. */
module Sequences {

  /** The index of the first element satisfying `p`, or `|s|` when there is none. */
  function FirstWhere<T>(s: seq<T>, p: T -> bool): (k: nat)
    ensures k <= |s|
    ensures k < |s| ==> p(s[k])
    ensures forall j :: 0 <= j < k ==> !p(s[j])
    decreases |s|
  {
    if s == [] then 0
    else if p(s[0]) then 0
    else 1 + FirstWhere(s[1..], p)
  }

  /** The first position is determined by its two defining facts. */
  lemma FirstWhereIs<T>(s: seq<T>, p: T -> bool, k: nat)
    requires k <= |s|
    requires k < |s| ==> p(s[k])
    requires forall j :: 0 <= j < k ==> !p(s[j])
    ensures FirstWhere(s, p) == k
  {
  }

  /** Nothing in `s` satisfies `p` exactly when the scan runs off the end. */
  lemma FirstWhereNone<T>(s: seq<T>, p: T -> bool)
    ensures FirstWhere(s, p) == |s| <==> forall j :: 0 <= j < |s| ==> !p(s[j])
  {
  }

  /** Scanning a concatenation whose left part has no hit continues in the right part. */
  lemma {:induction false} FirstWhereAppend<T>(a: seq<T>, b: seq<T>, p: T -> bool)
    requires forall j :: 0 <= j < |a| ==> !p(a[j])
    ensures FirstWhere(a + b, p) == |a| + FirstWhere(b, p)
  {
    var k := |a| + FirstWhere(b, p);
    forall j | 0 <= j < k
      ensures !p((a + b)[j])
    {
      if j >= |a| {
        assert (a + b)[j] == b[j - |a|];
      }
    }
    if k < |a + b| {
      assert (a + b)[k] == b[k - |a|];
    }
    FirstWhereIs(a + b, p, k);
  }

  /** The sequence without its element at `k`. */
  function RemoveAt<T>(s: seq<T>, k: nat): (r: seq<T>)
    requires k < |s|
    ensures |r| == |s| - 1
    ensures forall j :: 0 <= j < k ==> r[j] == s[j]
    ensures forall j :: k <= j < |r| ==> r[j] == s[j + 1]
  {
    s[..k] + s[k + 1..]
  }

  /** Removing one element removes exactly one occurrence of it. */
  lemma RemoveAtMultiset<T>(s: seq<T>, k: nat)
    requires k < |s|
    ensures multiset(RemoveAt(s, k)) + multiset{s[k]} == multiset(s)
  {
    assert s == s[..k] + [s[k]] + s[k + 1..];
  }
}
