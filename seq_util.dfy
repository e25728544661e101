/** List helpers the runner relies on: `flatten_2d_lists`, right zero padding, `max`. */
module SeqUtil {

  /** `flatten_2d_lists`: the in-order concatenation of the inner lists. */
  function Flatten<T>(xss: seq<seq<T>>): seq<T>
  {
    if xss == [] then [] else Flatten(xss[..|xss| - 1]) + xss[|xss| - 1]
  }

  /** Sum of the inner lengths. */
  function TotalLen<T>(xss: seq<seq<T>>): nat
  {
    if xss == [] then 0 else TotalLen(xss[..|xss| - 1]) + |xss[|xss| - 1]|
  }

  lemma {:induction false} FlattenLength<T>(xss: seq<seq<T>>)
    ensures |Flatten(xss)| == TotalLen(xss)
  {
    if xss != [] {
      FlattenLength(xss[..|xss| - 1]);
    }
  }

  lemma {:induction false} FlattenAppend<T>(xss: seq<seq<T>>, yss: seq<seq<T>>)
    ensures Flatten(xss + yss) == Flatten(xss) + Flatten(yss)
    decreases |yss|
  {
    if yss == [] {
      assert xss + yss == xss;
    } else {
      var n := |yss| - 1;
      assert (xss + yss)[..|xss + yss| - 1] == xss + yss[..n];
      FlattenAppend(xss, yss[..n]);
    }
  }

  /** Flattening one more inner list appends it at the end (the shape of an `extend` loop). */
  lemma FlattenSnoc<T>(xss: seq<seq<T>>, ys: seq<T>)
    ensures Flatten(xss + [ys]) == Flatten(xss) + ys
  {
    assert (xss + [ys])[..|xss|] == xss;
  }

  /** Concatenation regrouped; stated once so that callers need not make the solver find it. */
  lemma AppendAssoc<T>(a: seq<T>, b: seq<T>, c: seq<T>)
    ensures a + b + c == a + (b + c)
  {
  }

  /** A prefix one longer is the shorter prefix and the next element. */
  lemma TakeSnoc<T>(s: seq<T>, k: nat)
    requires k < |s|
    ensures s[..k + 1] == s[..k] + [s[k]]
  {
  }

  /** Overwriting entry `i` of a half-copied sequence copies one entry more. */
  lemma SpliceStep<T>(a: seq<T>, b: seq<T>, i: nat)
    requires |a| == |b| && i < |a|
    ensures (a[..i] + b[i..])[i := a[i]] == a[..i + 1] + b[i + 1..]
  {
    var l, r := (a[..i] + b[i..])[i := a[i]], a[..i + 1] + b[i + 1..];
    assert forall k :: 0 <= k < |a| ==> l[k] == r[k];
  }

  /** Python's `[0] * k`: a negative or zero count gives the empty list. */
  function Zeros(k: int): (r: seq<int>)
    ensures |r| == if k <= 0 then 0 else k
    ensures forall i :: 0 <= i < |r| ==> r[i] == 0
  {
    if k <= 0 then [] else seq(k, _ => 0)
  }

  /** `s.extend([0] * (n - len(s)))`: right zero padding up to `n`, never truncating. */
  function PadTo(s: seq<int>, n: int): (r: seq<int>)
    ensures |r| == if |s| < n then n else |s|
    ensures r[..|s|] == s
    ensures forall i :: |s| <= i < |r| ==> r[i] == 0
  {
    s + Zeros(n - |s|)
  }

  /** Padding to the same length twice adds nothing the second time. */
  lemma PadToIdempotent(s: seq<int>, n: int)
    ensures PadTo(PadTo(s, n), n) == PadTo(s, n)
  {
    var p := PadTo(s, n);
    assert Zeros(n - |p|) == [];
    assert p + [] == p;
  }

  /** Python's `max` on a non-empty list. */
  function MaxOf(xs: seq<int>): (m: int)
    requires |xs| > 0
    ensures m in xs
    ensures forall i :: 0 <= i < |xs| ==> xs[i] <= m
  {
    if |xs| == 1 then xs[0]
    else
      var rest := MaxOf(xs[..|xs| - 1]);
      if xs[|xs| - 1] > rest then xs[|xs| - 1] else rest
  }
}
