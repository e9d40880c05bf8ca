/** Sequence facts used by the saved-questions store: reversal (the
    array's `reverse()`) and order-preserving selection (what `filter`
    returns). */
module Lists {

  /** `xs.reverse()` as a value: the last element comes first. */
  function Reverse<T>(xs: seq<T>): (r: seq<T>)
    ensures |r| == |xs|
  {
    if xs == [] then [] else [xs[|xs| - 1]] + Reverse(xs[..|xs| - 1])
  }

  lemma {:induction false} ReverseAt<T>(xs: seq<T>, i: nat)
    requires i < |xs|
    ensures Reverse(xs)[i] == xs[|xs| - 1 - i]
  {
    if i > 0 {
      ReverseAt(xs[..|xs| - 1], i - 1);
    }
  }

  lemma ReverseElements<T>(xs: seq<T>)
    ensures forall i :: 0 <= i < |xs| ==> Reverse(xs)[i] == xs[|xs| - 1 - i]
  {
    forall i | 0 <= i < |xs| {
      ReverseAt(xs, i);
    }
  }

  /** Reversing twice gives the original order back. */
  lemma ReverseInvolution<T>(xs: seq<T>)
    ensures Reverse(Reverse(xs)) == xs
  {
    ReverseElements(xs);
    ReverseElements(Reverse(xs));
  }

  lemma ReverseAppend<T>(xs: seq<T>, ys: seq<T>)
    ensures Reverse(xs + ys) == Reverse(ys) + Reverse(xs)
  {
    ReverseElements(xs + ys);
    ReverseElements(xs);
    ReverseElements(ys);
  }

  /** `sub` is `xs` with some elements left out and the rest kept in order. */
  predicate IsSubsequence<T(==)>(sub: seq<T>, xs: seq<T>)
    decreases |xs|
  {
    if sub == [] then true
    else if xs == [] then false
    else if sub[0] == xs[0] then IsSubsequence(sub[1..], xs[1..])
    else IsSubsequence(sub, xs[1..])
  }
}
