/**
 * Ragged arrays: a list of variable-length lists stored as one flat list plus
 * an offset index giving where each inner list starts. Both the flattener
 * (its `event_hits_index` datasets) and the merger (its row concatenation)
 * are instances of this layout.
 */
module Ragged {

  /** All inner lists joined in order. */
  function Concat<T>(ls: seq<seq<T>>): seq<T>
  {
    if ls == [] then [] else Concat(ls[..|ls| - 1]) + ls[|ls| - 1]
  }

  /** Sum of the inner lists' lengths. */
  function TotalLength<T>(ls: seq<seq<T>>): nat
  {
    if ls == [] then 0 else TotalLength(ls[..|ls| - 1]) + |ls[|ls| - 1]|
  }

  /** The offset index: one entry per inner list, the flat position where it starts. */
  function Offsets<T>(ls: seq<seq<T>>): (r: seq<nat>)
    ensures |r| == |ls|
  {
    if ls == [] then [] else Offsets(ls[..|ls| - 1]) + [|Concat(ls[..|ls| - 1])|]
  }

  /** Every value of `xs` increased by `d`. */
  function Shift(xs: seq<int>, d: int): (r: seq<int>)
    ensures |r| == |xs|
    ensures forall i :: 0 <= i < |xs| ==> r[i] == xs[i] + d
  {
    seq(|xs|, i requires 0 <= i < |xs| => xs[i] + d)
  }

  predicate NonDecreasing(xs: seq<int>)
  {
    forall i, j :: 0 <= i <= j < |xs| ==> xs[i] <= xs[j]
  }

  lemma {:induction false} ConcatLength<T>(ls: seq<seq<T>>)
    ensures |Concat(ls)| == TotalLength(ls)
  {
    if ls != [] {
      ConcatLength(ls[..|ls| - 1]);
    }
  }

  lemma {:induction false} ConcatAppend<T>(a: seq<seq<T>>, b: seq<seq<T>>)
    ensures Concat(a + b) == Concat(a) + Concat(b)
  {
    if b == [] {
      assert a + b == a;
    } else {
      var n := |b| - 1;
      assert (a + b)[..|a + b| - 1] == a + b[..n];
      ConcatAppend(a, b[..n]);
    }
  }

  /** Extending the list by one inner list extends the flat list by it. */
  lemma ConcatSnoc<T>(ls: seq<seq<T>>, x: seq<T>)
    ensures Concat(ls + [x]) == Concat(ls) + x
    ensures Offsets(ls + [x]) == Offsets(ls) + [|Concat(ls)|]
  {
    assert (ls + [x])[..|ls|] == ls;
  }

  /** Growing a prefix of `ls` by one list appends that list to the concatenation. */
  lemma ConcatPrefixStep<T>(ls: seq<seq<T>>, j: nat)
    requires j < |ls|
    ensures Concat(ls[..j + 1]) == Concat(ls[..j]) + ls[j]
  {
    assert ls[..j + 1][..j] == ls[..j];
  }

  /** Entry i of the index is the total length of the lists before i. */
  lemma {:induction false} OffsetAt<T>(ls: seq<seq<T>>, i: nat)
    requires i < |ls|
    ensures Offsets(ls)[i] == |Concat(ls[..i])|
  {
    var n := |ls| - 1;
    if i < n {
      OffsetAt(ls[..n], i);
      assert ls[..n][..i] == ls[..i];
    }
  }

  /** The index starts at 0. */
  lemma OffsetsStartAtZero<T>(ls: seq<seq<T>>)
    requires |ls| > 0
    ensures Offsets(ls)[0] == 0
  {
    OffsetAt(ls, 0);
  }

  /** Consecutive index entries differ by the length of the list between them. */
  lemma OffsetStep<T>(ls: seq<seq<T>>, i: nat)
    requires i + 1 < |ls|
    ensures Offsets(ls)[i + 1] == Offsets(ls)[i] + |ls[i]|
  {
    OffsetAt(ls, i);
    OffsetAt(ls, i + 1);
    assert ls[..i + 1] == ls[..i] + [ls[i]];
    ConcatSnoc(ls[..i], ls[i]);
  }

  /** The last list runs from its index entry to the end of the flat list. */
  lemma OffsetLast<T>(ls: seq<seq<T>>)
    requires |ls| > 0
    ensures Offsets(ls)[|ls| - 1] + |ls[|ls| - 1]| == |Concat(ls)|
  {
  }

  /** The index never decreases. */
  lemma OffsetsNonDecreasing<T>(ls: seq<seq<T>>)
    ensures NonDecreasing(Offsets(ls))
  {
    forall i, j | 0 <= i <= j < |ls|
      ensures Offsets(ls)[i] <= Offsets(ls)[j]
    {
      OffsetAt(ls, i);
      OffsetAt(ls, j);
      assert ls[..j] == ls[..i] + ls[i..j];
      ConcatAppend(ls[..i], ls[i..j]);
    }
  }

  /** Random access: list i is the slice of the flat list that the index names. */
  lemma SliceAt<T>(ls: seq<seq<T>>, i: nat)
    requires i < |ls|
    ensures Offsets(ls)[i] + |ls[i]| <= |Concat(ls)|
    ensures Concat(ls)[Offsets(ls)[i] .. Offsets(ls)[i] + |ls[i]|] == ls[i]
  {
    OffsetAt(ls, i);
    assert ls == ls[..i] + [ls[i]] + ls[i + 1..];
    ConcatAppend(ls[..i] + [ls[i]], ls[i + 1..]);
    ConcatSnoc(ls[..i], ls[i]);
  }

  /** Element k of list i sits at flat position index[i] + k. */
  lemma ElementAt<T>(ls: seq<seq<T>>, i: nat, k: nat)
    requires i < |ls| && k < |ls[i]|
    ensures Offsets(ls)[i] + k < |Concat(ls)|
    ensures Concat(ls)[Offsets(ls)[i] + k] == ls[i][k]
  {
    SliceAt(ls, i);
  }

  /** Joining two ragged lists: the second index is re-based by the first flat length. */
  lemma {:induction false} OffsetsAppend<T>(a: seq<seq<T>>, b: seq<seq<T>>)
    ensures Offsets(a + b) == Offsets(a) + Shift(Offsets(b), |Concat(a)|)
  {
    if b == [] {
      assert a + b == a;
    } else {
      var n := |b| - 1;
      assert a + b == (a + b[..n]) + [b[n]];
      OffsetsAppend(a, b[..n]);
      ConcatSnoc(a + b[..n], b[n]);
      ConcatAppend(a, b[..n]);
      ConcatSnoc(b[..n], b[n]);
      assert b == b[..n] + [b[n]];
    }
  }
}
