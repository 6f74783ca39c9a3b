/** Small shared vocabulary: an optional value, bytes, and list concatenation. */
module Util {

  /** An optional value: `None` where the program produces nothing. */
  datatype Option<T> = None | Some(value: T) {

    /** The value as a sequence of zero or one elements. */
    function ToSeq(): (s: seq<T>)
      ensures |s| <= 1
      ensures Some? <==> |s| == 1
      ensures Some? ==> s[0] == value
    {
      match this
      case None => []
      case Some(v) => [v]
    }
  }

  /** One octet of a Node `Buffer`. */
  newtype byte = x: int | 0 <= x < 256

  /** The concatenation of a list of sequences, first to last: what `Buffer.concat`
      does to a list of byte blocks, and what a series of delivered batches adds up to. */
  function Flatten<T>(ss: seq<seq<T>>): seq<T>
  {
    if ss == [] then [] else ss[0] + Flatten(ss[1..])
  }

  /** The total number of elements in a list of sequences. */
  function TotalLength<T>(ss: seq<seq<T>>): nat
  {
    if ss == [] then 0 else |ss[0]| + TotalLength(ss[1..])
  }

  /** Concatenating two lists of blocks and then flattening is flattening each and
      concatenating the results. */
  lemma {:induction false} FlattenAppend<T>(a: seq<seq<T>>, b: seq<seq<T>>)
    ensures Flatten(a + b) == Flatten(a) + Flatten(b)
  {
    if a == [] {
      assert a + b == b;
    } else {
      assert (a + b)[1..] == a[1..] + b;
      FlattenAppend(a[1..], b);
    }
  }

  /** Flattening a list with one more block in front prepends that block. */
  lemma FlattenCons<T>(x: seq<T>, ss: seq<seq<T>>)
    ensures Flatten([x] + ss) == x + Flatten(ss)
  {
    assert ([x] + ss)[1..] == ss;
  }

  /** Flattening one more block appends that block. */
  lemma FlattenSnoc<T>(a: seq<seq<T>>, x: seq<T>)
    ensures Flatten(a + [x]) == Flatten(a) + x
  {
    FlattenAppend(a, [x]);
    assert [x][1..] == [];
  }

  /** The flattened list is exactly as long as all its blocks together. */
  lemma {:induction false} FlattenLength<T>(ss: seq<seq<T>>)
    ensures |Flatten(ss)| == TotalLength(ss)
  {
    if ss != [] {
      FlattenLength(ss[1..]);
    }
  }

  /** A block sits, unchanged, between the blocks before it and the blocks after
      it: the concatenation keeps the arrival order. */
  lemma FlattenSplit<T>(before: seq<seq<T>>, x: seq<T>, after: seq<seq<T>>)
    ensures Flatten(before + [x] + after) == Flatten(before) + x + Flatten(after)
  {
    FlattenAppend(before + [x], after);
    FlattenSnoc(before, x);
  }
}
