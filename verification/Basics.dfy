/** Definitions shared by every component: bytes, optional values, flattening and
    the subsequence relation ("nothing reordered, duplicated or invented"). */
module Basics {

  type Byte = x: int | 0 <= x < 256

  datatype Option<+T> = None | Some(value: T)

  /** The bytes of a sequence of frames, in order. */
  function Flat<T>(frames: seq<seq<T>>): seq<T> {
    if frames == [] then [] else frames[0] + Flat(frames[1..])
  }

  lemma {:induction false} FlatConcat<T>(a: seq<seq<T>>, b: seq<seq<T>>)
    ensures Flat(a + b) == Flat(a) + Flat(b)
  {
    if a == [] {
      assert a + b == b;
    } else {
      calc {
        Flat(a + b);
        { assert (a + b)[0] == a[0] && (a + b)[1..] == a[1..] + b; }
        a[0] + Flat(a[1..] + b);
        { FlatConcat(a[1..], b); }
        a[0] + (Flat(a[1..]) + Flat(b));
        (a[0] + Flat(a[1..])) + Flat(b);
      }
    }
  }

  lemma FlatSnoc<T>(a: seq<seq<T>>, f: seq<T>)
    ensures Flat(a + [f]) == Flat(a) + f
  {
    FlatConcat(a, [f]);
    assert [f][1..] == [];
    assert f + [] == f;
  }

  /** a can be obtained from b by deleting elements of b. */
  predicate IsSubsequence<T(==)>(a: seq<T>, b: seq<T>) {
    a == [] ||
    (b != [] && ((a[0] == b[0] && IsSubsequence(a[1..], b[1..])) || IsSubsequence(a, b[1..])))
  }

  lemma {:induction false} SubsequenceRefl<T>(a: seq<T>)
    ensures IsSubsequence(a, a)
  {
    if a != [] {
      SubsequenceRefl(a[1..]);
    }
  }

  lemma SubsequenceWiden<T>(a: seq<T>, b: seq<T>)
    requires b != [] && IsSubsequence(a, b[1..])
    ensures IsSubsequence(a, b)
  {
  }

  lemma {:induction false} SubsequenceTrans<T>(a: seq<T>, b: seq<T>, c: seq<T>)
    requires IsSubsequence(a, b) && IsSubsequence(b, c)
    ensures IsSubsequence(a, c)
    decreases |b| + |c|
  {
    if a != [] {
      if b[0] == c[0] && IsSubsequence(b[1..], c[1..]) {
        if a[0] == b[0] && IsSubsequence(a[1..], b[1..]) {
          SubsequenceTrans(a[1..], b[1..], c[1..]);
        } else {
          SubsequenceTrans(a, b[1..], c[1..]);
        }
      } else {
        SubsequenceTrans(a, b, c[1..]);
      }
    }
  }

  lemma {:induction false} SubsequenceConcat<T>(a: seq<T>, b: seq<T>, c: seq<T>, d: seq<T>)
    requires IsSubsequence(a, b) && IsSubsequence(c, d)
    ensures IsSubsequence(a + c, b + d)
    decreases |b|
  {
    if b == [] {
      assert a + c == c && b + d == d;
    } else if a != [] && a[0] == b[0] && IsSubsequence(a[1..], b[1..]) {
      SubsequenceConcat(a[1..], b[1..], c, d);
      assert (a + c)[1..] == a[1..] + c && (b + d)[1..] == b[1..] + d;
    } else {
      SubsequenceConcat(a, b[1..], c, d);
      assert (b + d)[1..] == b[1..] + d;
    }
  }

  /** Deleting one element in the middle gives a subsequence. */
  lemma SubsequenceDrop<T>(a: seq<T>, x: T, b: seq<T>)
    ensures IsSubsequence(a + b, a + [x] + b)
  {
    SubsequenceRefl(a);
    SubsequenceRefl(b);
    assert ([x] + b)[1..] == b;
    SubsequenceWiden(b, [x] + b);
    SubsequenceConcat(a, a, b, [x] + b);
    assert a + [x] + b == a + ([x] + b);
  }

  lemma PrefixIsSubsequence<T>(a: seq<T>, b: seq<T>)
    requires a <= b
    ensures IsSubsequence(a, b)
  {
    SubsequenceRefl(a);
    SubsequenceConcat(a, a, [], b[|a|..]);
    assert b == a + b[|a|..] && a + [] == a;
  }

  /** A subsequence is never longer, and equally long only when nothing was deleted. */
  lemma {:induction false} SubsequenceLength<T>(a: seq<T>, b: seq<T>)
    requires IsSubsequence(a, b)
    ensures |a| <= |b|
    ensures |a| == |b| ==> a == b
    decreases b
  {
    if a != [] {
      if a[0] == b[0] && IsSubsequence(a[1..], b[1..]) {
        SubsequenceLength(a[1..], b[1..]);
        assert a == [a[0]] + a[1..] && b == [b[0]] + b[1..];
      } else {
        SubsequenceLength(a, b[1..]);
      }
    }
  }

  lemma {:induction false} SubsequenceFlat<T>(a: seq<seq<T>>, b: seq<seq<T>>)
    requires IsSubsequence(a, b)
    ensures IsSubsequence(Flat(a), Flat(b))
    decreases b
  {
    if a != [] {
      if a[0] == b[0] && IsSubsequence(a[1..], b[1..]) {
        SubsequenceFlat(a[1..], b[1..]);
        SubsequenceRefl(a[0]);
        SubsequenceConcat(a[0], b[0], Flat(a[1..]), Flat(b[1..]));
      } else {
        SubsequenceFlat(a, b[1..]);
        SubsequenceConcat([], b[0], Flat(a), Flat(b[1..]));
        assert [] + Flat(a) == Flat(a);
      }
    }
  }
}
