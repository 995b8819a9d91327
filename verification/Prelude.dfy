/** Byte strings, options and the few sequence facts every other module uses. */
module Prelude {

  type byte = x: int | 0 <= x < 256

  type Bytes = seq<byte>

  datatype Option<+T> = None | Some(value: T) {
    predicate IsFailure() {
      None?
    }

    function PropagateFailure<U>(): Option<U>
      requires None?
    {
      None
    }

    function Extract(): T
      requires Some?
    {
      value
    }
  }

  datatype Result<+T> = Ok(value: T) | Err

  function Min(a: int, b: int): (m: int)
    ensures m <= a && m <= b && (m == a || m == b)
  {
    if a < b then a else b
  }

  function Max(a: int, b: int): int {
    if a < b then b else a
  }

  /** The bytes of a list of chunks, in order. */
  function Flatten(chunks: seq<Bytes>): Bytes {
    if chunks == [] then [] else chunks[0] + Flatten(chunks[1..])
  }

  lemma FlattenNone()
    ensures Flatten([]) == []
  {
  }

  lemma {:induction false} FlattenAppend(a: seq<Bytes>, b: seq<Bytes>)
    ensures Flatten(a + b) == Flatten(a) + Flatten(b)
  {
    if a == [] {
      assert a + b == b;
    } else {
      FlattenAppend(a[1..], b);
      assert (a + b)[0] == a[0] && (a + b)[1..] == a[1..] + b;
      ConcatAssoc(a[0], Flatten(a[1..]), Flatten(b));
    }
  }

  lemma FlattenSnoc(a: seq<Bytes>, d: Bytes)
    ensures Flatten(a + [d]) == Flatten(a) + d
  {
    FlattenAppend(a, [d]);
  }

  /** `a` is what is left of `b` when some of its elements are struck out. */
  predicate Subseq<T(==)>(a: seq<T>, b: seq<T>)
    decreases |b|
  {
    || a == []
    || (b != [] && (|| Subseq(a, b[..|b| - 1])
                    || (a[|a| - 1] == b[|b| - 1] && Subseq(a[..|a| - 1], b[..|b| - 1]))))
  }

  lemma SubseqSnoc<T>(a: seq<T>, b: seq<T>, x: T)
    requires Subseq(a, b)
    ensures Subseq(a, b + [x]) && Subseq(a + [x], b + [x])
  {
    assert (b + [x])[..|b|] == b && (a + [x])[..|a|] == a;
  }

  /** Striking out more. */
  lemma {:induction false} SubseqDrop<T>(a: seq<T>, m: seq<T>, q: seq<T>, b: seq<T>)
    requires Subseq(a + m + q, b)
    ensures Subseq(a + q, b)
    decreases |b|
  {
    var whole := a + m + q;
    if whole == [] {
      assert a + q == [];
    } else {
      var init, last := b[..|b| - 1], b[|b| - 1];
      assert b == init + [last];
      if Subseq(whole, init) {
        SubseqDrop(a, m, q, init);
        SubseqSnoc(a + q, init, last);
      } else if q != [] {
        assert whole[..|whole| - 1] == a + m + q[..|q| - 1];
        SubseqDrop(a, m, q[..|q| - 1], init);
        SubseqSnoc(a + q[..|q| - 1], init, last);
        assert a + q == a + q[..|q| - 1] + [last];
      } else if m != [] {
        assert whole[..|whole| - 1] == a + m[..|m| - 1] + q;
        SubseqDrop(a, m[..|m| - 1], q, init);
        SubseqSnoc(a + q, init, last);
      } else {
        assert a + q == whole;
      }
    }
  }

  lemma {:induction false} SubseqIn<T>(a: seq<T>, b: seq<T>)
    requires Subseq(a, b)
    ensures forall x :: x in a ==> x in b
    decreases |b|
  {
    if a != [] {
      if Subseq(a, b[..|b| - 1]) {
        SubseqIn(a, b[..|b| - 1]);
      } else {
        SubseqIn(a[..|a| - 1], b[..|b| - 1]);
        assert a == a[..|a| - 1] + [a[|a| - 1]];
      }
    }
  }

  lemma ConcatAssoc<T>(a: seq<T>, b: seq<T>, c: seq<T>)
    ensures a + b + c == a + (b + c)
  {
  }

  lemma PrefixTrans<T>(a: seq<T>, b: seq<T>, c: seq<T>)
    requires a <= b && b <= c
    ensures a <= c
  {
    assert a == b[..|a|] == c[..|a|];
  }
}
