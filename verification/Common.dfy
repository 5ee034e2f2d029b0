/** Values shared by every part of the model. */
module Common {
  datatype Option<+T> = None | Some(value: T)

  type Byte = b: int | 0 <= b < 256

  type Bytes = seq<Byte>

  /** A collision-free digest: the value names what was hashed, so equal digests mean equal inputs. */
  datatype Digest<+T> = Sha256(preimage: T)

  /** The concatenation of a sequence of chunks. */
  function Flatten<T>(chunks: seq<seq<T>>): seq<T> {
    if chunks == [] then [] else chunks[0] + Flatten(chunks[1..])
  }

  lemma {:induction false} FlattenAppend<T>(xs: seq<seq<T>>, ys: seq<seq<T>>)
    ensures Flatten(xs + ys) == Flatten(xs) + Flatten(ys)
  {
    if xs == [] {
      assert xs + ys == ys;
    } else {
      var zs := xs + ys;
      FlattenAppend(xs[1..], ys);
      assert zs[0] == xs[0] && zs[1..] == xs[1..] + ys;
      assert Flatten(zs) == xs[0] + (Flatten(xs[1..]) + Flatten(ys));
      AppendAssociates(xs[0], Flatten(xs[1..]), Flatten(ys));
    }
  }

  lemma AppendAssociates<T>(x: seq<T>, y: seq<T>, z: seq<T>)
    ensures x + (y + z) == (x + y) + z
  {
  }

  /** One chunk more. */
  lemma FlattenSnoc<T>(xs: seq<seq<T>>, x: seq<T>)
    ensures Flatten(xs + [x]) == Flatten(xs) + x
  {
    FlattenAppend(xs, [x]);
    FlattenOne(x);
  }

  lemma FlattenOne<T>(x: seq<T>)
    ensures Flatten([x]) == x
  {
    var none: seq<seq<T>> := [];
    assert [x][1..] == none;
    assert x + [] == x;
  }

  predicate Distinct<T(==)>(s: seq<T>) {
    forall i, j :: 0 <= i < j < |s| ==> s[i] != s[j]
  }

  /** The pieces of n elements that make up s; only the last may be shorter. */
  function Split<T>(s: seq<T>, n: nat): (pieces: seq<seq<T>>)
    requires n > 0
    decreases |s|
  {
    if s == [] then []
    else if |s| <= n then [s]
    else [s[..n]] + Split(s[n..], n)
  }

  lemma {:induction false} SplitRestores<T>(s: seq<T>, n: nat)
    requires n > 0
    ensures Flatten(Split(s, n)) == s
    ensures forall p :: p in Split(s, n) ==> 1 <= |p| <= n
    decreases |s|
  {
    if 0 < |s| <= n {
      assert [s][1..] == [] && Flatten(Split(s, n)) == s + [];
    } else if s != [] {
      SplitRestores(s[n..], n);
      assert Split(s, n)[1..] == Split(s[n..], n);
    }
  }
}
