/** Small datatypes shared by every module of the model. */
module Common {

  datatype Option<+T> = None | Some(value: T)

  datatype Result<+T, +E> = Ok(value: T) | Err(error: E)

  type byte = x: int | 0 <= x < 256

  type Bytes = seq<byte>

  function Min(a: int, b: int): int {
    if a <= b then a else b
  }

  /** The concatenation of a list of byte strings. */
  function Flatten(xs: seq<Bytes>): Bytes {
    if xs == [] then [] else xs[0] + Flatten(xs[1..])
  }

  lemma {:induction false} FlattenAppend(xs: seq<Bytes>, ys: seq<Bytes>)
    ensures Flatten(xs + ys) == Flatten(xs) + Flatten(ys)
  {
    if xs == [] {
      assert xs + ys == ys;
    } else {
      assert (xs + ys)[0] == xs[0] && (xs + ys)[1..] == xs[1..] + ys;
      calc {
        Flatten(xs + ys);
        xs[0] + Flatten(xs[1..] + ys);
        { FlattenAppend(xs[1..], ys); }
        xs[0] + (Flatten(xs[1..]) + Flatten(ys));
        (xs[0] + Flatten(xs[1..])) + Flatten(ys);
        Flatten(xs) + Flatten(ys);
      }
    }
  }

  lemma Cut<T>(a: seq<T>, b: seq<T>)
    ensures (a + b)[..|a|] == a && (a + b)[|a|..] == b
  {
  }

  lemma SliceOfSlice<T>(s: seq<T>, from: nat, to: nat, i: nat, j: nat)
    requires from <= to <= |s| && i <= j <= to - from
    ensures s[from..to][i..j] == s[from + i..from + j]
  {
    var whole, part := s[from..to], s[from + i..from + j];
    forall k | 0 <= k < j - i
      ensures whole[i..j][k] == part[k]
    {
      assert whole[i + k] == s[from + i + k];
    }
  }

  /** Overwriting a stretch of `s` with `e` changes that stretch and nothing else. */
  lemma SlicesOfSplice<T>(s: seq<T>, at: nat, e: seq<T>, i: nat, j: nat)
    requires at + |e| <= |s| && i <= j <= |s|
    ensures var t := s[..at] + e + s[at + |e|..];
      && |t| == |s|
      && t[at..at + |e|] == e
      && (j <= at || at + |e| <= i ==> t[i..j] == s[i..j])
  {
  }
}
