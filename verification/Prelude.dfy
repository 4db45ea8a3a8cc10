/** Small shared vocabulary: options, bytes and byte-string helpers. */
module Prelude {
  datatype Option<+T> = None | Some(value: T)

  newtype byte = b: int | 0 <= b < 0x100

  type Bytes = seq<byte>

  /** Concatenation of a list of sequences. */
  function Flat<T>(parts: seq<seq<T>>): (all: seq<T>)
  {
    if parts == [] then [] else parts[0] + Flat(parts[1..])
  }

  lemma Assoc<T>(a: seq<T>, b: seq<T>, c: seq<T>)
    ensures a + b + c == a + (b + c)
  {
  }

  lemma {:induction false} FlatAppend<T>(xs: seq<seq<T>>, ys: seq<seq<T>>)
    ensures Flat(xs + ys) == Flat(xs) + Flat(ys)
  {
    if xs == [] {
      assert xs + ys == ys;
    } else {
      FlatAppend(xs[1..], ys);
      assert (xs + ys)[0] == xs[0] && (xs + ys)[1..] == xs[1..] + ys;
      Assoc(xs[0], Flat(xs[1..]), Flat(ys));
    }
  }

  /** Index of the first occurrence of `x` at or after `from`, if any. */
  function FindFrom<T(==)>(s: seq<T>, x: T, from: nat): (r: Option<nat>)
    ensures r.Some? ==> from <= r.value < |s| && s[r.value] == x && forall i :: from <= i < r.value ==> s[i] != x
    ensures r.None? ==> forall i :: from <= i < |s| ==> s[i] != x
    decreases |s| - from
  {
    if from >= |s| then None
    else if s[from] == x then Some(from)
    else FindFrom(s, x, from + 1)
  }
}
