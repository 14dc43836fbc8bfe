/** Optional values and Swift's `compactMap`, shared by the decoders. */
module Wrappers {

  /** Swift's `T?`. */
  datatype Option<+T> = None | Some(value: T) {

    /** Swift's `x ?? default`. */
    function GetOr(default: T): T {
      match this
      case Some(v) => v
      case None => default
    }
  }

  /** The payloads of the `Some` entries of `s`, in order: what Swift's
      `compactMap` returns once its transform has been applied to every
      element. Defined on the last element so that a loop appending to a
      result follows it step by step. */
  function Somes<T>(s: seq<Option<T>>): (r: seq<T>)
    ensures |r| <= |s|
  {
    if s == [] then []
    else Somes(s[..|s| - 1]) + (if s[|s| - 1].Some? then [s[|s| - 1].value] else [])
  }

  /** The positions of the `Some` entries of `s`, in increasing order. */
  function SomeIndices<T>(s: seq<Option<T>>): seq<nat>
  {
    if s == [] then []
    else SomeIndices(s[..|s| - 1]) + (if s[|s| - 1].Some? then [|s| - 1] else [])
  }

  /** `Somes(s)` is exactly the in-order subsequence of the present values:
      the k-th survivor comes from position `SomeIndices(s)[k]`, positions
      strictly increase, and every present value is kept. */
  lemma {:induction false} SomesIsSubsequence<T>(s: seq<Option<T>>)
    ensures |SomeIndices(s)| == |Somes(s)|
    ensures forall k :: 0 <= k < |SomeIndices(s)| ==>
              SomeIndices(s)[k] < |s| && s[SomeIndices(s)[k]] == Some(Somes(s)[k])
    ensures forall k, l :: 0 <= k < l < |SomeIndices(s)| ==> SomeIndices(s)[k] < SomeIndices(s)[l]
    ensures forall i :: 0 <= i < |s| && s[i].Some? ==> i in SomeIndices(s)
  {
    if s != [] {
      var n := |s| - 1;
      var init := s[..n];
      SomesIsSubsequence(init);
      forall i | 0 <= i < n ensures s[i] == init[i] { }
      if s[n].Some? {
        assert SomeIndices(s) == SomeIndices(init) + [n];
        assert Somes(s) == Somes(init) + [s[n].value];
      } else {
        assert SomeIndices(s) == SomeIndices(init);
        assert Somes(s) == Somes(init);
      }
    }
  }

  /** Mapping over a concatenation keeps the two halves apart. */
  lemma {:induction false} SomesAppend<T>(a: seq<Option<T>>, b: seq<Option<T>>)
    ensures Somes(a + b) == Somes(a) + Somes(b)
    decreases |b|
  {
    if b == [] {
      assert a + b == a;
    } else {
      var b' := b[..|b| - 1];
      assert (a + b)[..|a + b| - 1] == a + b';
      SomesAppend(a, b');
    }
  }

  /** Nothing is dropped when every entry is present. */
  lemma {:induction false} SomesAllPresent<T>(s: seq<Option<T>>)
    requires forall i :: 0 <= i < |s| ==> s[i].Some?
    ensures |Somes(s)| == |s|
    ensures forall i :: 0 <= i < |s| ==> Somes(s)[i] == s[i].value
  {
    if s != [] {
      SomesAllPresent(s[..|s| - 1]);
    }
  }
}
