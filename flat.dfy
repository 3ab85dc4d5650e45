/**
 * Flat buffers built by appending chunks: the builder appends three numbers
 * per vertex position, two per UV, six indices per face, and so on. This
 * module relates such a buffer to the chunks it was built from.
 */
module Flat {

  /** The chunks appended one after another, first chunk first. */
  function Flatten<T>(chunks: seq<seq<T>>): seq<T>
  {
    if chunks == [] then [] else Flatten(chunks[..|chunks| - 1]) + chunks[|chunks| - 1]
  }

  /** Every chunk holds exactly `n` elements. */
  predicate Uniform<T>(chunks: seq<seq<T>>, n: nat)
  {
    forall k :: 0 <= k < |chunks| ==> |chunks[k]| == n
  }

  /** Appending one more chunk appends its elements to the flat buffer. */
  lemma FlattenSnoc<T>(chunks: seq<seq<T>>, x: seq<T>)
    ensures Flatten(chunks + [x]) == Flatten(chunks) + x
  {
    assert (chunks + [x])[..|chunks|] == chunks;
  }

  lemma {:induction false} FlattenLength<T>(chunks: seq<seq<T>>, n: nat)
    requires Uniform(chunks, n)
    ensures |Flatten(chunks)| == n * |chunks|
  {
    if chunks != [] {
      var m := |chunks| - 1;
      assert Uniform(chunks[..m], n);
      FlattenLength(chunks[..m], n);
      assert |chunks[m]| == n;
      assert n * m + n == n * |chunks|;
    }
  }

  /** Element `r` of chunk `i` sits at `n * i + r` of the flat buffer. */
  lemma {:induction false} FlattenAt<T>(chunks: seq<seq<T>>, n: nat, i: nat, r: nat)
    requires Uniform(chunks, n)
    requires i < |chunks| && r < n
    ensures |Flatten(chunks)| == n * |chunks|
    ensures n * i + r < |Flatten(chunks)| && Flatten(chunks)[n * i + r] == chunks[i][r]
  {
    FlattenLength(chunks, n);
    MulMonotone(n, i + 1, |chunks|);
    assert n * i + n == n * (i + 1);
    var m := |chunks| - 1;
    var init := chunks[..m];
    assert Uniform(init, n);
    FlattenLength(init, n);
    FlattenSnoc(init, chunks[m]);
    assert init + [chunks[m]] == chunks;
    if i < m {
      FlattenAt(init, n, i, r);
      FlattenPrefixAt(init, chunks[m], n * i + r) by {
        MulMonotone(n, i + 1, m);
        assert n * i + n == n * (i + 1);
      }
    } else {
      FlattenSuffixAt(init, chunks[m], r);
    }
  }

  lemma FlattenPrefixAt<T>(init: seq<seq<T>>, last: seq<T>, k: nat)
    requires k < |Flatten(init)|
    ensures Flatten(init + [last])[k] == Flatten(init)[k]
  {
    FlattenSnoc(init, last);
  }

  lemma FlattenSuffixAt<T>(init: seq<seq<T>>, last: seq<T>, r: nat)
    requires r < |last|
    ensures Flatten(init + [last])[|Flatten(init)| + r] == last[r]
  {
    FlattenSnoc(init, last);
  }

  lemma {:induction false} MulMonotone(n: nat, a: nat, b: nat)
    requires a <= b
    ensures n * a <= n * b
  {
    if a < b {
      MulMonotone(n, a, b - 1);
      assert n * (b - 1) + n == n * b;
    }
  }
}
