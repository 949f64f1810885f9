/** `chunk`, identical in src/index.ts and index.ts: a loop that steps an index
    by `size` and pushes `list.slice(i, i + size)` each time. */
module Chunking {
  import opened Seqs

  function Min(a: int, b: int): int
  {
    if a <= b then a else b
  }

  /** The specification of `chunk`: the first `size` items as one piece, then
      the pieces of the rest. A non-positive size would make the source loop
      forever, so it is excluded. */
  function Chunks<T>(s: seq<T>, size: nat): (r: seq<seq<T>>)
    requires size > 0
    ensures forall k :: 0 <= k < |r| ==> 0 < |r[k]| <= size
    decreases |s|
  {
    if s == [] then []
    else if |s| <= size then [s]
    else [s[..size]] + Chunks(s[size..], size)
  }

  /** The items from position `i` on; none once `i` has passed the end, as for `slice`. */
  function Rest<T>(s: seq<T>, i: nat): seq<T>
  {
    if i <= |s| then s[i..] else []
  }

  /** One turn of the loop: the piece `slice(i, i + size)`, then the pieces after it. */
  lemma ChunksStep<T>(s: seq<T>, size: nat, i: nat)
    requires size > 0 && i < |s|
    ensures Chunks(Rest(s, i), size) == [s[i..Min(i + size, |s|)]] + Chunks(Rest(s, i + size), size)
  {
    var t := s[i..];
    if |t| <= size {
      assert Rest(s, i + size) == [];
      assert s[i..Min(i + size, |s|)] == t;
      assert Chunks(t, size) == [t];
    } else {
      assert t[..size] == s[i..i + size];
      assert t[size..] == s[i + size..];
    }
  }

  /** `chunk(list, size)` as the source writes it. */
  method Chunk<T>(list: seq<T>, size: int) returns (result: seq<seq<T>>)
    requires size > 0
    ensures result == Chunks(list, size)
  {
    result := [];
    var i := 0;
    while i < |list|
      invariant 0 <= i
      invariant result + Chunks(Rest(list, i), size) == Chunks(list, size)
    {
      ChunksStep(list, size, i);
      result := result + [list[i..Min(i + size, |list|)]];
      i := i + size;
    }
  }

  /** Concatenating the chunks in order gives the input back. */
  lemma {:induction false} ChunksFlatten<T>(s: seq<T>, size: nat)
    requires size > 0
    ensures Flatten(Chunks(s, size)) == s
    decreases |s|
  {
    if s == [] {
    } else if |s| <= size {
      FlattenCons(s, []);
    } else {
      ChunksFlatten(s[size..], size);
      FlattenCons(s[..size], Chunks(s[size..], size));
      assert s == s[..size] + s[size..];
    }
  }

  /** There are ceil(|s| / size) chunks: none for an empty input, otherwise
      enough to hold |s| items but not one more than needed. */
  lemma {:induction false} ChunksCount<T>(s: seq<T>, size: nat)
    requires size > 0
    ensures |Chunks(s, size)| == 0 <==> s == []
    ensures (|Chunks(s, size)| - 1) * size < |s| <= |Chunks(s, size)| * size
    decreases |s|
  {
    if |s| > size {
      var n := |Chunks(s[size..], size)|;
      ChunksCount(s[size..], size);
      assert (n + 1) * size == n * size + size;
    }
  }

  lemma MulStep(k: nat, size: nat)
    requires k > 0
    ensures (k - 1) * size + size == k * size && k * size + size == (k + 1) * size
  {
  }

  /** Chunk k holds exactly the items k*size up to (k+1)*size (or the end), so
      every chunk but the last is full. */
  lemma {:induction false} ChunksAt<T>(s: seq<T>, size: nat, k: nat)
    requires size > 0 && k < |Chunks(s, size)|
    ensures k * size < |s|
    ensures Chunks(s, size)[k] == s[k * size..Min((k + 1) * size, |s|)]
    ensures k < |Chunks(s, size)| - 1 ==> |Chunks(s, size)[k]| == size
    decreases |s|
  {
    if k == 0 {
      assert 0 * size == 0 && (0 + 1) * size == size;
    } else {
      var t := s[size..];
      assert |s| > size && Chunks(s, size) == [s[..size]] + Chunks(t, size);
      assert Chunks(s, size)[k] == Chunks(t, size)[k - 1];
      ChunksAt(t, size, k - 1);
      var lo, mid, up := (k - 1) * size, k * size, (k + 1) * size;
      MulStep(k, size);
      var hi := Min(mid, |t|);
      assert hi + size == Min(up, |s|);
      assert t[lo..hi] == s[lo + size..hi + size];
    }
  }

}
