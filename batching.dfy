/** What the four async readers share: the bound test, the batch size, and the reference chunking a pass must equal. */
module Batching {
  import opened Wrappers
  import opened PyValues

  /** What one `__anext__` call gives the consumer: a batch, or StopAsyncIteration. */
  datatype Pull = Batch(records: seq<Value>) | EndOfPass

  /** `if self.max_read_lines`: a bound is in force when it is given and not zero. */
  predicate BoundSet(b: Option<int>)
  {
    b.Some? && b.value != 0
  }

  /** How many of `n` available records a file reader delivers in one pass under bound `b`. */
  function Limit(n: nat, b: Option<int>): nat
  {
    if BoundSet(b) then Min(n, Max(b.value, 0)) else n
  }

  /**
   * The size of a batch returned from inside the pull loop. The loop appends a record before it
   * compares `len(each_list) >= batch_size`, so a batch size below one acts as one.
   */
  function FullSize(batchSize: int): nat
  {
    if batchSize < 1 then 1 else batchSize
  }

  /** The database readers' bound: `min(max_read_lines, count) if max_read_lines else count`. */
  function ResolveBound(maxReadLines: Option<int>, count: nat): (r: int)
    ensures r <= count
    ensures BoundSet(maxReadLines) ==> r <= maxReadLines.value
    ensures BoundSet(maxReadLines) ==> r == count || r == maxReadLines.value
    ensures !BoundSet(maxReadLines) ==> r == count
  {
    if BoundSet(maxReadLines) then Min(maxReadLines.value, count) else count
  }

  /** The reference batching: consecutive slices of `n` records, the last one possibly shorter. */
  function Chunks<T>(s: seq<T>, n: nat): seq<seq<T>>
    requires n >= 1
    decreases |s|
  {
    if |s| == 0 then [] else if |s| <= n then [s] else [s[..n]] + Chunks(s[n..], n)
  }

  /** A window at least one batch long is chunked as its first batch followed by the chunks of the rest. */
  lemma ChunksCons<T>(w: seq<T>, n: nat, rest: seq<seq<T>>)
    requires 1 <= n <= |w| && rest == Chunks(w[n..], n)
    ensures Chunks(w, n) == [w[..n]] + rest
  {
    if |w| == n {
      assert w[..n] == w;
    }
  }

  /** Chunking a slice longer than one batch: the first batch, then the chunks of the slice after it. */
  lemma ChunksOfSlice<T>(d: seq<T>, p: nat, q: nat, n: nat)
    requires n >= 1 && p + q <= |d|
    ensures q > n ==> Chunks(d[p..p + q], n) == [d[p..p + n]] + Chunks(d[p + n..p + q], n)
    ensures q == n ==> Chunks(d[p..p + q], n) == [d[p..p + n]] && Chunks(d[p + n..p + q], n) == []
    ensures 0 < q < n ==> Chunks(d[p..p + q], n) == [d[p..p + q]]
  {
    var s := d[p..p + q];
    if q > n {
      assert s[..n] == d[p..p + n];
      assert s[n..] == d[p + n..p + q];
    }
  }

  /** One more element at the end of a slice. */
  lemma SliceSnoc<T>(s: seq<T>, k: nat, j: nat)
    requires k <= j < |s|
    ensures s[k..j + 1] == s[k..j] + [s[j]]
  {
  }

  function Flatten<T>(ss: seq<seq<T>>): seq<T>
  {
    if ss == [] then [] else ss[0] + Flatten(ss[1..])
  }

  /** Chunking drops, duplicates and reorders nothing. */
  lemma {:induction false} FlattenChunks<T>(s: seq<T>, n: nat)
    requires n >= 1
    ensures Flatten(Chunks(s, n)) == s
    decreases |s|
  {
    if |s| > n {
      FlattenChunks(s[n..], n);
      assert Chunks(s, n)[1..] == Chunks(s[n..], n);
      assert s == s[..n] + s[n..];
    }
  }

  /** Every chunk holds between 1 and `n` records, and all but the last hold exactly `n`. */
  lemma {:induction false} ChunkSizes<T>(s: seq<T>, n: nat)
    requires n >= 1
    ensures forall i :: 0 <= i < |Chunks(s, n)| ==> 1 <= |Chunks(s, n)[i]| <= n
    ensures forall i :: 0 <= i < |Chunks(s, n)| - 1 ==> |Chunks(s, n)[i]| == n
    decreases |s|
  {
    if |s| > n {
      ChunkSizes(s[n..], n);
      var r := Chunks(s, n);
      assert forall i :: 1 <= i < |r| ==> r[i] == Chunks(s[n..], n)[i - 1];
    }
  }

  /** Flattening distributes over concatenation. */
  lemma {:induction false} FlattenAppend<T>(a: seq<seq<T>>, b: seq<seq<T>>)
    ensures Flatten(a + b) == Flatten(a) + Flatten(b)
    decreases |a|
  {
    if a != [] {
      assert (a + b)[0] == a[0];
      assert (a + b)[1..] == a[1..] + b;
      FlattenAppend(a[1..], b);
      assert Flatten(a + b) == a[0] + Flatten(a[1..] + b);
    } else {
      assert a + b == b;
    }
  }
}
