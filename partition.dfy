/** The index arithmetic of `Trainer.train`: the data is cut into
    mini-batches of `batchSize` consecutive samples, and each mini-batch
    into at most `numThreads` sub-batches of `ceil(m / numThreads)`
    consecutive samples.  Everything here is exact integer arithmetic. */
module Partition {

  /** The half-open index range `[from, to)` of a `subList` call. */
  datatype Range = Range(from: nat, to: nat)

  function Min(a: nat, b: nat): nat {
    if a <= b then a else b
  }

  /** `(int) Math.ceil((double) a / b)`: the least `q` with `q * b >= a`. */
  function CeilDiv(a: nat, b: nat): (q: nat)
    requires b > 0
    ensures q * b >= a
    ensures q > 0 ==> (q - 1) * b < a
  {
    var q := (a + b - 1) / b;
    DivBounds(a + b - 1, b);
    q
  }

  lemma DivBounds(a: nat, b: nat)
    requires b > 0
    ensures (a / b) * b <= a < (a / b) * b + b
  {
  }

  /** `c * a <= c * b` for `a <= b`. */
  lemma {:induction false} MulMonotone(a: nat, b: nat, c: nat)
    requires a <= b
    ensures a * c <= b * c
    decreases b - a
  {
    if a < b {
      MulMonotone(a, b - 1, c);
      assert b * c == (b - 1) * c + c;
    }
  }

  /** Mini-batch (or sub-batch) `b` of `[0, n)` in pieces of `size`:
      `from = b * size` and `to = min(from + size, n)`. */
  function Chunk(n: nat, size: nat, b: nat): Range {
    Range(b * size, Min(b * size + size, n))
  }

  /** The mini-batches before the last are full and the last is not empty. */
  lemma ChunkBounds(n: nat, size: nat, b: nat)
    requires size > 0 && b < CeilDiv(n, size)
    ensures b * size < Min(b * size + size, n) <= n
  {
    MulMonotone(b, CeilDiv(n, size) - 1, size);
  }

  /** Mini-batch `b` of `xs`, the `subList` of the indices in `Chunk(|xs|, size, b)`:
      between 1 and `size` consecutive elements of `xs`. */
  function MiniBatch<T>(xs: seq<T>, size: nat, b: nat): (mb: seq<T>)
    requires size > 0 && b < CeilDiv(|xs|, size)
    ensures 0 < |mb| <= size
    ensures forall x :: x in mb ==> x in xs
  {
    ChunkBounds(|xs|, size, b);
    xs[b * size..Min(b * size + size, |xs|)]
  }

  /** The `ceil(n / size)` mini-batches of `[0, n)`, in order. */
  function Chunks(n: nat, size: nat): (rs: seq<Range>)
    requires size > 0
    ensures |rs| == CeilDiv(n, size)
  {
    seq(CeilDiv(n, size), b requires 0 <= b => Chunk(n, size, b))
  }

  /** Every range of `rs` lies within `[0, n)`. */
  predicate Within(rs: seq<Range>, n: nat) {
    forall i :: 0 <= i < |rs| ==> rs[i].from <= rs[i].to <= n
  }

  /** `rs` cuts `[0, n)` into consecutive non-empty ranges, in order. */
  predicate Tiles(rs: seq<Range>, n: nat) {
    (|rs| == 0 ==> n == 0)
    && (|rs| > 0 ==> rs[0].from == 0 && rs[|rs| - 1].to == n)
    && (forall i :: 0 <= i < |rs| ==> rs[i].from < rs[i].to)
    && (forall i, j :: 0 <= i && j == i + 1 < |rs| ==> rs[i].to == rs[j].from)
  }

  /** The mini-batches cut `[0, n)` into consecutive pieces; each holds
      `size` samples except the last, which holds between 1 and `size`. */
  lemma ChunksTile(n: nat, size: nat)
    requires size > 0
    ensures Tiles(Chunks(n, size), n)
    ensures forall b :: 0 <= b < |Chunks(n, size)| - 1 ==> Chunks(n, size)[b].to - Chunks(n, size)[b].from == size
    ensures |Chunks(n, size)| > 0 ==> Chunks(n, size)[|Chunks(n, size)| - 1].to - Chunks(n, size)[|Chunks(n, size)| - 1].from <= size
  {
    var rs, q := Chunks(n, size), CeilDiv(n, size);
    forall b | 0 <= b < q
      ensures rs[b].from < rs[b].to && rs[b].to <= rs[b].from + size
      ensures b < q - 1 ==> rs[b].to == rs[b].from + size == (b + 1) * size
      ensures b == q - 1 ==> rs[b].to == n
    {
      MulMonotone(b, q - 1, size);
      assert rs[b] == Chunk(n, size, b);
      assert b * size + size == (b + 1) * size;
      if b < q - 1 {
        MulMonotone(b + 1, q - 1, size);
      }
    }
  }

  /** Ranges that tile `[0, n)` are disjoint and ordered: every range ends
      before the next one starts. */
  lemma TilesOrdered(rs: seq<Range>, n: nat)
    requires Tiles(rs, n)
    ensures forall i, j :: 0 <= i < j < |rs| ==> rs[i].to <= rs[j].from
    ensures forall i :: 0 <= i < |rs| ==> rs[i].to <= n
  {
    forall i, j | 0 <= i < j < |rs|
      ensures rs[i].to <= rs[j].from
    {
      TilesOrderedFrom(rs, n, i, j);
    }
    forall i | 0 <= i < |rs|
      ensures rs[i].to <= n
    {
      if i < |rs| - 1 {
        TilesOrderedFrom(rs, n, i, |rs| - 1);
      }
    }
  }

  lemma {:induction false} TilesOrderedFrom(rs: seq<Range>, n: nat, i: nat, j: nat)
    requires Tiles(rs, n) && i < j < |rs|
    ensures rs[i].to <= rs[j].from
    decreases j - i
  {
    if i + 1 < j {
      TilesOrderedFrom(rs, n, i + 1, j);
    }
  }

  /** Every index of `[0, n)` lies in some range of a tiling. */
  lemma {:induction false} TilesCover(rs: seq<Range>, n: nat, x: nat)
    requires Tiles(rs, n) && x < n
    ensures exists i :: 0 <= i < |rs| && rs[i].from <= x < rs[i].to
    decreases |rs|
  {
    var last := rs[|rs| - 1];
    if x < last.from {
      TilesPrefix(rs, n);
      TilesCover(rs[..|rs| - 1], last.from, x);
      var i :| 0 <= i < |rs| - 1 && rs[..|rs| - 1][i].from <= x < rs[..|rs| - 1][i].to;
      assert rs[i] == rs[..|rs| - 1][i];
    } else {
      assert rs[|rs| - 1].from <= x < rs[|rs| - 1].to;
    }
  }

  /** Dropping the last range of a tiling of `[0, n)` leaves a tiling of
      `[0, from)`, where `from` is where the dropped range started. */
  lemma TilesPrefix(rs: seq<Range>, n: nat)
    requires Tiles(rs, n) && |rs| > 0
    ensures Tiles(rs[..|rs| - 1], rs[|rs| - 1].from)
  {
    var ps := rs[..|rs| - 1];
    if |ps| > 0 {
      assert ps[|ps| - 1].to == rs[|rs| - 1].from;
    }
  }

  /** The sub-batches of the first `t` threads, as `train` submits them:
      thread `t` takes `[t * s, min(t * s + s, m))` when that range is
      not empty, and submits nothing otherwise. */
  function SubmittedUpTo(m: nat, s: nat, t: nat): seq<Range> {
    if t == 0 then []
    else
      var r := Chunk(m, s, t - 1);
      SubmittedUpTo(m, s, t - 1) + (if r.from < r.to then [r] else [])
  }

  /** The sub-batches of a mini-batch of `m` samples with `threads` threads:
      sub-batch size `ceil(m / threads)`. */
  function Submitted(m: nat, threads: nat): seq<Range>
    requires threads > 0
  {
    SubmittedUpTo(m, CeilDiv(m, threads), threads)
  }

  /** With a positive size, the submitted ranges are the first chunks. */
  lemma {:induction false} SubmittedPrefix(m: nat, s: nat, t: nat)
    requires s > 0
    ensures SubmittedUpTo(m, s, t) == Chunks(m, s)[..Min(t, CeilDiv(m, s))]
  {
    if t > 0 {
      SubmittedPrefix(m, s, t - 1);
      var q, r := CeilDiv(m, s), Chunk(m, s, t - 1);
      if t - 1 < q {
        ChunkBounds(m, s, t - 1);
        assert Chunks(m, s)[..t] == Chunks(m, s)[..t - 1] + [r];
      } else {
        MulMonotone(q, t - 1, s);
      }
    }
  }

  /** An empty mini-batch submits no task. */
  lemma {:induction false} SubmittedNone(t: nat)
    ensures SubmittedUpTo(0, 0, t) == []
  {
    if t > 0 {
      SubmittedNone(t - 1);
    }
  }

  /** The submitted sub-batches cut `[0, m)` into consecutive non-empty
      ranges, in order, and there are at most `threads` of them. */
  lemma SubmittedTiles(m: nat, threads: nat)
    requires threads > 0
    ensures Tiles(Submitted(m, threads), m)
    ensures |Submitted(m, threads)| <= threads
  {
    if m == 0 {
      SubmittedNone(threads);
    } else {
      var s := SubmittedAreChunks(m, threads);
      ChunksTile(m, s);
    }
  }

  /** A non-empty mini-batch is cut into the chunks of size `ceil(m / threads)`,
      at most `threads` of them. */
  lemma SubmittedAreChunks(m: nat, threads: nat) returns (s: nat)
    requires m > 0 && threads > 0
    ensures s == CeilDiv(m, threads) && s > 0
    ensures Submitted(m, threads) == Chunks(m, s) && |Chunks(m, s)| <= threads
  {
    s := CeilDiv(m, threads);
    var q := CeilDiv(m, s);
    if threads < q {
      MulMonotone(threads, q - 1, s);
      assert false;
    }
    SubmittedPrefix(m, s, threads);
    assert Chunks(m, s)[..Min(threads, q)] == Chunks(m, s);
  }
}
