/** How the sender cuts a file into chunks: src/transfer/mod.rs and the range
    arithmetic of src/transfer/sender.rs. */
module ChunkPlan {
  import opened Wrappers

  const U32_RANGE: nat := 0x1_0000_0000

  /** Smallest block size aimed at; a smaller configured size wins over it. */
  const MIN_CHUNK: nat := 256 * 1024

  function CeilDiv(a: nat, b: nat): (q: nat)
    requires b > 0
  {
    (a + b - 1) / b
  }

  /** The quotient is the unique q with b*(q-1) < a <= b*q. */
  lemma {:induction false} CeilDivBounds(a: nat, b: nat)
    requires b > 0
    ensures a <= CeilDiv(a, b) * b
    ensures a > 0 ==> (CeilDiv(a, b) - 1) * b < a
    ensures a == 0 ==> CeilDiv(a, b) == 0
  {
    var q := CeilDiv(a, b);
    assert a + b - 1 == q * b + (a + b - 1) % b;
    if q >= 1 {
      MulMonotone(1, q, b);
    }
  }

  /** An integer bound on the ceiling follows from a product bound, both ways. */
  lemma {:induction false} CeilDivAtMost(a: nat, b: nat, q: nat)
    requires b > 0
    ensures CeilDiv(a, b) <= q <==> a <= q * b
  {
    CeilDivBounds(a, b);
    var c := CeilDiv(a, b);
    if c <= q {
      MulMonotone(c, q, b);
    } else {
      MulMonotone(q, c - 1, b);
    }
  }

  /** `Ord::clamp`: the source panics when `lo > hi`. */
  function Clamp(x: int, lo: int, hi: int): (r: int)
    requires lo <= hi
    ensures lo <= r <= hi
    ensures lo <= x <= hi ==> r == x
  {
    if x < lo then lo else if x > hi then hi else x
  }

  /** Block size of a transfer; `configured` is the global CHUNK_SIZE. The bounds
      handed to `Clamp` are always ordered, so the source's `clamp` cannot panic. */
  function ChunkSizeFor(fileSize: nat, streams: nat, configured: nat): (size: nat)
    requires configured > 0
    ensures 0 < size <= configured
    ensures Min(MIN_CHUNK, configured) <= size
  {
    var n := Max(streams, 1);
    var target := Max(fileSize / (n * 2), 1);
    Clamp(target, Min(MIN_CHUNK, configured), configured)
  }

  /** Of the sizes between the smallest and the configured one, it is the largest that fits twice
      per stream into the file, or the smallest where none does. */
  lemma LargestFittingSize(fileSize: nat, streams: nat, configured: nat, size: nat)
    requires configured > 0 && Min(MIN_CHUNK, configured) <= size <= configured
    ensures size <= ChunkSizeFor(fileSize, streams, configured)
            <==> size == Min(MIN_CHUNK, configured) || size * (2 * Max(streams, 1)) <= fileSize
  {
    var n2 := Max(streams, 1) * 2;
    var q := fileSize / n2;
    assert fileSize == q * n2 + fileSize % n2 && (q + 1) * n2 == q * n2 + n2;
    if size <= q { MulMonotone(size, q, n2); } else { MulMonotone(q + 1, size, n2); }
  }

  /** Blocks no larger than the target leave something for a last one. */
  lemma FloorFits(fileSize: nat, n: nat, m: nat, c: nat)
    requires n > 0 && m <= c && 0 < c <= fileSize / n
    ensures (n - 1) * m <= (n - 1) * c < fileSize
  {
    var q := fileSize / n;
    assert fileSize == q * n + fileSize % n;
    MulMonotone(c, q, n);
    assert (n - 1) * c == c * n - c;
    MulMonotone(m, c, n - 1);
    assert (n - 1) * m == m * (n - 1) && (n - 1) * c == c * (n - 1);
  }

  /** Two blocks per stream are reached exactly when the file is longer than
      `2n - 1` blocks of the smallest admissible size. */
  lemma {:induction false} TwoChunksPerStream(fileSize: nat, streams: nat, configured: nat)
    requires configured > 0 && streams > 0
    ensures 2 * streams <= CeilDiv(fileSize, ChunkSizeFor(fileSize, streams, configured))
            <==> (2 * streams - 1) * Min(MIN_CHUNK, configured) < fileSize
  {
    var n2 := streams * 2;
    var m := Min(MIN_CHUNK, configured);
    var c := ChunkSizeFor(fileSize, streams, configured);
    CeilDivAtMost(fileSize, c, n2 - 1);
    assert c == m || m < c <= fileSize / n2;
    hide *;
    // Above the floor, c blocks fit 2n times into the file.
    if c != m { FloorFits(fileSize, n2, m, c); }
    assert n2 - 1 == 2 * streams - 1;
  }

  /** `total_chunks`, with the cast to u32 the source performs. */
  function TotalChunks(fileSize: nat, chunkSize: nat): (n: nat)
    requires chunkSize > 0
    ensures n < U32_RANGE
  {
    CeilDiv(fileSize, chunkSize) % U32_RANGE
  }

  function Offset(id: nat, chunkSize: nat): nat {
    id * chunkSize
  }

  /** `min(file_size.saturating_sub(offset), chunk_size)`. */
  function Length(id: nat, chunkSize: nat, fileSize: nat): nat {
    Min(Max(fileSize - Offset(id, chunkSize), 0), chunkSize)
  }

  function End(id: nat, chunkSize: nat, fileSize: nat): nat {
    Offset(id, chunkSize) + Length(id, chunkSize, fileSize)
  }

  /** The bounds the receiver insists on before it accepts a chunk header. */
  predicate HeaderInBounds(id: nat, offset: nat, len: nat, totalChunks: nat, fileSize: nat) {
    id < totalChunks && offset < fileSize && len <= fileSize - offset
  }

  lemma {:induction false} RangeOfId(id: nat, chunkSize: nat, fileSize: nat)
    requires chunkSize > 0 && id < TotalChunks(fileSize, chunkSize)
    ensures 0 < Length(id, chunkSize, fileSize) <= chunkSize
    ensures Offset(id, chunkSize) < End(id, chunkSize, fileSize) <= fileSize
    ensures id + 1 < CeilDiv(fileSize, chunkSize) ==>
              End(id, chunkSize, fileSize) == Offset(id + 1, chunkSize)
    ensures id + 1 == CeilDiv(fileSize, chunkSize) ==> End(id, chunkSize, fileSize) == fileSize
  {
    var c := CeilDiv(fileSize, chunkSize);
    CeilDivBounds(fileSize, chunkSize);
    assert id < c;
    MulMonotone(id, c - 1, chunkSize);
    assert (id + 1) * chunkSize == id * chunkSize + chunkSize;
    if id + 1 < c {
      MulMonotone(id + 1, c - 1, chunkSize);
    }
  }

  /** Every header an honest sender builds passes the receiver's checks. */
  lemma {:induction false} HeadersPassBounds(id: nat, chunkSize: nat, fileSize: nat)
    requires chunkSize > 0 && id < TotalChunks(fileSize, chunkSize)
    ensures HeaderInBounds(id, Offset(id, chunkSize), Length(id, chunkSize, fileSize),
                           TotalChunks(fileSize, chunkSize), fileSize)
  {
    RangeOfId(id, chunkSize, fileSize);
  }

  predicate Covers(id: nat, pos: nat, chunkSize: nat, fileSize: nat) {
    Offset(id, chunkSize) <= pos < End(id, chunkSize, fileSize)
  }

  /** Tiling: a position is covered by the chunk `pos / chunkSize` and by no other. */
  lemma {:induction false} OneChunkPerByte(id: nat, pos: nat, chunkSize: nat, fileSize: nat)
    requires chunkSize > 0 && pos < fileSize
    ensures Covers(id, pos, chunkSize, fileSize) <==> id == pos / chunkSize
  {
    var q := pos / chunkSize;
    assert pos == q * chunkSize + pos % chunkSize;
    assert (q + 1) * chunkSize == q * chunkSize + chunkSize;
    if id < q {
      MulMonotone(id + 1, q, chunkSize);
      assert (id + 1) * chunkSize == id * chunkSize + chunkSize;
    } else if id > q {
      MulMonotone(q + 1, id, chunkSize);
    }
  }

  /** The announced ids cover the whole file exactly when the cast to u32 lost nothing. */
  lemma {:induction false} IdsCoverFile(fileSize: nat, chunkSize: nat)
    requires chunkSize > 0
    ensures (forall pos: nat :: pos < fileSize ==> pos / chunkSize < TotalChunks(fileSize, chunkSize))
            <==> CeilDiv(fileSize, chunkSize) < U32_RANGE
  {
    var c := CeilDiv(fileSize, chunkSize);
    CeilDivBounds(fileSize, chunkSize);
    if c < U32_RANGE {
      forall pos: nat | pos < fileSize
        ensures pos / chunkSize < c
      {
        assert pos == (pos / chunkSize) * chunkSize + pos % chunkSize;
        if c <= pos / chunkSize {
          MulMonotone(c, pos / chunkSize, chunkSize);
        }
      }
    } else {
      // The last byte belongs to chunk c - 1, which was never announced.
      var pos := fileSize - 1;
      assert c >= 1 && fileSize > 0;
      assert pos / chunkSize == c - 1 by {
        OneChunkPerByte(c - 1, pos, chunkSize, fileSize);
      }
      assert c % U32_RANGE <= c - 1;
    }
  }

  /** The smallest block size the command line takes. */
  const SMALLEST_ARGUMENT: nat := 64 * 1024

  /** An input the command line admits and the cast does not survive: whatever the number of
      streams, no chunk at all is announced for a file of 256 TiB. */
  lemma CountCanVanish(streams: nat)
    ensures var fileSize := U32_RANGE * SMALLEST_ARGUMENT;
            var size := ChunkSizeFor(fileSize, streams, SMALLEST_ARGUMENT);
            && size == SMALLEST_ARGUMENT && TotalChunks(fileSize, size) == 0
            && SumLengths(TotalChunks(fileSize, size), size, fileSize) != fileSize
            && !(forall pos: nat :: pos < fileSize ==> pos / size < TotalChunks(fileSize, size))
  {
    var fileSize := U32_RANGE * SMALLEST_ARGUMENT;
    CeilDivAtMost(fileSize, SMALLEST_ARGUMENT, U32_RANGE);
    CeilDivAtMost(fileSize, SMALLEST_ARGUMENT, U32_RANGE - 1);
    IdsCoverFile(fileSize, SMALLEST_ARGUMENT);
  }

  lemma CoveringChunk(pos: nat, chunkSize: nat, fileSize: nat) returns (id: nat)
    requires chunkSize > 0 && pos < fileSize && CeilDiv(fileSize, chunkSize) < U32_RANGE
    ensures id < TotalChunks(fileSize, chunkSize) && Covers(id, pos, chunkSize, fileSize)
  {
    id := pos / chunkSize;
    IdsCoverFile(fileSize, chunkSize);
    OneChunkPerByte(id, pos, chunkSize, fileSize);
  }

  /** Bytes of the first n chunks. */
  function SumLengths(n: nat, chunkSize: nat, fileSize: nat): (sum: nat) {
    if n == 0 then 0
    else SumLengths(n - 1, chunkSize, fileSize) + Length(n - 1, chunkSize, fileSize)
  }

  lemma {:induction false} SumIsEnd(n: nat, chunkSize: nat, fileSize: nat)
    requires chunkSize > 0 && 0 < n <= TotalChunks(fileSize, chunkSize)
    ensures SumLengths(n, chunkSize, fileSize) == End(n - 1, chunkSize, fileSize)
  {
    if n > 1 {
      SumIsEnd(n - 1, chunkSize, fileSize);
      RangeOfId(n - 2, chunkSize, fileSize);
    } else {
      assert SumLengths(0, chunkSize, fileSize) == 0;
      assert Offset(0, chunkSize) == 0;
    }
  }

  /** A full set of acknowledged chunks adds up to the file length, again exactly
      when the cast to u32 lost nothing. */
  lemma {:induction false} SumOfAllLengths(fileSize: nat, chunkSize: nat)
    requires chunkSize > 0
    ensures SumLengths(TotalChunks(fileSize, chunkSize), chunkSize, fileSize) == fileSize
            <==> CeilDiv(fileSize, chunkSize) < U32_RANGE
  {
    var c := CeilDiv(fileSize, chunkSize);
    var n := TotalChunks(fileSize, chunkSize);
    CeilDivBounds(fileSize, chunkSize);
    if n > 0 {
      SumIsEnd(n, chunkSize, fileSize);
      RangeOfId(n - 1, chunkSize, fileSize);
      if c >= U32_RANGE {
        MulMonotone(n, c - 1, chunkSize);
        assert End(n - 1, chunkSize, fileSize) == Offset(n, chunkSize) <= (c - 1) * chunkSize < fileSize;
      }
    }
  }
}
