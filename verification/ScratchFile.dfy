/** The scratch file a pool task opens for overflow: a flat run of bytes reached by
    seeking to a byte offset and reading or writing there. Records are laid out in
    extents of one fixed length, so the file is also seen as a row of extents. */
module ScratchFile {

  type Byte = b: int | 0 <= b < 256

  type Bytes = seq<Byte>

  function Zeros(n: nat): (z: Bytes)
    ensures |z| == n && forall i :: 0 <= i < n ==> z[i] == 0
  {
    seq(n, _ => 0)
  }

  /** Seek to `at`, then write `data`; a gap beyond the old end reads as zeros. */
  function WriteAt(file: Bytes, at: nat, data: Bytes): Bytes {
    var base := if at > |file| then file + Zeros(at - |file|) else file;
    base[..at] + data + (if at + |data| < |base| then base[at + |data|..] else [])
  }

  /** How many whole items of `size` bytes a read of `count` items at `at` delivers. */
  function ItemsRead(file: Bytes, at: nat, size: nat, count: nat): nat
    requires size > 0
  {
    if at > |file| then 0
    else if (|file| - at) / size < count then (|file| - at) / size
    else count
  }

  /** The i-th extent of `len` bytes; empty when the file does not reach that far. */
  function Extent(file: Bytes, len: nat, i: nat): Bytes {
    if (i + 1) * len <= |file| then
      MulGrows(i, i + 1, len);
      file[i * len..(i + 1) * len]
    else []
  }

  lemma MulStep(i: nat, len: nat)
    ensures (i + 1) * len == i * len + len
  {
  }

  lemma {:induction false} MulGrows(i: nat, j: nat, len: nat)
    requires i <= j
    ensures i * len <= j * len
    ensures i < j ==> (i + 1) * len <= j * len && i * len + len <= j * len
    decreases j
  {
    if i < j {
      MulGrows(i, j - 1, len);
      MulStep(j - 1, len);
      MulStep(i, len);
    }
  }

  /** Reading one full record back: every item arrives, and they are the extent. */
  lemma ExtentIsRead(file: Bytes, n: nat, i: nat, size: nat, count: nat)
    requires size > 0 && i < n && |file| == n * (count * size)
    ensures i * (count * size) <= |file|
    ensures ItemsRead(file, i * (count * size), size, count) == count
    ensures i * (count * size) + count * size <= |file|
    ensures Extent(file, count * size, i) == file[i * (count * size)..i * (count * size) + count * size]
    ensures |Extent(file, count * size, i)| == count * size
  {
    var len := count * size;
    MulGrows(i, n, len);
    var left := |file| - i * len;
    assert left >= count * size;
    DivAtLeast(left, size, count);
    assert (i + 1) * len == i * len + len;
  }

  lemma DivAtLeast(a: nat, size: nat, count: nat)
    requires size > 0 && a >= count * size
    ensures a / size >= count
  {
    var q := a / size;
    assert a < q * size + size;
    if q < count {
      MulGrows(q, count, size);
    }
  }

  /** Writing extent i, at most one past the last, of a file of n extents stores the
      data there and grows the file exactly when i is new. */
  lemma WriteExtent(file: Bytes, n: nat, i: nat, len: nat, data: Bytes)
    requires |file| == n * len && i <= n && |data| == len
    ensures |WriteAt(file, i * len, data)| == (if i == n then n + 1 else n) * len
    ensures Extent(WriteAt(file, i * len, data), len, i) == data
  {
    MulGrows(i, n, len);
    assert (i + 1) * len == i * len + len;
    assert (n + 1) * len == n * len + len;
  }

  /** ... and leaves every other extent as it was. */
  lemma OtherExtent(file: Bytes, n: nat, i: nat, j: nat, len: nat, data: Bytes)
    requires |file| == n * len && i <= n && |data| == len
    requires j < n && j != i
    ensures Extent(WriteAt(file, i * len, data), len, j) == Extent(file, len, j)
  {
    MulGrows(i, n, len);
    MulGrows(j, n, len);
    WriteExtent(file, n, i, len, data);
    assert (j + 1) * len == j * len + len;
    assert (n + 1) * len == n * len + len;
    var at, r := i * len, WriteAt(file, i * len, data);
    if j < i {
      MulGrows(j, i, len);
      assert r[j * len..j * len + len] == file[j * len..j * len + len];
    } else {
      MulGrows(i, j, len);
      assert r == file[..at] + data + file[at + len..];
      assert r[j * len..j * len + len] == file[j * len..j * len + len];
    }
  }
}
