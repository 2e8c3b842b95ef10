/** One pool task of the ramdisk as a value: the map from sparse keys to data locations,
    the memory slots, the stack of freed slots, the two counters and the scratch file.
    The functions follow its operations statement by statement; the invariant and
    its consequences are proved here, and the class in PoolTask.dfy refines them. */
module PoolSpec {
  import opened Wrappers
  import opened ScratchFile

  /** Run-time options of one pool task; sizes as computed at initialization. */
  datatype Settings = Settings(maxRecords: nat, ratio: real, blocksize: nat, wordSize: nat, useDisk: bool)

  /** The options the start-up assertions let through. */
  type Config = c: Settings | 0.0 < c.ratio < 1.0 && c.blocksize > 0 && c.wordSize > 0
    witness Settings(1, 0.5, 1, 1, true)

  function RecordBytes(c: Config): (n: nat)
    ensures n == c.blocksize * c.wordSize
  {
    c.blocksize * c.wordSize
  }

  /** The given ratio of n records, as a repeated sum so that proofs stay linear. */
  function Share(ratio: real, n: nat): real {
    if n == 0 then 0.0 else Share(ratio, n - 1) + ratio
  }

  lemma {:induction false} ShareIsProduct(ratio: real, n: nat)
    ensures Share(ratio, n) == ratio * n as real
  {
    if n > 0 {
      ShareIsProduct(ratio, n - 1);
      assert ratio * n as real == ratio * (n - 1) as real + ratio;
    }
  }

  lemma {:induction false} ShareBounds(c: Config, n: nat)
    ensures 0.0 <= Share(c.ratio, n) <= n as real
    ensures n > 0 ==> Share(c.ratio, n) < n as real
  {
    if n > 0 { ShareBounds(c, n - 1); }
  }

  function Floor(x: real): (d: nat)
    requires x >= 0.0
    ensures d as real <= x < (d + 1) as real
  {
    x.Floor
  }

  /** How many of n records in memory one dump moves to disk. */
  function DumpCount(c: Config, n: nat): nat {
    ShareBounds(c, n);
    Floor(Share(c.ratio, n))
  }

  lemma DumpCountIsFloor(c: Config, n: nat)
    ensures DumpCount(c, n) as real <= c.ratio * n as real < DumpCount(c, n) as real + 1.0
  {
    ShareIsProduct(c.ratio, n);
  }

  /** A dump never takes the last record. */
  lemma DumpCountBelow(c: Config, n: nat)
    ensures DumpCount(c, n) <= n && (n > 0 ==> DumpCount(c, n) < n)
  {
    ShareBounds(c, n);
  }

  lemma DumpCountStep(c: Config, m: nat)
    ensures DumpCount(c, m) <= DumpCount(c, m + 1) <= DumpCount(c, m) + 1
  {
    ShareBounds(c, m);
  }

  lemma {:induction false} DumpCountMonotone(c: Config, m: nat, n: nat)
    requires m <= n
    ensures DumpCount(c, m) <= DumpCount(c, n)
    decreases n
  {
    if m < n {
      DumpCountMonotone(c, m, n - 1);
      DumpCountStep(c, n - 1);
    }
  }

  /** Sending rank and sparse index together identify a record. */
  datatype SparseKey = SparseKey(rank: nat, offset: nat)

  datatype Datagram = Datagram(inMem: bool, index: nat, readCount: nat, writeCount: nat)

  datatype PoolState = PoolState(
    smap: map<SparseKey, Datagram>,
    pool: seq<Bytes>,
    freeRecords: seq<nat>, // a stack, its top at the end
    numActive: int,
    numDisk: nat,
    file: Bytes,
    overflowed: bool)

  function Init(c: Config): PoolState {
    PoolState(map[], seq(c.maxRecords, _ => Zeros(RecordBytes(c))), [], 0, 0, [], false)
  }

  predicate InMem(s: PoolState, k: SparseKey) {
    k in s.smap && s.smap[k].inMem
  }

  function MemKeys(s: PoolState): set<SparseKey> {
    set k | k in s.smap && s.smap[k].inMem
  }

  function DiskKeys(s: PoolState): set<SparseKey> {
    set k | k in s.smap && !s.smap[k].inMem
  }

  /** The block a task holds under a key, wherever it resides. */
  function Stored(c: Config, s: PoolState, k: SparseKey): Option<Bytes> {
    if k !in s.smap then None
    else if !s.smap[k].inMem then Some(Extent(s.file, RecordBytes(c), s.smap[k].index))
    else if s.smap[k].index < |s.pool| then Some(s.pool[s.smap[k].index])
    else None
  }

  // ------------------------------------------------------------------------------
  // Operations
  // ------------------------------------------------------------------------------

  /** One turn of the dump loop: the record's block goes to the next extent, the record
      is marked as residing there and its slot is freed. */
  function EvictOne(c: Config, s: PoolState, k: SparseKey): PoolState
    requires InMem(s, k) && s.smap[k].index < |s.pool|
  {
    var d := s.smap[k];
    s.(smap := s.smap[k := d.(inMem := false, index := s.numDisk)],
       file := WriteAt(s.file, s.numDisk * RecordBytes(c), s.pool[d.index]),
       freeRecords := s.freeRecords + [d.index],
       numDisk := s.numDisk + 1,
       numActive := s.numActive - 1)
  }

  ghost predicate Distinct<T(!new)>(xs: seq<T>) {
    forall i, j :: 0 <= i < j < |xs| ==> xs[i] != xs[j]
  }

  function Elems<T>(xs: seq<T>): set<T> {
    set x | x in xs
  }

  ghost predicate Evictable(s: PoolState, ks: seq<SparseKey>) {
    && Distinct(ks)
    && forall i :: 0 <= i < |ks| ==> InMem(s, ks[i]) && s.smap[ks[i]].index < |s.pool|
  }

  ghost function EvictAll(c: Config, s: PoolState, ks: seq<SparseKey>): (r: PoolState)
    requires Evictable(s, ks)
    ensures r.pool == s.pool && r.smap.Keys == s.smap.Keys
    ensures forall k :: k in s.smap && k !in ks ==> r.smap[k] == s.smap[k]
  {
    if ks == [] then s
    else
      var n := |ks| - 1;
      EvictOne(c, EvictAll(c, s, ks[..n]), ks[n])
  }

  /** k has been read no more often than any record in memory outside `gone`. */
  ghost predicate LeastRead(s: PoolState, k: SparseKey, gone: seq<SparseKey>)
    requires k in s.smap
  {
    forall m :: m in MemKeys(s) && m !in gone ==> s.smap[k].readCount <= s.smap[m].readCount
  }

  /** An order in which one dump may take records off a heap that yields the least-read
      first: any order among equals is allowed. */
  ghost predicate EvictionOrder(c: Config, s: PoolState, ks: seq<SparseKey>) {
    && Evictable(s, ks)
    && |ks| == DumpCount(c, |MemKeys(s)|)
    && forall i :: 0 <= i < |ks| ==> LeastRead(s, ks[i], ks[..i])
  }

  datatype Alloc = Slot(state: PoolState, index: nat) | Full

  /** A record is about to be added to a pool whose counter has reached the slot count. */
  predicate Overflows(c: Config, s: PoolState, k: SparseKey) {
    k !in s.smap && s.numActive >= c.maxRecords
  }

  predicate MustDump(c: Config, s: PoolState, k: SparseKey) {
    Overflows(c, s, k) && c.useDisk
  }

  /** `ks` settles the choices left open when a header for k is handled in s. */
  ghost predicate Choice(c: Config, s: PoolState, k: SparseKey, ks: seq<SparseKey>) {
    if MustDump(c, s, k) then EvictionOrder(c, s, ks) else ks == []
  }

  ghost function Dump(c: Config, s: PoolState, ks: seq<SparseKey>): PoolState
    requires Evictable(s, ks)
  {
    EvictAll(c, s.(overflowed := true), ks)
  }

  ghost function GetFreeRecord(c: Config, s: PoolState, ks: seq<SparseKey>): Alloc
    requires 0 <= s.numActive && Evictable(s, ks)
  {
    if s.numActive < c.maxRecords then
      if s.freeRecords == [] then Slot(s, s.numActive) else PopFree(s)
    else if !c.useDisk then Full
    else
      var s1 := Dump(c, s, ks);
      if s1.freeRecords == [] then Full
      else PopFree(s1.(numActive := s1.numActive + 1))
  }

  function PopFree(s: PoolState): Alloc
    requires s.freeRecords != []
  {
    var n := |s.freeRecords| - 1;
    Slot(s.(freeRecords := s.freeRecords[..n]), s.freeRecords[n])
  }

  datatype Begun = Begun(state: PoolState) | Abort

  /** StoreData up to the point where it waits for the payload. */
  ghost function BeginStore(c: Config, s: PoolState, k: SparseKey, ks: seq<SparseKey>): Begun
    requires 0 <= s.numActive && Evictable(s, ks)
  {
    if k in s.smap then
      Begun(s.(smap := s.smap[k := s.smap[k].(writeCount := s.smap[k].writeCount + 1)]))
    else
      match GetFreeRecord(c, s, ks)
      case Full => Abort
      case Slot(s1, index) =>
        Begun(s1.(smap := s1.smap[k := Datagram(true, index, 0, 1)], numActive := s1.numActive + 1))
  }

  predicate InPool(s: PoolState, k: SparseKey) {
    InMem(s, k) ==> s.smap[k].index < |s.pool|
  }

  /** StoreData once the payload has arrived. */
  function EndStore(c: Config, s: PoolState, k: SparseKey, data: Bytes): PoolState
    requires k in s.smap && InPool(s, k)
  {
    var d := s.smap[k];
    if d.inMem then s.(pool := s.pool[d.index := data])
    else s.(file := WriteAt(s.file, d.index * RecordBytes(c), data))
  }

  datatype Pulled = Pulled(state: PoolState, data: Bytes) | PullFailed

  /** PullData: the record is counted as read and its block sent back. An unknown key and
      a short read from the file both fail an assertion. */
  function PullData(c: Config, s: PoolState, k: SparseKey): Pulled
    requires InPool(s, k)
  {
    if k !in s.smap then PullFailed
    else
      var d := s.smap[k];
      var s1 := s.(smap := s.smap[k := d.(readCount := d.readCount + 1)]);
      if d.inMem then Pulled(s1, s.pool[d.index])
      else
        var at := d.index * RecordBytes(c);
        if ItemsRead(s.file, at, c.wordSize, c.blocksize) == c.blocksize && at + RecordBytes(c) <= |s.file|
        then Pulled(s1, s.file[at..at + RecordBytes(c)])
        else PullFailed
  }

  // ------------------------------------------------------------------------------
  // Invariant
  // ------------------------------------------------------------------------------

  /** A record's index is a slot or an extent that exists. */
  ghost predicate Placed(c: Config, s: PoolState, k: SparseKey) {
    k in s.smap ==> s.smap[k].index < if s.smap[k].inMem then c.maxRecords else s.numDisk
  }

  /** Two records in one tier have different indices. */
  ghost predicate Apart(s: PoolState, a: SparseKey, b: SparseKey) {
    a in s.smap && b in s.smap && a != b && s.smap[a].inMem == s.smap[b].inMem
    ==> s.smap[a].index != s.smap[b].index
  }

  /** A record in memory does not sit in slot i when i is on the free stack. */
  ghost predicate OffStack(s: PoolState, k: SparseKey, i: nat) {
    i in s.freeRecords && InMem(s, k) ==> s.smap[k].index != i
  }

  ghost predicate BlocksFull(c: Config, s: PoolState) {
    && |s.pool| == c.maxRecords
    && (forall i :: 0 <= i < |s.pool| ==> |s.pool[i]| == RecordBytes(c))
    && |s.file| == s.numDisk * RecordBytes(c)
  }

  /** What every statement keeps, the dump loop's included. */
  ghost predicate Core(c: Config, s: PoolState) {
    && BlocksFull(c, s)
    && (forall k :: Placed(c, s, k))
    && (forall a, b :: Apart(s, a, b))
    && |DiskKeys(s)| == s.numDisk
    && Distinct(s.freeRecords)
    && (forall i :: i in s.freeRecords ==> i < c.maxRecords)
    && (forall k, i :: OffStack(s, k, i))
  }

  /** By how much the counter exceeds the number of records in memory. */
  function Drift(s: PoolState): int {
    s.numActive - |MemKeys(s)|
  }

  /** The overflow path can always free a slot. */
  predicate CanOverflow(c: Config) {
    c.useDisk && DumpCount(c, c.maxRecords) >= 1
  }

  ghost predicate Dense(s: PoolState, k: SparseKey) {
    k in s.smap ==> s.smap[k].index < |s.smap|
  }

  ghost predicate Inv(c: Config, s: PoolState) {
    && Core(c, s)
    && 0 <= Drift(s)
    && |MemKeys(s)| + |s.freeRecords| <= c.maxRecords
    && (s.overflowed <==> Drift(s) > 0)
    && (!s.overflowed ==> s.freeRecords == [] && s.numDisk == 0)
    && (!s.overflowed ==> forall k :: Dense(s, k))
    && (s.overflowed ==> CanOverflow(c) && |MemKeys(s)| + |s.freeRecords| == c.maxRecords)
  }

  lemma InitInv(c: Config)
    ensures Inv(c, Init(c)) && Drift(Init(c)) == 0
    ensures forall k :: Stored(c, Init(c), k) == None
  {
    assert MemKeys(Init(c)) == {};
    assert DiskKeys(Init(c)) == {};
  }

  lemma TiersSplit(s: PoolState)
    ensures MemKeys(s) + DiskKeys(s) == s.smap.Keys && MemKeys(s) !! DiskKeys(s)
    ensures |MemKeys(s)| + |DiskKeys(s)| == |s.smap|
  {
    assert MemKeys(s) + DiskKeys(s) == s.smap.Keys;
  }

  // ---- eviction ----

  /** Writing extent i changes no record but the one that lives there. */
  lemma FileWriteFrame(c: Config, s: PoolState, t: PoolState, i: nat, data: Bytes, k: SparseKey)
    requires |s.file| == s.numDisk * RecordBytes(c) && i <= s.numDisk && |data| == RecordBytes(c)
    requires t.file == WriteAt(s.file, i * RecordBytes(c), data) && t.pool == s.pool
    requires k in s.smap && k in t.smap && t.smap[k].inMem == s.smap[k].inMem && t.smap[k].index == s.smap[k].index
    requires !s.smap[k].inMem ==> s.smap[k].index < s.numDisk && s.smap[k].index != i
    ensures Stored(c, t, k) == Stored(c, s, k)
  {
    if !s.smap[k].inMem {
      OtherExtent(s.file, s.numDisk, i, s.smap[k].index, RecordBytes(c), data);
    }
  }

  lemma EvictOneKeeps(c: Config, s: PoolState, k: SparseKey)
    requires Core(c, s) && InMem(s, k) && s.smap[k].index < |s.pool|
    ensures Core(c, EvictOne(c, s, k))
    ensures MemKeys(EvictOne(c, s, k)) == MemKeys(s) - {k}
    ensures forall m :: Stored(c, EvictOne(c, s, k), m) == Stored(c, s, m)
  {
    var t := EvictOne(c, s, k);
    var data := s.pool[s.smap[k].index];
    WriteExtent(s.file, s.numDisk, s.numDisk, RecordBytes(c), data);
    assert MemKeys(t) == MemKeys(s) - {k};
    assert DiskKeys(t) == DiskKeys(s) + {k};
    forall m ensures Placed(c, t, m) && Stored(c, t, m) == Stored(c, s, m) {
      assert Placed(c, s, m);
      if m in s.smap && m != k {
        FileWriteFrame(c, s, t, s.numDisk, data, m);
      }
    }
    forall a, b ensures Apart(t, a, b) {
      assert Apart(s, a, b) && Placed(c, s, a) && Placed(c, s, b);
    }
    forall m, i ensures OffStack(t, m, i) {
      assert OffStack(s, m, i) && Apart(s, m, k);
    }
    assert OffStack(s, k, s.smap[k].index) && Placed(c, s, k);
  }

  lemma ElemsStep<T>(a: set<T>, xs: seq<T>)
    requires xs != []
    ensures var n := |xs| - 1; a - Elems(xs) == a - Elems(xs[..n]) - {xs[n]}
  {
    var n := |xs| - 1;
    assert xs == xs[..n] + [xs[n]];
  }

  lemma {:induction false} EvictAllCore(c: Config, s: PoolState, ks: seq<SparseKey>)
    requires Core(c, s) && Evictable(s, ks)
    ensures Core(c, EvictAll(c, s, ks))
    ensures MemKeys(EvictAll(c, s, ks)) == MemKeys(s) - Elems(ks)
  {
    if ks == [] {
      assert Elems(ks) == {};
    } else {
      var n := |ks| - 1;
      EvictAllCore(c, s, ks[..n]);
      var u := EvictAll(c, s, ks[..n]);
      assert InMem(u, ks[n]) by { assert ks[n] !in ks[..n]; }
      EvictOneKeeps(c, u, ks[n]);
      assert MemKeys(EvictOne(c, u, ks[n])) == MemKeys(s) - Elems(ks[..n]) - {ks[n]};
      ElemsStep(MemKeys(s), ks);
    }
  }

  /** A dump changes no stored block, whatever order the heap yields. */
  lemma {:induction false} EvictAllStored(c: Config, s: PoolState, ks: seq<SparseKey>, m: SparseKey)
    requires Core(c, s) && Evictable(s, ks)
    ensures Stored(c, EvictAll(c, s, ks), m) == Stored(c, s, m)
  {
    if ks != [] {
      var n := |ks| - 1;
      EvictAllStored(c, s, ks[..n], m);
      EvictAllCore(c, s, ks[..n]);
      var u := EvictAll(c, s, ks[..n]);
      assert InMem(u, ks[n]) by { assert ks[n] !in ks[..n]; }
      EvictOneKeeps(c, u, ks[n]);
    }
  }

  /** A dump of n records moves exactly n from the one tier to the other and touches no
      read or write count. */
  lemma {:induction false} EvictAllCounts(c: Config, s: PoolState, ks: seq<SparseKey>)
    requires Evictable(s, ks)
    ensures var t := EvictAll(c, s, ks);
      && |t.freeRecords| == |s.freeRecords| + |ks|
      && t.numActive == s.numActive - |ks|
      && t.numDisk == s.numDisk + |ks|
      && t.overflowed == s.overflowed
      && (forall m :: m in s.smap ==> t.smap[m].readCount == s.smap[m].readCount
                                      && t.smap[m].writeCount == s.smap[m].writeCount)
      && (forall m :: m in s.smap && !s.smap[m].inMem ==> t.smap[m] == s.smap[m])
  {
    if ks != [] {
      var n := |ks| - 1;
      EvictAllCounts(c, s, ks[..n]);
      assert ks[n] !in ks[..n];
    }
  }

  lemma {:induction false} DistinctSize<T(!new)>(xs: seq<T>)
    requires Distinct(xs)
    ensures |Elems(xs)| == |xs|
  {
    if xs != [] {
      var n := |xs| - 1;
      DistinctSize(xs[..n]);
      assert Elems(xs) == Elems(xs[..n]) + {xs[n]};
    }
  }

  /** Changing counters, read and write counts or the bytes of blocks disturbs nothing. */
  lemma SameLayout(c: Config, s: PoolState, t: PoolState)
    requires Core(c, s) && BlocksFull(c, t)
    requires t.freeRecords == s.freeRecords && t.numDisk == s.numDisk && t.smap.Keys == s.smap.Keys
    requires forall k :: k in s.smap ==> t.smap[k].inMem == s.smap[k].inMem && t.smap[k].index == s.smap[k].index
    ensures Core(c, t) && MemKeys(t) == MemKeys(s) && DiskKeys(t) == DiskKeys(s)
    ensures t.pool == s.pool && t.file == s.file ==> forall m :: Stored(c, t, m) == Stored(c, s, m)
  {
    assert MemKeys(t) == MemKeys(s) && DiskKeys(t) == DiskKeys(s);
    forall k ensures Placed(c, t, k) { assert Placed(c, s, k); }
    forall a, b ensures Apart(t, a, b) { assert Apart(s, a, b); }
    forall k, i ensures OffStack(t, k, i) { assert OffStack(s, k, i); }
  }

  /** What a dump keeps and what it moves. */
  lemma DumpKeeps(c: Config, s: PoolState, ks: seq<SparseKey>)
    requires Core(c, s) && Evictable(s, ks)
    ensures var t := Dump(c, s, ks);
      && Core(c, t)
      && MemKeys(t) == MemKeys(s) - Elems(ks) && |MemKeys(t)| == |MemKeys(s)| - |ks|
      && |t.freeRecords| == |s.freeRecords| + |ks|
      && t.numActive == s.numActive - |ks|
      && t.numDisk == s.numDisk + |ks|
      && t.overflowed
      && t.smap.Keys == s.smap.Keys
      && (forall m :: m in s.smap ==> t.smap[m].readCount == s.smap[m].readCount
                                      && t.smap[m].writeCount == s.smap[m].writeCount)
      && (forall m :: m in s.smap && !s.smap[m].inMem ==> t.smap[m] == s.smap[m])
      && (forall m :: Stored(c, t, m) == Stored(c, s, m))
  {
    var s1 := s.(overflowed := true);
    SameLayout(c, s, s1);
    EvictAllCore(c, s1, ks);
    EvictAllCounts(c, s1, ks);
    DistinctSize(ks);
    assert Elems(ks) <= MemKeys(s);
    forall m ensures Stored(c, Dump(c, s, ks), m) == Stored(c, s, m) {
      EvictAllStored(c, s1, ks, m);
    }
  }

  /** Least-frequently-read eviction: whatever is still in memory after a dump has been
      read at least as often as each record the dump moved. */
  lemma DumpIsLeastRead(c: Config, s: PoolState, ks: seq<SparseKey>, gone: SparseKey, kept: SparseKey)
    requires Core(c, s) && EvictionOrder(c, s, ks)
    requires gone in MemKeys(s) && gone !in MemKeys(Dump(c, s, ks)) && kept in MemKeys(Dump(c, s, ks))
    ensures s.smap[gone].readCount <= s.smap[kept].readCount
    ensures Dump(c, s, ks).smap[gone].readCount <= Dump(c, s, ks).smap[kept].readCount
  {
    DumpKeeps(c, s, ks);
    var i :| 0 <= i < |ks| && ks[i] == gone;
    assert kept !in ks[..i];
    assert LeastRead(s, ks[i], ks[..i]);
  }

  /** A dump can always find such an order. */
  lemma {:induction false} EvictionOrderExists(c: Config, s: PoolState, n: nat) returns (ks: seq<SparseKey>)
    requires Core(c, s) && n <= |MemKeys(s)|
    ensures Evictable(s, ks) && |ks| == n
    ensures forall i :: 0 <= i < |ks| ==> LeastRead(s, ks[i], ks[..i])
  {
    if n == 0 {
      ks := [];
    } else {
      var before := EvictionOrderExists(c, s, n - 1);
      DistinctSize(before);
      var left := MemKeys(s) - Elems(before);
      assert Elems(before) <= MemKeys(s);
      assert |left| > 0;
      var k := LeastReadOf(s, left);
      assert Placed(c, s, k);
      ks := before + [k];
      LeastReadExtends(s, before, k);
    }
  }

  lemma LeastReadExtends(s: PoolState, ks: seq<SparseKey>, k: SparseKey)
    requires forall i :: 0 <= i < |ks| ==> ks[i] in s.smap && LeastRead(s, ks[i], ks[..i])
    requires k in s.smap && LeastRead(s, k, ks)
    ensures forall i :: 0 <= i <= |ks| ==> (ks + [k])[i] in s.smap && LeastRead(s, (ks + [k])[i], (ks + [k])[..i])
  {
    forall i | 0 <= i <= |ks|
      ensures (ks + [k])[i] in s.smap && LeastRead(s, (ks + [k])[i], (ks + [k])[..i])
    {
      assert (ks + [k])[..i] == ks[..i];
    }
    assert ks[..|ks|] == ks;
  }

  lemma {:induction false} LeastReadOf(s: PoolState, ks: set<SparseKey>) returns (k: SparseKey)
    requires ks != {} && ks <= s.smap.Keys
    ensures k in ks && forall m :: m in ks ==> s.smap[k].readCount <= s.smap[m].readCount
    decreases |ks|
  {
    k :| k in ks;
    if ks != {k} {
      assert ks == (ks - {k}) + {k};
      var other := LeastReadOf(s, ks - {k});
      if s.smap[other].readCount < s.smap[k].readCount {
        k := other;
      }
    }
  }

  // ---- allocation ----

  ghost predicate Unused(s: PoolState, k: SparseKey, i: nat) {
    InMem(s, k) ==> s.smap[k].index != i
  }

  /** Slot i is neither taken by a record nor on the free stack. */
  ghost predicate Vacant(s: PoolState, i: nat) {
    i !in s.freeRecords && forall k :: Unused(s, k, i)
  }

  lemma PopFreeKeeps(c: Config, s: PoolState)
    requires Core(c, s) && s.freeRecords != []
    ensures var a := PopFree(s);
      && Core(c, a.state) && MemKeys(a.state) == MemKeys(s)
      && a.index < c.maxRecords && Vacant(a.state, a.index)
      && (forall m :: Stored(c, a.state, m) == Stored(c, s, m))
  {
    var a := PopFree(s);
    assert s.freeRecords == a.state.freeRecords + [a.index] && a.index in s.freeRecords;
    assert MemKeys(a.state) == MemKeys(s) && DiskKeys(a.state) == DiskKeys(s);
    forall i | i in a.state.freeRecords ensures i < c.maxRecords { assert i in s.freeRecords; }
    forall k ensures Placed(c, a.state, k) { assert Placed(c, s, k); }
    forall x, y ensures Apart(a.state, x, y) { assert Apart(s, x, y); }
    forall k, i ensures OffStack(a.state, k, i) { assert OffStack(s, k, i); }
    forall k ensures Unused(a.state, k, a.index) { assert OffStack(s, k, a.index); }
  }

  function AddRecord(s: PoolState, k: SparseKey, index: nat): PoolState {
    s.(smap := s.smap[k := Datagram(true, index, 0, 1)], numActive := s.numActive + 1)
  }

  lemma AddRecordKeeps(c: Config, s: PoolState, k: SparseKey, index: nat)
    requires Core(c, s) && k !in s.smap && index < c.maxRecords && Vacant(s, index)
    ensures var t := AddRecord(s, k, index);
      && Core(c, t) && MemKeys(t) == MemKeys(s) + {k} && DiskKeys(t) == DiskKeys(s)
      && t.smap.Keys == s.smap.Keys + {k}
      && (forall m :: m != k ==> Stored(c, t, m) == Stored(c, s, m))
  {
    var t := AddRecord(s, k, index);
    assert MemKeys(t) == MemKeys(s) + {k};
    assert DiskKeys(t) == DiskKeys(s);
    forall m ensures Placed(c, t, m) { assert Placed(c, s, m); }
    forall a, b ensures Apart(t, a, b) {
      assert Apart(s, a, b) && Unused(s, a, index) && Unused(s, b, index);
    }
    forall m, i ensures OffStack(t, m, i) { assert OffStack(s, m, i); }
  }

  /** Before any dump, memory holds every record, in slots 0 .. n-1. */
  lemma NoOverflowShape(c: Config, s: PoolState)
    requires Inv(c, s) && !s.overflowed
    ensures MemKeys(s) == s.smap.Keys && s.numActive == |s.smap| <= c.maxRecords
  {
    TiersSplit(s);
    assert DiskKeys(s) == {};
  }

  /** The overflow path fails its assertion exactly when no dump could ever free a slot:
      otherwise it finds one, even when the drifted counter makes it dump nothing. */
  lemma DumpFreesASlot(c: Config, s: PoolState, ks: seq<SparseKey>)
    requires Inv(c, s) && s.numActive >= c.maxRecords && c.useDisk && EvictionOrder(c, s, ks)
    ensures var t := Dump(c, s, ks);
      && Core(c, t)
      && |MemKeys(t)| + |t.freeRecords| == c.maxRecords
      && t.numActive - |MemKeys(t)| == Drift(s)
      && (t.freeRecords != [] <==> CanOverflow(c))
      && (forall m :: Stored(c, t, m) == Stored(c, s, m))
      && MemKeys(t) <= MemKeys(s) && |MemKeys(t)| == |MemKeys(s)| - DumpCount(c, |MemKeys(s)|)
      && t.smap.Keys == s.smap.Keys && t.overflowed
  {
    DumpKeeps(c, s, ks);
    var t, n := Dump(c, s, ks), |MemKeys(s)|;
    DumpCountMonotone(c, n, c.maxRecords);
    DumpCountBelow(c, n);
    assert |t.freeRecords| == |s.freeRecords| + DumpCount(c, n);
    if !s.overflowed {
      NoOverflowShape(c, s);
      assert n == c.maxRecords && |s.freeRecords| == 0;
      assert t.freeRecords != [] <==> CanOverflow(c);
    } else {
      assert n < c.maxRecords ==> |s.freeRecords| > 0;
      assert n == c.maxRecords ==> DumpCount(c, n) >= 1;
    }
  }
}
