/** What every operation of a pool task keeps, and what follows for whole runs of one:
    the pool task is a plain map from keys to blocks, its slots and extents never collide, and
    it aborts in exactly one situation. */
module PoolRuns {
  import opened Wrappers
  import opened ScratchFile
  import opened PoolSpec

  // ------------------------------------------------------------------------------
  // One operation
  // ------------------------------------------------------------------------------

  /** Changing read and write counts or the bytes of blocks keeps the invariant. */
  lemma SameCounts(c: Config, s: PoolState, t: PoolState)
    requires Inv(c, s) && BlocksFull(c, t)
    requires t == s.(smap := t.smap, pool := t.pool, file := t.file) && t.smap.Keys == s.smap.Keys
    requires forall k :: k in s.smap ==> t.smap[k].inMem == s.smap[k].inMem && t.smap[k].index == s.smap[k].index
    ensures Inv(c, t) && Drift(t) == Drift(s)
    ensures t.pool == s.pool && t.file == s.file ==> forall m :: Stored(c, t, m) == Stored(c, s, m)
  {
    SameLayout(c, s, t);
    assert |t.smap| == |t.smap.Keys|;
    if !s.overflowed {
      forall k ensures Dense(t, k) { assert Dense(s, k); }
    }
  }

  lemma UpdateKeeps(c: Config, s: PoolState, k: SparseKey)
    requires Inv(c, s) && k in s.smap
    ensures var t := s.(smap := s.smap[k := s.smap[k].(writeCount := s.smap[k].writeCount + 1)]);
      Inv(c, t) && Drift(t) == Drift(s) && forall m :: Stored(c, t, m) == Stored(c, s, m)
  {
    var t := s.(smap := s.smap[k := s.smap[k].(writeCount := s.smap[k].writeCount + 1)]);
    SameCounts(c, s, t);
  }

  function AddBelowLimit(s: PoolState, k: SparseKey): PoolState
    requires 0 <= s.numActive
  {
    if s.freeRecords == [] then AddRecord(s, k, s.numActive)
    else AddRecord(PopFree(s).state, k, PopFree(s).index)
  }

  /** A new record while the counter is below the slot count: no slot handed out is in
      use, including where the counter itself is handed out as the slot. */
  lemma FreshSlot(c: Config, s: PoolState)
    requires Inv(c, s) && s.numActive < c.maxRecords
    ensures s.overflowed <==> s.freeRecords != []
    ensures var a := GetFreeRecord(c, s, []); a.Slot? && a.index < c.maxRecords && Vacant(a.state, a.index)
  {
    if s.freeRecords == [] {
      NoOverflowShape(c, s);
      forall k ensures Unused(s, k, s.numActive) { assert Dense(s, k); }
    } else {
      PopFreeKeeps(c, s);
    }
  }

  lemma AddBelowLimitKeeps(c: Config, s: PoolState, k: SparseKey)
    requires Inv(c, s) && k !in s.smap && s.numActive < c.maxRecords
    ensures var t := AddBelowLimit(s, k);
      && Core(c, t) && t.smap.Keys == s.smap.Keys + {k} && MemKeys(t) == MemKeys(s) + {k}
      && (forall m :: m != k ==> Stored(c, t, m) == Stored(c, s, m))
  {
    FreshSlot(c, s);
    if s.freeRecords == [] {
      AddRecordKeeps(c, s, k, s.numActive);
    } else {
      PopFreeKeeps(c, s);
      AddRecordKeeps(c, PopFree(s).state, k, PopFree(s).index);
    }
  }

  lemma StoreBelowLimit(c: Config, s: PoolState, k: SparseKey)
    requires Inv(c, s) && k !in s.smap && s.numActive < c.maxRecords
    ensures BeginStore(c, s, k, []) == Begun(AddBelowLimit(s, k))
    ensures var t := AddBelowLimit(s, k);
      && Inv(c, t) && t.smap.Keys == s.smap.Keys + {k} && Drift(t) == Drift(s)
      && (forall m :: m != k ==> Stored(c, t, m) == Stored(c, s, m))
  {
    hide Core, Stored, Vacant;
    AddBelowLimitKeeps(c, s, k);
    FreshSlot(c, s);
    var t := AddBelowLimit(s, k);
    assert |t.smap| == |t.smap.Keys| == |s.smap| + 1;
    if !s.overflowed {
      NoOverflowShape(c, s);
      forall m ensures Dense(t, m) { assert Dense(s, m); }
    }
  }

  lemma StoreOverflowing(c: Config, s: PoolState, k: SparseKey, ks: seq<SparseKey>)
    requires Inv(c, s) && Overflows(c, s, k) && CanOverflow(c) && EvictionOrder(c, s, ks)
    ensures var b := BeginStore(c, s, k, ks);
      && b.Begun? && Inv(c, b.state) && b.state.smap.Keys == s.smap.Keys + {k} && Drift(b.state) == Drift(s) + 1
      && |MemKeys(b.state)| == |MemKeys(s)| - DumpCount(c, |MemKeys(s)|) + 1
      && (forall m :: m != k ==> Stored(c, b.state, m) == Stored(c, s, m))
  {
    hide Core, Stored, EvictAll;
    DumpFreesASlot(c, s, ks);
    var d := Dump(c, s, ks);
    AllocateAfterDump(c, d, k);
    assert BeginStore(c, s, k, ks) == Begun(AddAfterDump(d, k));
  }

  function AddAfterDump(d: PoolState, k: SparseKey): PoolState
    requires d.freeRecords != []
  {
    var a := PopFree(d.(numActive := d.numActive + 1));
    AddRecord(a.state, k, a.index)
  }

  lemma AllocateAfterDump(c: Config, d: PoolState, k: SparseKey)
    requires Core(c, d) && k !in d.smap && d.freeRecords != []
    ensures var t := AddAfterDump(d, k);
      && Core(c, t) && t.smap.Keys == d.smap.Keys + {k} && t.overflowed == d.overflowed
      && |MemKeys(t)| == |MemKeys(d)| + 1 && |t.freeRecords| == |d.freeRecords| - 1
      && t.numActive == d.numActive + 2
      && (forall m :: m != k ==> Stored(c, t, m) == Stored(c, d, m))
  {
    var d1 := d.(numActive := d.numActive + 1);
    assert BlocksFull(c, d1);
    hide Core, Stored, BlocksFull, Vacant;
    SameLayout(c, d, d1);
    PopFreeKeeps(c, d1);
    var a := PopFree(d1);
    AddRecordKeeps(c, a.state, k, a.index);
  }

  /** Handling a write header, in every case. It aborts exactly when the record is new,
      every slot is taken by a record and no dump could free one. Otherwise no other
      record's block changes, and an update leaves even its own block for now. */
  lemma BeginStoreKeeps(c: Config, s: PoolState, k: SparseKey, ks: seq<SparseKey>)
    requires Inv(c, s) && Choice(c, s, k, ks)
    ensures var b := BeginStore(c, s, k, ks);
      && (b.Abort? <==> k !in s.smap && |s.smap| == c.maxRecords && !CanOverflow(c))
      && (b.Begun? ==>
            && Inv(c, b.state) && b.state.smap.Keys == s.smap.Keys + {k}
            && Drift(b.state) == Drift(s) + (if Overflows(c, s, k) then 1 else 0)
            && (forall m :: m != k ==> Stored(c, b.state, m) == Stored(c, s, m))
            && (k in s.smap ==> Stored(c, b.state, k) == Stored(c, s, k)))
  {
    if k in s.smap {
      UpdateKeeps(c, s, k);
    } else if s.numActive < c.maxRecords {
      StoreBelowLimit(c, s, k);
      if !s.overflowed { NoOverflowShape(c, s); }
    } else if CanOverflow(c) {
      StoreOverflowing(c, s, k, ks);
    } else {
      NoOverflowShape(c, s);
      if c.useDisk {
        DumpFreesASlot(c, s, ks);
      }
    }
  }

  lemma EndStoreKeeps(c: Config, s: PoolState, k: SparseKey, data: Bytes)
    requires Inv(c, s) && k in s.smap && |data| == RecordBytes(c)
    ensures InPool(s, k)
    ensures var t := EndStore(c, s, k, data);
      && Inv(c, t) && t == s.(pool := t.pool, file := t.file)
      && Stored(c, t, k) == Some(data)
      && (forall m :: m != k ==> Stored(c, t, m) == Stored(c, s, m))
  {
    assert Placed(c, s, k);
    var d, t := s.smap[k], EndStore(c, s, k, data);
    if d.inMem {
      SameCounts(c, s, t);
      forall m | m != k ensures Stored(c, t, m) == Stored(c, s, m) {
        assert Apart(s, m, k);
      }
    } else {
      WriteExtent(s.file, s.numDisk, d.index, RecordBytes(c), data);
      SameCounts(c, s, t);
      forall m | m != k ensures Stored(c, t, m) == Stored(c, s, m) {
        assert Apart(s, m, k) && Placed(c, s, m);
        if m in s.smap {
          FileWriteFrame(c, s, t, d.index, data, m);
        }
      }
    }
  }

  /** A known record is always sent back in full, from either tier, and nothing but its
      read count changes. */
  lemma PullDataKeeps(c: Config, s: PoolState, k: SparseKey)
    requires Inv(c, s)
    ensures InPool(s, k)
    ensures var r := PullData(c, s, k);
      && (r.Pulled? <==> k in s.smap)
      && (r.Pulled? ==>
            && Stored(c, s, k) == Some(r.data)
            && Inv(c, r.state) && Drift(r.state) == Drift(s)
            && r.state == s.(smap := s.smap[k := s.smap[k].(readCount := s.smap[k].readCount + 1)])
            && (forall m :: Stored(c, r.state, m) == Stored(c, s, m)))
  {
    assert Placed(c, s, k);
    if k in s.smap {
      var d := s.smap[k];
      if !d.inMem {
        ExtentIsRead(s.file, s.numDisk, d.index, c.wordSize, c.blocksize);
      }
      var t := s.(smap := s.smap[k := d.(readCount := d.readCount + 1)]);
      SameCounts(c, s, t);
    }
  }

  // ------------------------------------------------------------------------------
  // Where records live
  // ------------------------------------------------------------------------------

  function Upto(n: nat): (s: set<nat>)
    ensures forall i :: i in s <==> 0 <= i < n
  {
    if n == 0 then {} else Upto(n - 1) + {n - 1}
  }

  lemma {:induction false} UptoSize(n: nat)
    ensures |Upto(n)| == n
  {
    if n > 0 {
      UptoSize(n - 1);
      assert n - 1 !in Upto(n - 1) && Upto(n) == Upto(n - 1) + {n - 1};
    }
  }

  /** n numbers below n are all the numbers below n. */
  lemma Pigeonhole(s: set<nat>, n: nat)
    requires forall i :: i in s ==> i < n
    ensures |s| <= n && (|s| == n ==> s == Upto(n))
  {
    UptoSize(n);
    assert s <= Upto(n);
    SubsetSize(s, Upto(n));
  }

  lemma SubsetSize<T>(a: set<T>, b: set<T>)
    requires a <= b
    ensures |a| <= |b| && (|a| == |b| ==> a == b)
  {
    assert b == a + (b - a);
  }

  function Indices(m: map<SparseKey, Datagram>, ks: set<SparseKey>): set<nat>
    requires ks <= m.Keys
  {
    set k | k in ks :: m[k].index
  }

  lemma {:induction false} IndicesSize(m: map<SparseKey, Datagram>, ks: set<SparseKey>)
    requires ks <= m.Keys
    requires forall a, b :: a in ks && b in ks && a != b ==> m[a].index != m[b].index
    ensures |Indices(m, ks)| == |ks|
    decreases |ks|
  {
    if ks != {} {
      var k :| k in ks;
      IndicesSize(m, ks - {k});
      assert Indices(m, ks) == Indices(m, ks - {k}) + {m[k].index};
    }
  }

  /** Slots in memory: never shared, never on the free stack; exactly 0 .. n-1 before any
      overflow, and with the free ones exactly 0 .. max-1 after the first. The counter
      exceeds the records in memory by the drift alone. */
  lemma SlotsPartition(c: Config, s: PoolState)
    requires Inv(c, s)
    ensures var used := Indices(s.smap, MemKeys(s));
      && |used| == |MemKeys(s)| && used !! Elems(s.freeRecords) && |Elems(s.freeRecords)| == |s.freeRecords|
      && (!s.overflowed ==> used == Upto(|s.smap|) && s.freeRecords == [] && s.numActive == |s.smap|)
      && (s.overflowed ==> used + Elems(s.freeRecords) == Upto(c.maxRecords))
  {
    var used := Indices(s.smap, MemKeys(s));
    forall a, b | a in MemKeys(s) && b in MemKeys(s) && a != b
      ensures s.smap[a].index != s.smap[b].index
    {
      assert Apart(s, a, b);
    }
    IndicesSize(s.smap, MemKeys(s));
    DistinctSize(s.freeRecords);
    forall i | i in used ensures i !in s.freeRecords && i < c.maxRecords {
      var k :| k in MemKeys(s) && s.smap[k].index == i;
      assert OffStack(s, k, i) && Placed(c, s, k);
    }
    if !s.overflowed {
      NoOverflowShape(c, s);
      forall i | i in used ensures i < |s.smap| {
        var k :| k in MemKeys(s) && s.smap[k].index == i;
        assert Dense(s, k);
      }
      Pigeonhole(used, |s.smap|);
    } else {
      assert |used + Elems(s.freeRecords)| == |used| + |Elems(s.freeRecords)|;
      Pigeonhole(used + Elems(s.freeRecords), c.maxRecords);
    }
  }

  /** Records on disk number exactly the extents of the scratch file, one in each. */
  lemma ExtentsBijective(c: Config, s: PoolState)
    requires Inv(c, s)
    ensures |s.file| == |DiskKeys(s)| * RecordBytes(c)
    ensures Indices(s.smap, DiskKeys(s)) == Upto(|DiskKeys(s)|)
    ensures forall a, b :: a in DiskKeys(s) && b in DiskKeys(s) && s.smap[a].index == s.smap[b].index ==> a == b
  {
    forall a, b | a in DiskKeys(s) && b in DiskKeys(s) && a != b
      ensures s.smap[a].index != s.smap[b].index
    {
      assert Apart(s, a, b);
    }
    IndicesSize(s.smap, DiskKeys(s));
    forall i | i in Indices(s.smap, DiskKeys(s)) ensures i < s.numDisk {
      var k :| k in DiskKeys(s) && s.smap[k].index == i;
      assert Placed(c, s, k);
    }
    Pigeonhole(Indices(s.smap, DiskKeys(s)), s.numDisk);
  }

  // ------------------------------------------------------------------------------
  // Runs of one task
  // ------------------------------------------------------------------------------

  /** A request as handled: for a store also the order in which the heap was emptied. */
  datatype Op = StoreOp(key: SparseKey, data: Bytes, evicted: seq<SparseKey>) | PullOp(key: SparseKey)

  datatype Reply = Reply(key: SparseKey, data: Bytes)

  datatype Outcome = Live(state: PoolState, replies: seq<Reply>) | Dead | NotARun

  ghost predicate Allowed(c: Config, s: PoolState, op: Op) {
    op.StoreOp? ==> Choice(c, s, op.key, op.evicted) && |op.data| == RecordBytes(c)
  }

  /** StoreData or PullData; Dead when an assertion fails or the pool task aborts. */
  ghost function Handle(c: Config, s: PoolState, op: Op): (r: Outcome)
    requires Inv(c, s) && Allowed(c, s, op)
    ensures r.Live? ==> Inv(c, r.state)
  {
    match op
    case StoreOp(k, data, ks) =>
      BeginStoreKeeps(c, s, k, ks);
      (match BeginStore(c, s, k, ks)
       case Abort => Dead
       case Begun(t) => EndStoreKeeps(c, t, k, data); Live(EndStore(c, t, k, data), []))
    case PullOp(k) =>
      PullDataKeeps(c, s, k);
      (match PullData(c, s, k)
       case PullFailed => Dead
       case Pulled(t, data) => Live(t, [Reply(k, data)]))
  }

  ghost function RunFrom(c: Config, s: PoolState, ops: seq<Op>): (r: Outcome)
    requires Inv(c, s)
    ensures r.Live? ==> Inv(c, r.state)
  {
    if ops == [] then Live(s, [])
    else
      var n := |ops| - 1;
      match RunFrom(c, s, ops[..n])
      case Live(u, rs) =>
        if !Allowed(c, u, ops[n]) then NotARun
        else (match Handle(c, u, ops[n])
              case Live(t, more) => Live(t, rs + more)
              case stop => stop)
      case stop => stop
  }

  ghost function Run(c: Config, ops: seq<Op>): (r: Outcome)
    ensures r.Live? ==> Inv(c, r.state)
  {
    InitInv(c);
    RunFrom(c, Init(c), ops)
  }

  /** The plain map a run of requests amounts to: the last block stored under each key. */
  function Contents(ops: seq<Op>): map<SparseKey, Bytes> {
    if ops == [] then map[]
    else
      var m, op := Contents(ops[..|ops| - 1]), ops[|ops| - 1];
      if op.StoreOp? then m[op.key := op.data] else m
  }

  /** What a plain map would answer. */
  function Answers(ops: seq<Op>): seq<Reply> {
    if ops == [] then []
    else
      var n := |ops| - 1;
      var m := Contents(ops[..n]);
      if ops[n].PullOp? && ops[n].key in m
      then Answers(ops[..n]) + [Reply(ops[n].key, m[ops[n].key])]
      else Answers(ops[..n])
  }

  /** How many stores of a run took the overflow path. */
  ghost function OverflowStores(c: Config, ops: seq<Op>): nat {
    if ops == [] then 0
    else
      var n := |ops| - 1;
      var r := Run(c, ops[..n]);
      OverflowStores(c, ops[..n]) +
      if r.Live? && ops[n].StoreOp? && Overflows(c, r.state, ops[n].key) then 1 else 0
  }

  /** Every read asks for a record stored before, and a task that cannot overflow is
      never given more records than it has slots. */
  ghost predicate Served(c: Config, ops: seq<Op>) {
    ops == [] ||
    var n := |ops| - 1;
    && Served(c, ops[..n])
    && (ops[n].PullOp? ==> ops[n].key in Contents(ops[..n]))
    && (CanOverflow(c) || |Contents(ops)| <= c.maxRecords)
  }

  /** The pool task holds exactly the blocks of the map m. */
  ghost predicate Holds(c: Config, s: PoolState, m: map<SparseKey, Bytes>) {
    s.smap.Keys == m.Keys && forall k :: k in m ==> Stored(c, s, k) == Some(m[k])
  }

  lemma HoldsAfterStore(c: Config, u: PoolState, t: PoolState, w: PoolState, m: map<SparseKey, Bytes>, k: SparseKey,
                        data: Bytes)
    requires Holds(c, u, m) && t.smap.Keys == u.smap.Keys + {k} && w.smap == t.smap
    requires forall q :: q != k ==> Stored(c, t, q) == Stored(c, u, q)
    requires forall q :: q != k ==> Stored(c, w, q) == Stored(c, t, q)
    requires Stored(c, w, k) == Some(data)
    ensures Holds(c, w, m[k := data])
  {
    forall q | q in m[k := data] ensures Stored(c, w, q) == Some(m[k := data][q]) {
      assert q != k ==> Stored(c, u, q) == Some(m[q]);
    }
  }

  lemma StoreStep(c: Config, u: PoolState, m: map<SparseKey, Bytes>, k: SparseKey, data: Bytes, ks: seq<SparseKey>)
    requires Inv(c, u) && Choice(c, u, k, ks) && |data| == RecordBytes(c) && Holds(c, u, m)
    requires BeginStore(c, u, k, ks).Begun?
    ensures var t := BeginStore(c, u, k, ks).state;
      && k in t.smap && InPool(t, k)
      && Holds(c, EndStore(c, t, k, data), m[k := data])
      && Drift(EndStore(c, t, k, data)) == Drift(u) + (if Overflows(c, u, k) then 1 else 0)
  {
    BeginStoreKeeps(c, u, k, ks);
    var t := BeginStore(c, u, k, ks).state;
    EndStoreKeeps(c, t, k, data);
    HoldsAfterStore(c, u, t, EndStore(c, t, k, data), m, k, data);
  }

  /** One step of the run against one step of the plain map. */
  ghost predicate StepMatches(c: Config, u: PoolState, m: map<SparseKey, Bytes>, op: Op, r: Outcome) {
    match op
    case StoreOp(k, data, _) =>
      && !r.NotARun?
      && (r.Live? <==> k in m || |m| != c.maxRecords || CanOverflow(c))
      && (r.Live? ==> r.replies == [] && Holds(c, r.state, m[k := data])
                      && Drift(r.state) == Drift(u) + if Overflows(c, u, k) then 1 else 0)
    case PullOp(k) =>
      && !r.NotARun?
      && (r.Live? <==> k in m)
      && (r.Live? ==> r.replies == [Reply(k, m[k])] && Holds(c, r.state, m) && Drift(r.state) == Drift(u))
  }

  lemma StepRefinesMap(c: Config, u: PoolState, m: map<SparseKey, Bytes>, op: Op)
    requires Inv(c, u) && Allowed(c, u, op) && Holds(c, u, m)
    ensures StepMatches(c, u, m, op, Handle(c, u, op))
  {
    match op
    case StoreOp(k, data, ks) =>
      BeginStoreKeeps(c, u, k, ks);
      assert |u.smap| == |u.smap.Keys| == |m|;
      if BeginStore(c, u, k, ks).Begun? {
        StoreStep(c, u, m, k, data, ks);
      }
    case PullOp(k) =>
      PullDataKeeps(c, u, k);
      if k in m {
        assert Handle(c, u, op).Live?;
      }
  }

  /** Over every run a pool task is the plain map: it holds the last block stored under
      each key and nothing else, its replies are that map's answers, in order, and its
      counter is the records in memory plus the overflow stores so far, where the evident
      intent was the records alone. It stops short exactly when not every request can be
      served. */
  lemma {:induction false} RunRefinesMap(c: Config, ops: seq<Op>)
    ensures var r := Run(c, ops);
      && (r.Live? ==>
            && r.replies == Answers(ops)
            && Holds(c, r.state, Contents(ops))
            && r.state.numActive == |MemKeys(r.state)| + OverflowStores(c, ops))
      && (!r.NotARun? ==> (r.Live? <==> Served(c, ops)))
  {
    InitInv(c);
    if ops == [] {
      assert MemKeys(Init(c)) == {};
    } else {
      var n := |ops| - 1;
      RunRefinesMap(c, ops[..n]);
      match Run(c, ops[..n])
      case Live(u, rs) =>
        if Allowed(c, u, ops[n]) {
          StepRefinesMap(c, u, Contents(ops[..n]), ops[n]);
          if !u.overflowed { NoOverflowShape(c, u); }
          assert |u.smap| == |u.smap.Keys|;
        }
      case Dead =>
      case NotARun =>
    }
  }

  lemma OverflowsWhenFull(c: Config, ops: seq<Op>, k: SparseKey)
    requires Run(c, ops).Live? && OverflowStores(c, ops) == 0
    ensures Overflows(c, Run(c, ops).state, k) <==> k !in Contents(ops) && |Contents(ops)| >= c.maxRecords
  {
    hide Core, OverflowStores, Run, Stored;
    RunRefinesMap(c, ops);
    var s := Run(c, ops).state;
    NoOverflowShape(c, s);
    assert |s.smap| == |s.smap.Keys| && |Contents(ops)| == |Contents(ops).Keys|;
  }

  lemma ContentsStep(ops: seq<Op>)
    requires ops != []
    ensures var m, op := Contents(ops[..|ops| - 1]), ops[|ops| - 1];
      |Contents(ops)| == |m| + if op.StoreOp? && op.key !in m then 1 else 0
  {
    var m, op := Contents(ops[..|ops| - 1]), ops[|ops| - 1];
    if op.StoreOp? {
      assert m[op.key := op.data].Keys == m.Keys + {op.key};
      assert |m[op.key := op.data]| == |m[op.key := op.data].Keys| && |m| == |m.Keys|;
    }
  }

  lemma LastOverflow(c: Config, ops: seq<Op>)
    requires Run(c, ops).Live? && ops != []
    ensures Run(c, ops[..|ops| - 1]).Live?
    ensures var n := |ops| - 1;
      OverflowStores(c, ops) == OverflowStores(c, ops[..n]) +
        if ops[n].StoreOp? && Overflows(c, Run(c, ops[..n]).state, ops[n].key) then 1 else 0
  {
    hide Handle, Allowed, Overflows;
    InitInv(c);
  }

  /** What a caller can tell beforehand: a live run never overflows, and its counter is right,
      exactly when it stores no more different records than there are slots. */
  lemma {:induction false} CounterRightExactlyWhen(c: Config, ops: seq<Op>)
    requires Run(c, ops).Live?
    ensures OverflowStores(c, ops) == 0 <==> |Contents(ops)| <= c.maxRecords
    ensures Run(c, ops).state.numActive == |MemKeys(Run(c, ops).state)| <==> |Contents(ops)| <= c.maxRecords
  {
    if ops != [] {
      hide Run, OverflowStores, Contents, Overflows;
      var n := |ops| - 1;
      LastOverflow(c, ops);
      CounterRightExactlyWhen(c, ops[..n]);
      ContentsStep(ops);
      if OverflowStores(c, ops[..n]) == 0 && ops[n].StoreOp? { OverflowsWhenFull(c, ops[..n], ops[n].key); }
    }
    RunRefinesMap(c, ops);
  }

  // ------------------------------------------------------------------------------
  // Two consequences over whole runs
  // ------------------------------------------------------------------------------

  /** A record once on disk keeps its extent for good. */
  lemma DiskPlaceIsForever(c: Config, s: PoolState, op: Op, k: SparseKey)
    requires Inv(c, s) && Allowed(c, s, op) && Handle(c, s, op).Live? && k in DiskKeys(s)
    ensures var t := Handle(c, s, op).state;
      k in DiskKeys(t) && t.smap[k].index == s.smap[k].index && t.numDisk >= s.numDisk
  {
    hide Core, Stored, EvictAll;
    if op.StoreOp? && Overflows(c, s, op.key) && c.useDisk {
      EvictAllCounts(c, s.(overflowed := true), op.evicted);
    }
  }

  /** ... through any number of later requests. */
  lemma {:induction false} DiskPlaceIsForeverInRuns(c: Config, ops: seq<Op>, more: seq<Op>, k: SparseKey)
    requires Run(c, ops + more).Live? && Run(c, ops).Live? && k in DiskKeys(Run(c, ops).state)
    ensures var s, t := Run(c, ops).state, Run(c, ops + more).state;
      k in DiskKeys(t) && t.smap[k].index == s.smap[k].index && t.numDisk >= s.numDisk
    decreases |more|
  {
    InitInv(c);
    if more == [] {
      assert ops + more == ops;
    } else {
      var n := |more| - 1;
      assert (ops + more)[..|ops + more| - 1] == ops + more[..n] && (ops + more)[|ops + more| - 1] == more[n];
      DiskPlaceIsForeverInRuns(c, ops, more[..n], k);
      DiskPlaceIsForever(c, Run(c, ops + more[..n]).state, more[n], k);
    }
  }

  /** With m records in memory and this much drift: either a dump takes at most one of
      them, or the counter has not yet drifted far enough to force that. */
  ghost predicate SettledAt(c: Config, m: nat, drift: int) {
    drift >= c.maxRecords ==> DumpCount(c, m) <= 1 || m + drift <= 2 * c.maxRecords
  }

  ghost predicate Settled(c: Config, s: PoolState) {
    SettledAt(c, |MemKeys(s)|, Drift(s))
  }

  lemma SettledArithmetic(c: Config, m: nat, drift: int)
    requires SettledAt(c, m, drift) && 0 <= m - DumpCount(c, m) + 1 <= c.maxRecords
    ensures SettledAt(c, m - DumpCount(c, m) + 1, drift + 1)
  {
    DumpCountStep(c, m);
  }

  lemma SettledBegin(c: Config, s: PoolState, k: SparseKey, ks: seq<SparseKey>)
    requires Inv(c, s) && Choice(c, s, k, ks) && Settled(c, s) && BeginStore(c, s, k, ks).Begun?
    ensures Settled(c, BeginStore(c, s, k, ks).state)
  {
    hide Core, Stored, EvictAll;
    if k in s.smap {
      assert MemKeys(BeginStore(c, s, k, ks).state) == MemKeys(s);
    } else if Overflows(c, s, k) {
      BeginStoreKeeps(c, s, k, ks);
      StoreOverflowing(c, s, k, ks);
      SettledArithmetic(c, |MemKeys(s)|, Drift(s));
    } else {
      StoreBelowLimit(c, s, k);
    }
  }

  lemma SettledEnd(c: Config, s: PoolState, k: SparseKey, data: Bytes)
    requires k in s.smap && InPool(s, k) && Settled(c, s)
    ensures Settled(c, EndStore(c, s, k, data))
  {
    assert MemKeys(EndStore(c, s, k, data)) == MemKeys(s);
  }

  lemma SettledPull(c: Config, s: PoolState, k: SparseKey)
    requires InPool(s, k) && Settled(c, s) && PullData(c, s, k).Pulled?
    ensures Settled(c, PullData(c, s, k).state)
  {
    assert MemKeys(PullData(c, s, k).state) == MemKeys(s);
  }

  lemma SettledStep(c: Config, s: PoolState, op: Op)
    requires Inv(c, s) && Allowed(c, s, op) && Settled(c, s) && Handle(c, s, op).Live?
    ensures Settled(c, Handle(c, s, op).state)
  {
    hide Inv, Stored, BeginStore, EndStore, PullData, Settled;
    match op
    case StoreOp(k, data, ks) =>
      BeginStoreKeeps(c, s, k, ks);
      SettledBegin(c, s, k, ks);
      EndStoreKeeps(c, BeginStore(c, s, k, ks).state, k, data);
      SettledEnd(c, BeginStore(c, s, k, ks).state, k, data);
    case PullOp(k) =>
      PullDataKeeps(c, s, k);
      SettledPull(c, s, k);
  }

  lemma {:induction false} RunSettled(c: Config, ops: seq<Op>)
    requires Run(c, ops).Live?
    ensures Settled(c, Run(c, ops).state)
  {
    InitInv(c);
    if ops == [] {
      assert MemKeys(Init(c)) == {};
    } else {
      RunSettled(c, ops[..|ops| - 1]);
      SettledStep(c, Run(c, ops[..|ops| - 1]).state, ops[|ops| - 1]);
    }
  }

  /** What the double count costs: after twice as many overflow stores as there are slots,
      and from then on, memory holds fewer than 2 / ratio records (ratio times their number
      is below 2), however many slots the pool task was given. */
  lemma MemoryTierCollapses(c: Config, ops: seq<Op>)
    requires Run(c, ops).Live? && OverflowStores(c, ops) >= 2 * c.maxRecords
    ensures Share(c.ratio, |MemKeys(Run(c, ops).state)|) < 2.0
  {
    RunSettled(c, ops);
    RunRefinesMap(c, ops);
    var m := |MemKeys(Run(c, ops).state)|;
    DumpCountBelow(c, m);
  }
}
