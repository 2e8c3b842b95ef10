/** What a run of one pool task says about its bookkeeping: how often each record was read and
    written, which records a dump may move, and which free slot is handed out. */
module PoolCounts {
  import opened Wrappers
  import opened ScratchFile
  import opened PoolSpec
  import opened PoolRuns

  // ------------------------------------------------------------------------------
  // Read and write counts
  // ------------------------------------------------------------------------------

  /** How often a record was asked for. */
  function Reads(ops: seq<Op>, k: SparseKey): nat {
    if ops == [] then 0
    else Reads(ops[..|ops| - 1], k) + if ops[|ops| - 1].PullOp? && ops[|ops| - 1].key == k then 1 else 0
  }

  function Writes(ops: seq<Op>, k: SparseKey): nat {
    if ops == [] then 0
    else Writes(ops[..|ops| - 1], k) + if ops[|ops| - 1].StoreOp? && ops[|ops| - 1].key == k then 1 else 0
  }

  predicate Counted(s: PoolState, k: SparseKey, gets: nat, puts: nat) {
    if k in s.smap then s.smap[k].readCount == gets && s.smap[k].writeCount == puts
    else gets == 0 && puts == 0
  }

  lemma AllocationCounts(c: Config, s: PoolState, ks: seq<SparseKey>, m: SparseKey, gets: nat, puts: nat)
    requires 0 <= s.numActive && Evictable(s, ks) && Counted(s, m, gets, puts) && GetFreeRecord(c, s, ks).Slot?
    ensures Counted(GetFreeRecord(c, s, ks).state, m, gets, puts)
    ensures GetFreeRecord(c, s, ks).state.smap.Keys == s.smap.Keys
  {
    hide EvictAll;
    EvictAllCounts(c, s.(overflowed := true), ks);
  }

  lemma BeginCounts(c: Config, s: PoolState, k: SparseKey, ks: seq<SparseKey>, m: SparseKey, gets: nat, puts: nat)
    requires Inv(c, s) && Choice(c, s, k, ks) && Counted(s, m, gets, puts)
    requires 0 <= s.numActive && Evictable(s, ks) && BeginStore(c, s, k, ks).Begun?
    ensures Counted(BeginStore(c, s, k, ks).state, m, gets, puts + if m == k then 1 else 0)
  {
    hide Inv, GetFreeRecord;
    if k !in s.smap { AllocationCounts(c, s, ks, m, gets, puts); }
  }

  lemma StepCounts(c: Config, s: PoolState, op: Op, m: SparseKey, gets: nat, puts: nat)
    requires Inv(c, s) && Allowed(c, s, op) && Counted(s, m, gets, puts) && Handle(c, s, op).Live?
    ensures Counted(Handle(c, s, op).state, m, gets + (if op.PullOp? && op.key == m then 1 else 0),
                    puts + if op.StoreOp? && op.key == m then 1 else 0)
  {
    hide Core, BeginStore, Stored;
    match op
    case StoreOp(k, data, ks) =>
      BeginCounts(c, s, k, ks, m, gets, puts);
      BeginStoreKeeps(c, s, k, ks);
      EndStoreKeeps(c, BeginStore(c, s, k, ks).state, k, data);
    case PullOp(k) => PullDataKeeps(c, s, k);
  }

  lemma LiveBefore(c: Config, ops: seq<Op>)
    requires ops != [] && Run(c, ops).Live?
    ensures var p, op := ops[..|ops| - 1], ops[|ops| - 1];
      && Run(c, p).Live? && Allowed(c, Run(c, p).state, op) && Handle(c, Run(c, p).state, op).Live?
      && Run(c, ops).state == Handle(c, Run(c, p).state, op).state
  {
    hide Handle, Allowed, Inv;
    InitInv(c);
  }

  /** In every live run the read count of a record is the number of times it was asked for,
      and its write count the number of times it was stored; neither an update nor a dump
      resets them. */
  lemma {:induction false} CountsAreExact(c: Config, ops: seq<Op>, k: SparseKey)
    requires Run(c, ops).Live?
    ensures Counted(Run(c, ops).state, k, Reads(ops, k), Writes(ops, k))
    ensures k in Run(c, ops).state.smap ==>
      && Run(c, ops).state.smap[k].readCount == Reads(ops, k)
      && Run(c, ops).state.smap[k].writeCount == Writes(ops, k) > 0
  {
    if ops != [] {
      hide Run, Handle, Allowed, Inv;
      var p, op := ops[..|ops| - 1], ops[|ops| - 1];
      LiveBefore(c, ops);
      CountsAreExact(c, p, k);
      StepCounts(c, Run(c, p).state, op, k, Reads(p, k), Writes(p, k));
    }
    if k in Run(c, ops).state.smap { StoredWasWritten(c, ops, k); }
  }

  lemma {:induction false} StoredWasWritten(c: Config, ops: seq<Op>, k: SparseKey)
    requires Run(c, ops).Live? && k in Run(c, ops).state.smap
    ensures Writes(ops, k) > 0
  {
    hide Run, Stored, Served, OverflowStores, Inv;
    RunRefinesMap(c, ops);
    ContentsAreWritten(ops, k);
  }

  lemma {:induction false} ContentsAreWritten(ops: seq<Op>, k: SparseKey)
    ensures k in Contents(ops) <==> Writes(ops, k) > 0
  {
    if ops != [] { ContentsAreWritten(ops[..|ops| - 1], k); }
  }

  lemma BeginMoves(c: Config, s: PoolState, k: SparseKey, ks: seq<SparseKey>, gone: SparseKey, kept: SparseKey)
    requires Inv(c, s) && Choice(c, s, k, ks) && 0 <= s.numActive && Evictable(s, ks) && BeginStore(c, s, k, ks).Begun?
    requires gone in MemKeys(s) && gone !in MemKeys(BeginStore(c, s, k, ks).state)
    requires kept in MemKeys(BeginStore(c, s, k, ks).state) && kept != k
    ensures kept in s.smap && s.smap[gone].readCount <= s.smap[kept].readCount
  {
    hide Core, EvictAll, Stored;
    if MustDump(c, s, k) {
      DumpKeeps(c, s, ks);
      DumpIsLeastRead(c, s, ks, gone, kept);
    }
  }

  /** Least-read eviction over runs: when a request moves a record out of memory, that record
      had been asked for no more often than any other that stays. */
  lemma MovedWasLeastAskedFor(c: Config, ops: seq<Op>, op: Op, gone: SparseKey, kept: SparseKey)
    requires Run(c, ops).Live? && Run(c, ops + [op]).Live?
    requires gone in MemKeys(Run(c, ops).state) && gone !in MemKeys(Run(c, ops + [op]).state)
    requires kept in MemKeys(Run(c, ops + [op]).state) && kept != op.key
    ensures Reads(ops, gone) <= Reads(ops, kept)
  {
    hide Run, BeginStore, Core, Stored;
    var s := Run(c, ops).state;
    assert (ops + [op])[..|ops|] == ops;
    LiveBefore(c, ops + [op]);
    CountsAreExact(c, ops, gone);
    CountsAreExact(c, ops, kept);
    match op
    case StoreOp(k, data, ks) =>
      BeginStoreKeeps(c, s, k, ks);
      EndStoreKeeps(c, BeginStore(c, s, k, ks).state, k, data);
      BeginMoves(c, s, k, ks, gone, kept);
    case PullOp(k) =>
      PullDataKeeps(c, s, k);
      assert false;
  }

  // ------------------------------------------------------------------------------
  // Which free slot is handed out
  // ------------------------------------------------------------------------------

  /** The slots of the given records. */
  function SlotsOf(s: PoolState, ks: seq<SparseKey>): (slots: seq<nat>)
    requires forall i :: 0 <= i < |ks| ==> ks[i] in s.smap
    ensures |slots| == |ks|
  {
    seq(|ks|, i requires 0 <= i < |ks| => s.smap[ks[i]].index)
  }

  /** The slots a run has freed, in the order in which it did. */
  ghost function Freed(c: Config, ops: seq<Op>): seq<nat>
    requires Run(c, ops).Live?
  {
    if ops == [] then []
    else
      var p, op := ops[..|ops| - 1], ops[|ops| - 1];
      LiveBefore(c, ops);
      Freed(c, p) + FreedBy(c, Run(c, p).state, op)
  }

  ghost function FreedBy(c: Config, s: PoolState, op: Op): seq<nat>
    requires Inv(c, s) && Allowed(c, s, op)
  {
    match op
    case StoreOp(k, _, ks) => SlotsOf(s, ks)
    case PullOp(_) => []
  }

  /** When a slot was last freed; the later the higher, and -1 for never. */
  function LastAt(xs: seq<nat>, x: nat): (at: int)
    ensures -1 <= at < |xs|
  {
    if xs == [] then -1 else if xs[|xs| - 1] == x then |xs| - 1 else LastAt(xs[..|xs| - 1], x)
  }

  lemma {:induction false} LastAtAppend(xs: seq<nat>, ys: seq<nat>, x: nat)
    ensures LastAt(xs + ys, x) == if LastAt(ys, x) >= 0 then |xs| + LastAt(ys, x) else LastAt(xs, x)
    decreases |ys|
  {
    if ys == [] {
      assert xs + ys == xs;
    } else {
      assert (xs + ys)[..|xs + ys| - 1] == xs + ys[..|ys| - 1];
      LastAtAppend(xs, ys[..|ys| - 1], x);
    }
  }

  lemma {:induction false} LastAtDistinct(xs: seq<nat>, i: nat)
    requires Distinct(xs) && i < |xs|
    ensures LastAt(xs, xs[i]) == i
  {
    if i < |xs| - 1 { LastAtDistinct(xs[..|xs| - 1], i); }
  }

  lemma {:induction false} LastAtAbsent(xs: seq<nat>, x: nat)
    ensures LastAt(xs, x) >= 0 <==> x in xs
  {
    if xs != [] {
      assert xs == xs[..|xs| - 1] + [xs[|xs| - 1]];
      LastAtAbsent(xs[..|xs| - 1], x);
    }
  }

  /** The stack holds freed slots, the one freed last on top. */
  ghost predicate InOrder(free: seq<nat>, freed: seq<nat>) {
    && (forall i :: 0 <= i < |free| ==> LastAt(freed, free[i]) >= 0)
    && forall i, j :: 0 <= i < j < |free| ==> LastAt(freed, free[i]) < LastAt(freed, free[j])
  }

  lemma InOrderPush(free: seq<nat>, freed: seq<nat>, more: seq<nat>)
    requires InOrder(free, freed) && Distinct(free + more)
    ensures InOrder(free + more, freed + more)
  {
    var longer := free + more;
    forall i | 0 <= i < |longer|
      ensures LastAt(freed + more, longer[i]) ==
              if i < |free| then LastAt(freed, free[i]) else |freed| + (i - |free|)
    {
      LastAtAppend(freed, more, longer[i]);
      if i < |free| {
        assert longer[i] !in more by {
          forall j | 0 <= j < |more| ensures more[j] != longer[i] { assert longer[|free| + j] == more[j]; }
        }
        LastAtAbsent(more, longer[i]);
      } else {
        MoreDistinct(free, more);
        LastAtDistinct(more, i - |free|);
      }
    }
  }

  lemma MoreDistinct(free: seq<nat>, more: seq<nat>)
    requires Distinct(free + more)
    ensures Distinct(more)
  {
    forall i, j | 0 <= i < j < |more| ensures more[i] != more[j] {
      assert (free + more)[|free| + i] == more[i] && (free + more)[|free| + j] == more[j];
    }
  }

  lemma {:induction false} EvictAllFrees(c: Config, s: PoolState, ks: seq<SparseKey>)
    requires Evictable(s, ks)
    ensures EvictAll(c, s, ks).freeRecords == s.freeRecords + SlotsOf(s, ks)
  {
    if ks != [] {
      hide SlotsOf, WriteAt;
      var n := |ks| - 1;
      EvictAllFrees(c, s, ks[..n]);
      assert ks[n] !in ks[..n];
      SlotsLonger(s, ks);
      assert s.freeRecords + SlotsOf(s, ks) == s.freeRecords + SlotsOf(s, ks[..n]) + [s.smap[ks[n]].index];
    } else {
      assert s.freeRecords + [] == s.freeRecords;
    }
  }

  lemma SlotsLonger(s: PoolState, ks: seq<SparseKey>)
    requires ks != [] && forall i :: 0 <= i < |ks| ==> ks[i] in s.smap
    ensures var n := |ks| - 1; SlotsOf(s, ks) == SlotsOf(s, ks[..n]) + [s.smap[ks[n]].index]
  {
  }

  /** t comes from s by pushing these slots and, for a new record k, handing out the top one
      if there is any. */
  ghost predicate HandsOut(s: PoolState, k: SparseKey, more: seq<nat>, t: PoolState) {
    var free := s.freeRecords + more;
    if k in s.smap then more == [] && t.freeRecords == free
    else
      k in t.smap && t.smap[k].inMem &&
      if free == [] then t.freeRecords == [] && !t.overflowed
      else t.freeRecords == free[..|free| - 1] && t.smap[k].index == free[|free| - 1] && t.overflowed
  }

  lemma OverflowHandsOut(c: Config, s: PoolState, k: SparseKey, ks: seq<SparseKey>)
    requires Inv(c, s) && MustDump(c, s, k) && EvictionOrder(c, s, ks) && BeginStore(c, s, k, ks).Begun?
    ensures HandsOut(s, k, SlotsOf(s, ks), BeginStore(c, s, k, ks).state)
    ensures Distinct(s.freeRecords + SlotsOf(s, ks))
  {
    var s1 := s.(overflowed := true);
    EvictAllFrees(c, s1, ks);
    DumpKeeps(c, s, ks);
    assert SlotsOf(s1, ks) == SlotsOf(s, ks);
    hide EvictAll, Stored, EvictionOrder, Distinct, Inv, SlotsOf;
    assert Dump(c, s, ks).freeRecords == s.freeRecords + SlotsOf(s, ks);
    assert Distinct(Dump(c, s, ks).freeRecords);
  }

  lemma BeginHandsOut(c: Config, s: PoolState, k: SparseKey, ks: seq<SparseKey>)
    requires Inv(c, s) && Choice(c, s, k, ks) && 0 <= s.numActive && Evictable(s, ks) && BeginStore(c, s, k, ks).Begun?
    ensures HandsOut(s, k, SlotsOf(s, ks), BeginStore(c, s, k, ks).state)
    ensures Distinct(s.freeRecords + SlotsOf(s, ks))
  {
    hide EvictAll, Stored, EvictionOrder, Evictable;
    if MustDump(c, s, k) {
      OverflowHandsOut(c, s, k, ks);
    } else {
      assert SlotsOf(s, ks) == [] && s.freeRecords + [] == s.freeRecords;
      if k !in s.smap && s.numActive < c.maxRecords { FreshSlot(c, s); }
    }
  }

  lemma StepHandsOut(c: Config, s: PoolState, op: Op)
    requires Inv(c, s) && Allowed(c, s, op) && Handle(c, s, op).Live? && op.StoreOp?
    ensures HandsOut(s, op.key, FreedBy(c, s, op), Handle(c, s, op).state)
    ensures Distinct(s.freeRecords + FreedBy(c, s, op))
  {
    hide Core, BeginStore, Stored;
    BeginHandsOut(c, s, op.key, op.evicted);
    BeginStoreKeeps(c, s, op.key, op.evicted);
    EndStoreKeeps(c, BeginStore(c, s, op.key, op.evicted).state, op.key, op.data);
  }

  lemma {:induction false} FreeInOrder(c: Config, ops: seq<Op>)
    requires Run(c, ops).Live?
    ensures InOrder(Run(c, ops).state.freeRecords, Freed(c, ops))
  {
    if ops != [] {
      hide Run, Allowed, Inv, InOrder, Distinct, FreedBy;
      LiveBefore(c, ops);
      FreeInOrder(c, ops[..|ops| - 1]);
      StepInOrder(c, Run(c, ops[..|ops| - 1]).state, ops[|ops| - 1], Freed(c, ops[..|ops| - 1]));
    }
  }

  lemma StepInOrder(c: Config, s: PoolState, op: Op, freed: seq<nat>)
    requires Inv(c, s) && Allowed(c, s, op) && Handle(c, s, op).Live? && InOrder(s.freeRecords, freed)
    ensures InOrder(Handle(c, s, op).state.freeRecords, freed + FreedBy(c, s, op))
    ensures op.StoreOp? ==> InOrder(s.freeRecords + FreedBy(c, s, op), freed + FreedBy(c, s, op))
  {
    hide Core, BeginStore, Stored, Distinct, EndStore;
    if op.StoreOp? {
      StepHandsOut(c, s, op);
      InOrderPush(s.freeRecords, freed, FreedBy(c, s, op));
    } else {
      PullDataKeeps(c, s, op.key);
      assert freed + FreedBy(c, s, op) == freed;
    }
  }

  /** In every live run a new record gets, once slots have been freed and some are free, the
      one freed last: all that are still free had been freed before it. */
  lemma SlotFreedLastIsHandedOut(c: Config, ops: seq<Op>, op: Op)
    requires Run(c, ops).Live? && Run(c, ops + [op]).Live? && op.StoreOp? && op.key !in Run(c, ops).state.smap
    requires Run(c, ops + [op]).state.overflowed
    ensures var t, freed := Run(c, ops + [op]).state, Freed(c, ops + [op]);
      && op.key in MemKeys(t) && LastAt(freed, t.smap[op.key].index) >= 0
      && forall i :: i in t.freeRecords ==> LastAt(freed, i) < LastAt(freed, t.smap[op.key].index)
  {
    hide Run, Allowed, Inv, Handle, FreedBy, InOrder;
    assert (ops + [op])[..|ops|] == ops;
    var s := Run(c, ops).state;
    LiveBefore(c, ops + [op]);
    FreeInOrder(c, ops);
    StepInOrder(c, s, op, Freed(c, ops));
    StepHandsOut(c, s, op);
    TopIsLast(s.freeRecords + FreedBy(c, s, op), Freed(c, ops) + FreedBy(c, s, op));
  }

  lemma TopIsLast(free: seq<nat>, freed: seq<nat>)
    requires InOrder(free, freed) && free != []
    ensures LastAt(freed, free[|free| - 1]) >= 0
    ensures forall i :: i in free[..|free| - 1] ==> LastAt(freed, i) < LastAt(freed, free[|free| - 1])
  {
  }
}
