/** Runs that take the overflow path: any number of times where it works, and into the
    failing assertion where it does not. */
module PoolOverflow {
  import opened ScratchFile
  import opened PoolSpec
  import opened PoolRuns

  /** All offsets named in the run are below n. */
  predicate NamesBelow(ops: seq<Op>, n: nat) {
    forall i :: 0 <= i < |ops| ==> ops[i].key.offset < n
  }

  /** A key no request of such a run names. */
  function FreshKey(ops: seq<Op>): SparseKey {
    SparseKey(0, |ops|)
  }

  lemma {:induction false} ContentsBelow(ops: seq<Op>, n: nat)
    requires NamesBelow(ops, n)
    ensures forall k :: k in Contents(ops) ==> k.offset < n
  {
    if ops != [] {
      assert forall i :: 0 <= i < |ops| - 1 ==> ops[..|ops| - 1][i] == ops[i];
      ContentsBelow(ops[..|ops| - 1], n);
    }
  }

  lemma OrderFor(c: Config, s: PoolState, k: SparseKey) returns (ks: seq<SparseKey>)
    requires Inv(c, s)
    ensures Choice(c, s, k, ks)
  {
    ks := [];
    if MustDump(c, s, k) {
      DumpCountBelow(c, |MemKeys(s)|);
      ks := EvictionOrderExists(c, s, DumpCount(c, |MemKeys(s)|));
    }
  }

  /** The next request of a run, storing under a fresh key. */
  lemma FreshStore(c: Config, ops: seq<Op>) returns (op: Op)
    requires Run(c, ops).Live? && NamesBelow(ops, |ops|)
    ensures op.StoreOp? && op.key == FreshKey(ops) && op.key !in Run(c, ops).state.smap
    ensures Allowed(c, Run(c, ops).state, op) && NamesBelow(ops + [op], |ops + [op]|)
    ensures Contents(ops + [op]) == Contents(ops)[op.key := op.data] && |Contents(ops + [op])| == |Contents(ops)| + 1
  {
    hide Inv, Stored, EvictionOrder, Answers, OverflowStores;
    RunRefinesMap(c, ops);
    ContentsBelow(ops, |ops|);
    var k := FreshKey(ops);
    var ks := OrderFor(c, Run(c, ops).state, k);
    op := StoreOp(k, Zeros(RecordBytes(c)), ks);
    assert (ops + [op])[..|ops|] == ops;
    assert Contents(ops + [op]).Keys == Contents(ops).Keys + {k};
    assert |Contents(ops + [op])| == |Contents(ops + [op]).Keys| && |Contents(ops)| == |Contents(ops).Keys|;
  }

  lemma RunOneMore(c: Config, ops: seq<Op>, op: Op)
    requires Run(c, ops).Live? && Allowed(c, Run(c, ops).state, op)
    ensures Run(c, ops + [op]) ==
            match Handle(c, Run(c, ops).state, op)
            case Live(t, more) => Live(t, Run(c, ops).replies + more)
            case stop => stop
    ensures OverflowStores(c, ops + [op]) ==
            OverflowStores(c, ops) + if op.StoreOp? && Overflows(c, Run(c, ops).state, op.key) then 1 else 0
  {
    hide Handle, Allowed;
    InitInv(c);
    assert (ops + [op])[..|ops|] == ops;
  }

  /** A fresh store takes the overflow path or raises the counter. */
  lemma StoreFresh(c: Config, ops: seq<Op>, op: Op)
    requires Run(c, ops).Live? && op.StoreOp? && op.key !in Run(c, ops).state.smap
    requires Allowed(c, Run(c, ops).state, op) && (CanOverflow(c) || Run(c, ops).state.numActive < c.maxRecords)
    ensures var s, r := Run(c, ops).state, Run(c, ops + [op]);
      && r.Live?
      && OverflowStores(c, ops + [op]) == OverflowStores(c, ops) + (if Overflows(c, s, op.key) then 1 else 0)
      && (s.numActive < c.maxRecords ==> r.state.numActive == s.numActive + 1)
  {
    hide Core, Stored, EvictAll;
    var s := Run(c, ops).state;
    RunOneMore(c, ops, op);
    BeginStoreKeeps(c, s, op.key, op.evicted);
    if !s.overflowed { NoOverflowShape(c, s); }
  }

  /** From any live run, fresh stores reach the overflow path once more. */
  lemma {:induction false} OneMoreOverflow(c: Config, ops: seq<Op>) returns (longer: seq<Op>)
    requires CanOverflow(c) && Run(c, ops).Live? && NamesBelow(ops, |ops|)
    ensures Run(c, longer).Live? && NamesBelow(longer, |longer|)
    ensures OverflowStores(c, longer) == OverflowStores(c, ops) + 1
    decreases c.maxRecords - Run(c, ops).state.numActive
  {
    hide Run, OverflowStores, NamesBelow, Contents, Allowed;
    var op := FreshStore(c, ops);
    StoreFresh(c, ops, op);
    longer := ops + [op];
    if Run(c, ops).state.numActive < c.maxRecords {
      longer := OneMoreOverflow(c, longer);
    }
  }

  /** Where the overflow path works, runs take it any number of times. */
  lemma {:induction false} OverflowsAnyNumberOfTimes(c: Config, n: nat) returns (ops: seq<Op>)
    requires CanOverflow(c)
    ensures Run(c, ops).Live? && NamesBelow(ops, |ops|) && OverflowStores(c, ops) == n
  {
    if n == 0 {
      ops := [];
    } else {
      hide Run, OverflowStores;
      ops := OverflowsAnyNumberOfTimes(c, n - 1);
      ops := OneMoreOverflow(c, ops);
    }
  }

  /** So the memory tier does collapse: every such pool has a run that leaves so few records
      in memory that their share is below 2, and all other slots free. */
  lemma CollapseIsReached(c: Config) returns (ops: seq<Op>)
    requires CanOverflow(c)
    ensures Run(c, ops).Live? && Share(c.ratio, |MemKeys(Run(c, ops).state)|) < 2.0
    ensures |MemKeys(Run(c, ops).state)| + |Run(c, ops).state.freeRecords| == c.maxRecords
    ensures Run(c, ops).state.numActive == |MemKeys(Run(c, ops).state)| + 2 * c.maxRecords
  {
    hide Run, OverflowStores;
    ops := OverflowsAnyNumberOfTimes(c, 2 * c.maxRecords);
    MemoryTierCollapses(c, ops);
    RunRefinesMap(c, ops);
    CanOverflowHasSlots(c);
  }

  lemma CanOverflowHasSlots(c: Config)
    requires CanOverflow(c)
    ensures c.maxRecords > 0
  {
    DumpCountBelow(c, c.maxRecords);
  }

  /** Stores of n different records into a pool with room for them. */
  lemma {:induction false} FillUp(c: Config, n: nat) returns (ops: seq<Op>)
    requires n <= c.maxRecords && !CanOverflow(c)
    ensures Run(c, ops).Live? && NamesBelow(ops, |ops|) && |ops| == n && Run(c, ops).state.numActive == n
  {
    if n == 0 {
      ops := [];
    } else {
      hide Run, OverflowStores, NamesBelow, Contents, Allowed;
      ops := FillUp(c, n - 1);
      var op := FreshStore(c, ops);
      StoreFresh(c, ops, op);
      ops := ops + [op];
    }
  }

  /** Where it does not, one record more than there are slots is the end: without overflow the
      pool aborts, and with it the dump moves nothing and the assertion that a slot is free
      fails. */
  lemma OneTooMany(c: Config) returns (ops: seq<Op>, op: Op)
    requires !CanOverflow(c)
    ensures Run(c, ops).Live? && |ops| == c.maxRecords && Run(c, ops + [op]) == Dead
    ensures op.StoreOp? && Overflows(c, Run(c, ops).state, op.key)
    ensures c.useDisk ==> Evictable(Run(c, ops).state, op.evicted)
                          && Dump(c, Run(c, ops).state, op.evicted).freeRecords == []
  {
    hide Run, OverflowStores, NamesBelow, Contents, Core, Stored;
    ops := FillUp(c, c.maxRecords);
    op := FreshStore(c, ops);
    var s := Run(c, ops).state;
    NoOverflowShape(c, s);
    BeginStoreKeeps(c, s, op.key, op.evicted);
    RunOneMore(c, ops, op);
    if c.useDisk { DumpFreesASlot(c, s, op.evicted); }
  }
}
