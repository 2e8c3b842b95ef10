/** A pool task as the program runs it: an object whose methods update the sparse map, the
    memory slots, the stack of free slots, the counters and the scratch file in place.
    Each method is tied to the function of the same name in PoolSpec.dfy. */
module PoolTask {
  import opened Wrappers
  import opened ScratchFile
  import opened PoolSpec
  import opened PoolRuns
  import opened Protocol
  import opened PoolInbox

  /** How polling ends: told to, through an abort, or still waiting for a next header. */
  datatype Stop = Exited | Aborted | Waiting

  /** An entry of the dump's priority queue. */
  datatype NodePriority = NodePriority(priority: nat, key: SparseKey, ocoreIndex: nat)

  ghost function Nodes(s: PoolState, ks: set<SparseKey>): set<NodePriority>
    requires ks <= s.smap.Keys
  {
    set k | k in ks :: NodePriority(s.smap[k].readCount, k, s.smap[k].index)
  }

  lemma {:induction false} NodesSize(s: PoolState, ks: set<SparseKey>)
    requires ks <= s.smap.Keys
    ensures |Nodes(s, ks)| == |ks|
    decreases |ks|
  {
    if ks != {} {
      var k :| k in ks;
      NodesSize(s, ks - {k});
      assert Nodes(s, ks) == Nodes(s, ks - {k}) + {NodePriority(s.smap[k].readCount, k, s.smap[k].index)};
    }
  }

  /** What the heap may have on top. */
  predicate IsTop(q: set<NodePriority>, n: NodePriority) {
    n in q && forall m :: m in q ==> n.priority <= m.priority
  }

  lemma {:induction false} TopExists(q: set<NodePriority>)
    requires q != {}
    ensures exists n :: IsTop(q, n)
    decreases |q|
  {
    var n :| n in q;
    if q == {n} {
      assert IsTop(q, n);
    } else {
      TopExists(q - {n});
      var m :| IsTop(q - {n}, m);
      assert IsTop(q, if m.priority <= n.priority then m else n);
    }
  }

  class OcorePool {
    const c: Config
    var smap: map<SparseKey, Datagram>
    const pool: array<Bytes>
    var freeRecords: seq<nat>
    var numActiveRecords: int
    var numActiveDiskRecords: nat
    var scratch: Bytes
    var overflowTriggered: bool

    ghost function State(): PoolState
      reads this, pool
    {
      PoolState(smap, pool[..], freeRecords, numActiveRecords, numActiveDiskRecords, scratch, overflowTriggered)
    }

    ghost predicate Valid()
      reads this, pool
    {
      Inv(c, State())
    }

    /** The pool side of initialization: an empty map over zero-filled slots. */
    constructor (c: Config)
      ensures this.c == c && fresh(pool) && Valid() && State() == Init(c)
      ensures smap == map[] && freeRecords == [] && numActiveRecords == 0 && numActiveDiskRecords == 0
      ensures pool.Length == c.maxRecords
      ensures forall i, n :: 0 <= i < pool.Length && 0 <= n < |pool[i]| ==> pool[i][n] == 0
    {
      this.c := c;
      var zeros := Zeros(RecordBytes(c));
      pool := new Bytes[c.maxRecords](_ => zeros);
      smap, freeRecords, numActiveRecords := map[], [], 0;
      numActiveDiskRecords, scratch, overflowTriggered := 0, [], false;
      new;
      InitInv(c);
      assert pool[..] == Init(c).pool;
    }

    /** The queue a dump starts from: one entry for every record in memory. */
    method BuildQueue() returns (q: set<NodePriority>)
      ensures q == Nodes(State(), MemKeys(State()))
    {
      q := {};
      var todo := smap.Keys;
      while todo != {}
        invariant todo <= smap.Keys
        invariant q == Nodes(State(), MemKeys(State()) - todo)
      {
        var k :| k in todo;
        todo := todo - {k};
        if smap[k].inMem {
          q := q + {NodePriority(smap[k].readCount, k, smap[k].index)};
          assert MemKeys(State()) - todo == MemKeys(State()) - (todo + {k}) + {k};
        } else {
          assert MemKeys(State()) - todo == MemKeys(State()) - (todo + {k});
        }
      }
      assert MemKeys(State()) - todo == MemKeys(State());
    }

    /** One turn of the dump loop for the record on top of the queue. */
    method MoveToDisk(top: NodePriority)
      requires InMem(State(), top.key) && smap[top.key].index == top.ocoreIndex < pool.Length
      modifies this
      ensures State() == EvictOne(c, old(State()), top.key)
    {
      var diskIndex := numActiveDiskRecords;
      var offset := diskIndex * RecordBytes(c);
      scratch := WriteAt(scratch, offset, pool[top.ocoreIndex]);
      smap := smap[top.key := smap[top.key].(inMem := false, index := diskIndex)];
      freeRecords := freeRecords + [top.ocoreIndex];
      numActiveDiskRecords := numActiveDiskRecords + 1;
      numActiveRecords := numActiveRecords - 1;
    }

    /** The dump loop: pops the queue n times and moves what comes off to disk. */
    method DumpFrom(queue: set<NodePriority>, n: nat) returns (ghost evicted: seq<SparseKey>)
      requires Core(c, State()) && queue == Nodes(State(), MemKeys(State())) && n <= |queue|
      modifies this
      ensures |evicted| == n && Evictable(old(State()), evicted)
      ensures forall j :: 0 <= j < n ==> LeastRead(old(State()), evicted[j], evicted[..j])
      ensures State() == EvictAll(c, old(State()), evicted)
    {
      hide Core, LeastRead, Nodes, EvictAll, EvictOne, Distinct, Elems, MemKeys;
      ghost var s := State();
      var q := queue;
      evicted := [];
      NothingTaken(c, s);
      for i := 0 to n
        invariant |evicted| == i && Taken(s, evicted, q)
        invariant State() == EvictAll(c, s, evicted)
      {
        QueueSize(s, evicted, q);
        TopExists(q);
        var top :| IsTop(q, top);
        TakeTop(c, s, evicted, q, top);
        MoveToDisk(top);
        q := q - {top};
        evicted := evicted + [top.key];
      }
    }

    /** Moves the least-read records to the scratch file. */
    method DumptoDisk() returns (ghost evicted: seq<SparseKey>)
      requires Core(c, State())
      modifies this
      ensures EvictionOrder(c, old(State()), evicted)
      ensures State() == Dump(c, old(State()), evicted)
    {
      ghost var s := State();
      overflowTriggered := true;
      SameLayout(c, s, State());
      var q := BuildQueue();
      NodesSize(State(), MemKeys(State()));
      var numToDump := DumpCount(c, |q|);
      DumpCountBelow(c, |q|);
      evicted := DumpFrom(q, numToDump);
      OrderTransfers(c, s, s.(overflowed := true), evicted);
    }

    /** The next slot for a new record; none when the pool task has to abort. */
    method GetFreeRecord() returns (slot: Option<nat>, ghost evicted: seq<SparseKey>)
      requires Valid()
      modifies this
      ensures if old(numActiveRecords) >= c.maxRecords && c.useDisk
              then EvictionOrder(c, old(State()), evicted) else evicted == []
      ensures PoolSpec.GetFreeRecord(c, old(State()), evicted)
              == if slot.Some? then Slot(State(), slot.value) else Full
    {
      hide Core, EvictAll, EvictionOrder, Dense;
      evicted := [];
      if numActiveRecords < c.maxRecords {
        if freeRecords == [] {
          slot := Some(numActiveRecords);
        } else {
          slot := Some(freeRecords[|freeRecords| - 1]);
          freeRecords := freeRecords[..|freeRecords| - 1];
        }
      } else {
        if !c.useDisk {
          return None, [];
        }
        evicted := DumptoDisk();
        if freeRecords == [] {
          return None, evicted;
        }
        slot := Some(freeRecords[|freeRecords| - 1]);
        freeRecords := freeRecords[..|freeRecords| - 1];
        numActiveRecords := numActiveRecords + 1;
      }
    }

    /** The bookkeeping StoreData does before it waits for the payload. */
    method FindRecord(key: SparseKey) returns (ok: bool, offset: nat, inMem: bool, ghost evicted: seq<SparseKey>)
      requires Valid()
      modifies this
      ensures Choice(c, old(State()), key, evicted)
      ensures BeginStore(c, old(State()), key, evicted) == if ok then Begun(State()) else Abort
      ensures ok ==> key in smap && smap[key].index == offset && smap[key].inMem == inMem
    {
      evicted := [];
      if key !in smap {
        var slot;
        slot, evicted := GetFreeRecord();
        if slot.None? {
          return false, 0, true, evicted;
        }
        offset, inMem := slot.value, true;
        smap := smap[key := Datagram(true, offset, 0, 1)];
        numActiveRecords := numActiveRecords + 1;
      } else {
        offset, inMem := smap[key].index, smap[key].inMem;
        smap := smap[key := smap[key].(writeCount := smap[key].writeCount + 1)];
      }
      ok := true;
    }

    method SaveBlock(key: SparseKey, offset: nat, inMem: bool, data: Bytes)
      requires key in smap && smap[key].index == offset && smap[key].inMem == inMem
      requires inMem ==> offset < pool.Length
      modifies this, pool
      ensures InPool(old(State()), key)
      ensures State() == EndStore(c, old(State()), key, data)
    {
      ghost var before := State();
      if inMem {
        pool[offset] := data;
      } else {
        var diskOffset := offset * RecordBytes(c);
        scratch := WriteAt(scratch, diskOffset, data);
      }
      assert State().pool == EndStore(c, before, key, data).pool;
    }

    /** Receives one block and stores it, in memory or on disk. `newData` is not used. */
    method StoreData(key: SparseKey, newData: bool, data: Bytes) returns (ok: bool, ghost evicted: seq<SparseKey>)
      requires Valid() && |data| == RecordBytes(c)
      modifies this, pool
      ensures Allowed(c, old(State()), StoreOp(key, data, evicted))
      ensures Handle(c, old(State()), StoreOp(key, data, evicted)) == if ok then Live(State(), []) else Dead
    {
      ghost var s0 := State();
      var offset, inMem;
      ok, offset, inMem, evicted := FindRecord(key);
      if ok {
        StoreInRange(c, s0, key, evicted);
        SaveBlock(key, offset, inMem, data);
      }
    }

    /** Sends back one block; none when an assertion fails. */
    method PullData(key: SparseKey) returns (data: Option<Bytes>)
      requires Valid()
      modifies this
      ensures Handle(c, old(State()), PullOp(key))
              == if data.Some? then Live(State(), [Reply(key, data.value)]) else Dead
    {
      PullDataKeeps(c, State(), key);
      if key !in smap {
        return None;
      }
      var offset, inMem := smap[key].index, smap[key].inMem;
      smap := smap[key := smap[key].(readCount := smap[key].readCount + 1)];
      if inMem {
        data := Some(pool[offset]);
      } else {
        var diskOffset := offset * RecordBytes(c);
        if ItemsRead(scratch, diskOffset, c.wordSize, c.blocksize) != c.blocksize {
          return None;
        }
        data := Some(scratch[diskOffset..diskOffset + RecordBytes(c)]);
      }
    }

    /** One turn of the polling loop for a header other than exit; a header meant for
        another rank is dropped. */
    method Serve(rank: nat, m: Message) returns (ok: bool, replies: seq<Reply>, ghost ops: seq<Op>)
      requires Valid() && !m.header.Exit? && (IsWrite(m.header) ==> |m.payload| == RecordBytes(c))
      modifies this, pool
      ensures |ops| <= 1 && Erase(ops) == RequestOf(rank, m)
      ensures ops == [] ==> ok && State() == old(State()) && replies == []
      ensures ops != [] ==> Allowed(c, old(State()), ops[0])
                            && Handle(c, old(State()), ops[0]) == if ok then Live(State(), replies) else Dead
      ensures if ok then Handled(c, old(State()), rank, m, State(), replies) else Refused(c, old(State()), rank, m)
    {
      ghost var s := State();
      ok, replies, ops := true, [], [];
      if rank == m.header.dest {
        var key := SparseKey(m.source, m.header.offset);
        if IsWrite(m.header) {
          ghost var evicted;
          ok, evicted := StoreData(key, m.header.WriteNew?, m.payload);
          ops := [StoreOp(key, m.payload, evicted)];
        } else {
          var data := PullData(key);
          ok, ops := data.Some?, [PullOp(key)];
          replies := if ok then [Reply(key, data.value)] else [];
        }
        HandleServes(c, s, rank, m, ops[0]);
      }
    }

    /** Serves one message after another until an exit header arrives or a request has to be
        refused; the first `served` have then been handled. Each read was answered to its
        sender, in order, with the block that sender last wrote to the offset, or else with
        what was stored for it before. */
    method PollForWork(rank: nat, inbox: seq<Message>)
        returns (stop: Stop, replies: seq<Reply>, ghost ops: seq<Op>, ghost served: nat)
      requires Valid()
      requires forall i :: 0 <= i < |inbox| && IsWrite(inbox[i].header) ==> |inbox[i].payload| == RecordBytes(c)
      modifies this, pool
      ensures stop.Aborted? ==> RunFrom(c, old(State()), ops) == Dead && Erase(ops) <= Requests(rank, inbox)
      ensures !stop.Aborted? ==> RunFrom(c, old(State()), ops) == Live(State(), replies)
                                 && Erase(ops) == Requests(rank, inbox)
      ensures served <= |inbox| && NoExit(inbox, served)
      ensures Answered(c, old(State()), rank, inbox[..served], replies)
      ensures match stop
              case Waiting => served == |inbox|
              case Exited => served < |inbox| && inbox[served].header.Exit?
              case Aborted => served < |inbox| && Unserved(c, old(State()), rank, inbox, served)
      ensures !stop.Aborted? ==> Mirrors(c, old(State()), rank, inbox[..served], State())
    {
      hide Stored, Handled, Refused, Inv;
      replies, ops := [], [];
      ghost var s0 := State();
      var i := 0;
      assert inbox[..i] == [];
      NothingServed(c, s0, rank);
      while i < |inbox|
        invariant 0 <= i <= |inbox|
        invariant NoExit(inbox, i)
        invariant RunFrom(c, s0, ops) == Live(State(), replies)
        invariant Erase(ops) == Requests(rank, inbox[..i])
        invariant Answered(c, s0, rank, inbox[..i], replies) && Mirrors(c, s0, rank, inbox[..i], State())
      {
        RequestsSplit(rank, inbox, i);
        if inbox[i].header.Exit? {
          RequestsPrefix(rank, inbox, i);
          return Exited, replies, ops, i;
        }
        ghost var s := State();
        var ok, more;
        ghost var op;
        ok, more, op := Serve(rank, inbox[i]);
        RunExtends(c, s0, ops, s, replies, op, ok, State(), more);
        ops := ops + op;
        if !ok {
          RequestsPrefix(rank, inbox, i + 1);
          RefusedIsUnserved(c, s0, rank, inbox, i, s);
          return Aborted, replies, ops, i;
        }
        OneMoreServed(c, s0, rank, inbox, i, s, replies, State(), more);
        replies := replies + more;
        i := i + 1;
      }
      assert inbox[..i] == inbox;
      stop, served := Waiting, |inbox|;
    }
  }

  lemma StoreInRange(c: Config, s: PoolState, k: SparseKey, ks: seq<SparseKey>)
    requires Inv(c, s) && Choice(c, s, k, ks) && BeginStore(c, s, k, ks).Begun?
    ensures var t := BeginStore(c, s, k, ks).state; k in t.smap && InPool(t, k) && |t.pool| == |s.pool|
  {
    BeginStoreKeeps(c, s, k, ks);
    assert Placed(c, BeginStore(c, s, k, ks).state, k);
  }

  lemma RunGrows(c: Config, s0: PoolState, ops: seq<Op>, op: Op, s: PoolState, replies: seq<Reply>)
    requires Inv(c, s0) && RunFrom(c, s0, ops) == Live(s, replies) && Allowed(c, s, op)
    ensures RunFrom(c, s0, ops + [op]) ==
            match Handle(c, s, op) case Live(t, more) => Live(t, replies + more) case stop => stop
  {
    hide Handle, Allowed, Inv;
    assert (ops + [op])[..|ops|] == ops;
  }

  lemma NothingErased()
    ensures Erase([]) == []
  {
  }

  lemma EraseGrows(ops: seq<Op>, op: Op)
    ensures Erase(ops + [op]) == Erase(ops) + Erase([op])
  {
    assert (ops + [op])[..|ops|] == ops && [op][..0] == [];
  }

  lemma RunExtends(c: Config, s0: PoolState, ops: seq<Op>, s: PoolState, replies: seq<Reply>,
                   op: seq<Op>, ok: bool, t: PoolState, more: seq<Reply>)
    requires Inv(c, s0) && RunFrom(c, s0, ops) == Live(s, replies) && |op| <= 1
    requires op == [] ==> ok && t == s && more == []
    requires op != [] ==> Inv(c, s) && Allowed(c, s, op[0]) && Handle(c, s, op[0]) == if ok then Live(t, more) else Dead
    ensures RunFrom(c, s0, ops + op) == if ok then Live(t, replies + more) else Dead
    ensures Erase(ops + op) == Erase(ops) + Erase(op)
  {
    hide RunFrom, Handle, Allowed, Inv, Erase;
    if op == [] {
      assert ops + op == ops && replies + more == replies;
      NothingErased();
      assert Erase(ops) + [] == Erase(ops);
    } else {
      assert op == [op[0]];
      RunGrows(c, s0, ops, op[0], s, replies);
      EraseGrows(ops, op[0]);
    }
  }

  /** Part way through a dump: `gone` came off the heap in order, q is what is left. */
  ghost predicate Taken(s: PoolState, gone: seq<SparseKey>, q: set<NodePriority>) {
    && Evictable(s, gone)
    && (forall j :: 0 <= j < |gone| ==> LeastRead(s, gone[j], gone[..j]))
    && Elems(gone) <= MemKeys(s)
    && q == Nodes(s, MemKeys(s) - Elems(gone))
  }

  lemma NothingTaken(c: Config, s: PoolState)
    ensures Taken(s, [], Nodes(s, MemKeys(s))) && EvictAll(c, s, []) == s
    ensures |Nodes(s, MemKeys(s))| == |MemKeys(s)|
  {
    assert MemKeys(s) - Elems([]) == MemKeys(s);
    NodesSize(s, MemKeys(s));
  }

  lemma QueueSize(s: PoolState, gone: seq<SparseKey>, q: set<NodePriority>)
    requires Taken(s, gone, q)
    ensures |q| == |MemKeys(s)| - |gone|
  {
    DistinctSize(gone);
    NodesSize(s, MemKeys(s) - Elems(gone));
  }

  lemma TakeTop(c: Config, s: PoolState, gone: seq<SparseKey>, q: set<NodePriority>, top: NodePriority)
    requires Core(c, s) && Taken(s, gone, q) && IsTop(q, top)
    ensures top.key !in gone && InMem(s, top.key) && s.smap[top.key].index == top.ocoreIndex < |s.pool|
    ensures Taken(s, gone + [top.key], q - {top})
    ensures EvictAll(c, s, gone + [top.key]) == EvictOne(c, EvictAll(c, s, gone), top.key)
  {
    TopIsNext(c, s, q, gone, top);
    LeastReadExtends(s, gone, top.key);
    NodesLess(s, MemKeys(s) - Elems(gone), top.key);
    assert Elems(gone + [top.key]) == Elems(gone) + {top.key};
    assert MemKeys(s) - Elems(gone) - {top.key} == MemKeys(s) - Elems(gone + [top.key]);
    assert (gone + [top.key])[..|gone|] == gone;
  }

  lemma NodesLess(s: PoolState, ks: set<SparseKey>, k: SparseKey)
    requires ks <= s.smap.Keys && k in ks
    ensures Nodes(s, ks - {k}) == Nodes(s, ks) - {NodePriority(s.smap[k].readCount, k, s.smap[k].index)}
  {
  }

  /** The heap's top is a record still in memory and read least among those left. */
  lemma TopIsNext(c: Config, s: PoolState, q: set<NodePriority>, gone: seq<SparseKey>, top: NodePriority)
    requires Core(c, s) && Evictable(s, gone) && q == Nodes(s, MemKeys(s) - Elems(gone)) && IsTop(q, top)
    ensures top.key in MemKeys(s) && top.key !in gone && LeastRead(s, top.key, gone)
    ensures top == NodePriority(s.smap[top.key].readCount, top.key, s.smap[top.key].index)
    ensures top.ocoreIndex < |s.pool| && Evictable(s, gone + [top.key])
  {
    assert Placed(c, s, top.key);
    forall m | m in MemKeys(s) && m !in gone ensures s.smap[top.key].readCount <= s.smap[m].readCount {
      assert NodePriority(s.smap[m].readCount, m, s.smap[m].index) in q;
    }
  }

  lemma OrderTransfers(c: Config, s: PoolState, t: PoolState, ks: seq<SparseKey>)
    requires t == s.(overflowed := true) && Evictable(t, ks) && |ks| == DumpCount(c, |MemKeys(t)|)
    requires forall i :: 0 <= i < |ks| ==> LeastRead(t, ks[i], ks[..i])
    ensures EvictionOrder(c, s, ks)
  {
    assert MemKeys(t) == MemKeys(s);
    forall i | 0 <= i < |ks| ensures LeastRead(s, ks[i], ks[..i]) {
      assert LeastRead(t, ks[i], ks[..i]);
    }
  }
}
