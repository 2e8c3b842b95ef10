/** What holds over every run of the job, whatever the interleaving. */
module OcoreTheorems {
  import opened Wrappers
  import opened ScratchFile
  import opened Protocol
  import opened PoolSpec
  import opened PoolRuns
  import opened WorkerTask
  import opened OcoreSystem
  import opened OcoreInvariant
  import opened OcoreSteps
  import PM = PrivateMap

  /** The state a sequence of events leads to; none if one of them was not possible. */
  ghost function After(j: Job, es: seq<Event>): (r: Option<Sys>)
    requires ValidJob(j)
    ensures r.Some? ==> JobInv(j, r.value) && WellShaped(j, r.value)
  {
    if es == [] then
      StartInv(j);
      JobShape(j, Start(j));
      Some(Start(j))
    else
      var n := |es| - 1;
      match After(j, es[..n])
      case None => None
      case Some(s) =>
        if !Enabled(j, s, es[n]) then None
        else
          StepInv(j, s, es[n]);
          JobShape(j, Next(j, s, es[n]));
          Some(Next(j, s, es[n]))
  }

  // ---- every worker has a map of its own ----

  /** The job refines one private map per worker: in every run, every read and pop of every
      worker returned that worker's latest write to the offset since its last pop of it, or
      a blank block where there was none and empty records are allowed. */
  lemma ReadsAreOwnLatestWrites(j: Job, es: seq<Event>, w: nat, i: nat)
    requires ValidJob(j) && After(j, es).Some? && w < j.l.starting
    requires var h := After(j, es).value.tasks[w].log; i < |h| && !h[i].Wrote?
    ensures var h := After(j, es).value.tasks[w].log;
      match PM.LatestWrite(h[..i], h[i].offset)
      case Some(b) => h[i].data == b
      case None => h[i].Got? && j.emptyOk[w] && |h[i].data| == j.block
                   && forall n :: 0 <= n < j.block ==> h[i].data[n] == 0
  {
    var s := After(j, es).value;
    LinkAt(j, s, w, 0);
    PM.ReadsReturnLatestWrite(Zeros(j.block), j.emptyOk[w], s.tasks[w].log, i);
  }

  /** Popping a worker's records as often as it holds some returns each of them once, lowest
      offset first, and leaves its table empty. */
  lemma DrainEmptiesTheTable(j: Job, es: seq<Event>, w: nat, n: nat)
    requires ValidJob(j) && After(j, es).Some? && w < j.l.starting
    requires var h := After(j, es).value.tasks[w].log;
      n <= |h| && |h| - n == |PM.Contents(h[..n])| && PM.AllPops(h[n..])
    ensures var t := After(j, es).value.tasks[w];
      t.w.rankMap == map[] && PM.Returns(PM.Contents(t.log[..n]), t.log[n..])
  {
    LinkAt(j, After(j, es).value, w, 0);
    TaskDrained(j, After(j, es).value.tasks[w], w, n);
  }

  lemma TaskDrained(j: Job, t: Task, w: nat, n: nat)
    requires w < |j.emptyOk| && TaskOk(j, t, w) && n <= |t.log|
    requires |t.log| - n == |PM.Contents(t.log[..n])| && PM.AllPops(t.log[n..])
    ensures t.w.rankMap == map[] && PM.Returns(PM.Contents(t.log[..n]), t.log[n..])
  {
    hide PM.Returns, PM.AllPops, PM.Legal, PM.Contents, PM.Owners, PM.Assigned;
    var h := t.log;
    assert h == h[..n] + h[n..];
    PM.DrainReturnsAll(Zeros(j.block), j.emptyOk[w], h[..n], h[n..]);
    assert t.w.rankMap.Keys == {};
  }

  /** In every run the owner of each offset is the pool rank round robin gave it, and the
      totals a worker has handed to two pool tasks differ by at most one. */
  lemma OwnersAreFair(j: Job, es: seq<Event>, w: nat, p: nat, q: nat)
    requires ValidJob(j) && After(j, es).Some? && w < j.l.starting && p < j.l.numOcore && q < j.l.numOcore
    ensures var t := After(j, es).value.tasks[w];
      && t.w.rankMap == PM.Owners(j.l, t.log)
      && (forall off :: off in t.w.rankMap ==> j.l.starting <= t.w.rankMap[off] < j.l.starting + j.l.numOcore)
      && -1 <= PM.HandedTo(j.l, PM.Assigned(t.log), p) - PM.HandedTo(j.l, PM.Assigned(t.log), q) <= 1
  {
    var s := After(j, es).value;
    LinkAt(j, s, w, 0);
    TaskOwners(j, s.tasks[w], w);
    PM.RoundRobinIsFair(j.l, PM.Assigned(s.tasks[w].log), p, q);
  }

  /** Worker v, its channels to p and what p holds for it are the same in both states. */
  ghost predicate SameFor(j: Job, s: Sys, s': Sys, v: nat, p: nat, off: nat) {
    && v < |s.tasks| && v < |s'.tasks| && p < |s.pools| && p < |s'.pools| && p < |j.pools|
    && Pair(v, p) in s.links && Pair(v, p) in s'.links
    && s'.tasks[v] == s.tasks[v] && s'.links[Pair(v, p)] == s.links[Pair(v, p)]
    && Stored(j.pools[p], s'.pools[p].store, KeyOf(v, off)) == Stored(j.pools[p], s.pools[p].store, KeyOf(v, off))
  }

  /** A step that does not concern worker v leaves v, its channels, and every block any
      pool task holds for v as they were, evictions included. */
  lemma StepsOfOthersAreInvisible(j: Job, s: Sys, e: Event, v: nat, p: nat, off: nat)
    requires ValidJob(j) && JobInv(j, s) && WellShaped(j, s) && Enabled(j, s, e)
    requires v < |s.tasks| && p < |s.pools| && !Concerns(s, e, v)
    ensures SameFor(j, s, Next(j, s, e), v, p, off)
  {
    hide LinkOk, Stored, JobInv;
    LinkAt(j, s, v, p);
    match e
    case TakeHeader(i, w, ks) => HeaderForOther(j, s, i, w, ks, v, p, off);
    case TakeBlock(i) => BlockForOther(j, s, i, v, p, off);
    case _ =>
  }

  lemma HeaderForOther(j: Job, s: Sys, i: nat, w: nat, ks: seq<SparseKey>, v: nat, p: nat, off: nat)
    requires ValidJob(j) && JobInv(j, s) && WellShaped(j, s) && Enabled(j, s, TakeHeader(i, w, ks))
    requires v < |s.tasks| && p < |s.pools| && v != w
    ensures SameFor(j, s, Next(j, s, TakeHeader(i, w, ks)), v, p, off)
  {
    hide LinkOk, Stored, JobInv;
    LinkAt(j, s, v, i);
    var h, q := s.links[Pair(w, i)].headers[0], s.pools[i];
    if !h.Exit? && h.dest == PoolRank(j, i) {
      var key := SparseKey(w, h.offset);
      assert key != KeyOf(v, off);
      if IsWrite(h) {
        BeginStoreKeeps(j.pools[i], q.store, key, ks);
      } else {
        PullDataKeeps(j.pools[i], q.store, key);
      }
    }
  }

  lemma BlockForOther(j: Job, s: Sys, i: nat, v: nat, p: nat, off: nat)
    requires ValidJob(j) && JobInv(j, s) && WellShaped(j, s) && Enabled(j, s, TakeBlock(i))
    requires v < |s.tasks| && p < |s.pools| && !Concerns(s, TakeBlock(i), v)
    ensures SameFor(j, s, Next(j, s, TakeBlock(i)), v, p, off)
  {
    hide LinkOk, Stored, JobInv;
    var key := s.pools[i].pending.value;
    LinkAt(j, s, key.rank, i);
    PayloadFull(j, s.tasks[key.rank], key.rank, s.pools[i], i, s.links[Pair(key.rank, i)], s.exits);
    EndStoreKeeps(j.pools[i], s.pools[i].store, key, s.links[Pair(key.rank, i)].payloads[0]);
  }

  // ---- when the job aborts ----

  /** A worker reads an offset it does not hold, with empty records not allowed, or pops
      when it holds none. */
  predicate WorkerFault(j: Job, s: Sys, e: Event)
    requires |j.emptyOk| == |s.tasks|
  {
    match e
    case ReadCall(w, off) => w < |s.tasks| && off !in s.tasks[w].w.rankMap && !j.emptyOk[w]
    case PopCall(w) => w < |s.tasks| && s.tasks[w].w.rankMap == map[]
    case _ => false
  }

  /** A new record reaches a pool task with a record in every slot and no way to dump one. */
  predicate PoolFull(j: Job, s: Sys, e: Event)
    requires |j.pools| == |s.pools|
  {
    match e
    case TakeHeader(p, w, _) =>
      p < |s.pools| && Pair(w, p) in s.links && s.links[Pair(w, p)].headers != [] &&
      var h, store := s.links[Pair(w, p)].headers[0], s.pools[p].store;
      IsWrite(h) && SparseKey(w, h.offset) !in store.smap && |store.smap| == j.pools[p].maxRecords
      && !CanOverflow(j.pools[p])
    case _ => false
  }

  /** The job aborts in these situations and no other: in particular no read ever reaches a
      pool task that does not know the record, and no read from disk ever comes up short. */
  lemma AbortsExactlyWhen(j: Job, s: Sys, e: Event)
    requires ValidJob(j) && JobInv(j, s) && WellShaped(j, s) && Enabled(j, s, e)
    ensures Next(j, s, e).aborted <==> WorkerFault(j, s, e) || PoolFull(j, s, e)
  {
    hide LinkOk;
    match e
    case TakeHeader(p, w, ks) =>
      LinkAt(j, s, w, p);
      HeadKinds(j, s, w, p);
      var h := s.links[Pair(w, p)].headers[0];
      if IsWrite(h) {
        BeginStoreKeeps(j.pools[p], s.pools[p].store, SparseKey(w, h.offset), ks);
      } else if h.ReadRequest? {
        TakeReadInv(j, s, p, w, ks);
      }
    case _ =>
  }

  // ---- Finalize ----

  lemma NoReadHeader(hs: seq<Header>, dest: nat, tail: seq<Header>, i: nat)
    requires WritesThen(hs, dest, tail) && (tail == [] || tail == [Exit]) && i < |hs|
    ensures !hs[i].ReadRequest?
  {
    if i >= |hs| - |tail| {
      assert hs[i] == hs[|hs| - |tail|..][i - (|hs| - |tail|)];
    }
  }

  /** Once the master sends exit headers nobody is waiting: no read is on its way to any pool
      task, no reply on its way back, and a pool task that has stopped holds the latest
      block of every record the master gave it. */
  lemma ExitFindsNobodyWaiting(j: Job, s: Sys, w: nat, p: nat)
    requires ValidJob(j) && JobInv(j, s) && s.exits > 0 && w < |s.tasks| && p < |s.pools|
    ensures s.tasks[w].phase == Finalizing && s.links[Pair(w, p)].replies == []
    ensures forall i :: 0 <= i < |s.links[Pair(w, p)].headers| ==> !s.links[Pair(w, p)].headers[i].ReadRequest?
    ensures w == 0 && s.pools[p].exited ==>
      forall off :: off in s.tasks[0].w.rankMap && s.tasks[0].w.rankMap[off] == PoolRank(j, p) ==>
        && off in PM.Contents(s.tasks[0].log)
        && Stored(j.pools[p], s.pools[p].store, KeyOf(0, off)) == Some(PM.Contents(s.tasks[0].log)[off])
  {
    LinkAt(j, s, w, p);
    var t, q, k := s.tasks[w], s.pools[p], s.links[Pair(w, p)];
    forall i | 0 <= i < |k.headers| ensures !k.headers[i].ReadRequest? {
      NoReadHeader(k.headers, PoolRank(j, p), Tail(j, t, w, q, p, k, s.exits), i);
    }
    if w == 0 && q.exited {
      forall off | off in t.w.rankMap && t.w.rankMap[off] == PoolRank(j, p)
        ensures off in PM.Contents(t.log)
             && Stored(j.pools[p], q.store, KeyOf(0, off)) == Some(PM.Contents(t.log)[off])
      {
        assert Agrees(j, t, w, q, p, k, off);
      }
    }
  }

  // ---- every read is answered ----

  /** Steps that only move messages already on their way. */
  predicate Internal(e: Event) {
    e.PostBlock? || e.TakeReply? || e.TakeHeader? || e.TakeBlock?
  }

  ghost predicate Busy(s: Sys, w: nat) {
    w < |s.tasks| && (s.tasks[w].phase.Waiting? || s.tasks[w].phase.Sending?)
  }

  /** A send and a receive that meet: a block is posted to a pool task that waits for a block
      of this worker and has none in the channel, and a read is answered to a worker that
      waits for the answer. */
  predicate Matched(s: Sys, e: Event) {
    match e
    case PostBlock(w) =>
      && w < |s.tasks| && s.tasks[w].phase.Sending? && s.tasks[w].phase.pool < |s.pools|
      && Awaits(s, s.tasks[w].phase.pool, w)
    case TakeHeader(p, w, _) =>
      && w < |s.tasks| && Pair(w, p) in s.links && s.links[Pair(w, p)].headers != []
      && (s.links[Pair(w, p)].headers[0].ReadRequest? ==> s.tasks[w].phase.Waiting? && s.tasks[w].phase.pool == p)
    case _ => true
  }

  predicate Awaits(s: Sys, p: nat, w: nat)
    requires p < |s.pools|
  {
    && s.pools[p].pending.Some? && s.pools[p].pending.value.rank == w
    && Pair(w, p) in s.links && s.links[Pair(w, p)].payloads == []
  }

  lemma CanTakeHeader(j: Job, s: Sys, p: nat, w: nat) returns (e: Event)
    requires ValidJob(j) && JobInv(j, s) && WellShaped(j, s) && !s.aborted
    requires p < |s.pools| && w < |s.tasks| && s.links[Pair(w, p)].headers != []
    requires !s.pools[p].exited && s.pools[p].pending == None
    ensures Internal(e) && Enabled(j, s, e) && Matched(s, e) && e.TakeHeader? && e.p == p && e.w == w
  {
    LinkAt(j, s, w, p);
    var c, store, h := j.pools[p], s.pools[p].store, s.links[Pair(w, p)].headers[0];
    var ks: seq<SparseKey> := [];
    if !h.Exit? && MustDump(c, store, SparseKey(w, h.offset)) {
      DumpCountBelow(c, |MemKeys(store)|);
      ks := EvictionOrderExists(c, store, DumpCount(c, |MemKeys(store)|));
    }
    e := TakeHeader(p, w, ks);
    if h.ReadRequest? {
      ReadAtHead(j, s.tasks[w], w, s.pools[p], p, s.links[Pair(w, p)], s.exits);
    }
  }

  /** A pool task never waits for a block that is not coming. */
  lemma PendingMoves(j: Job, s: Sys, p: nat) returns (e: Event)
    requires ValidJob(j) && JobInv(j, s) && WellShaped(j, s) && !s.aborted
    requires p < |s.pools| && s.pools[p].pending.Some?
    ensures Internal(e) && Enabled(j, s, e) && Matched(s, e)
    ensures e == TakeBlock(p) || e == PostBlock(s.pools[p].pending.value.rank)
  {
    LinkAt(j, s, 0, p);
    var w := s.pools[p].pending.value.rank;
    LinkAt(j, s, w, p);
    var k := s.links[Pair(w, p)];
    assert |Offsets(s.pools[p], w, k)| >= 1;
    if k.payloads != [] {
      e := TakeBlock(p);
    } else {
      assert Unposted(s.tasks[w], p) != [];
      e := PostBlock(w);
    }
  }

  /** No deadlock, with buffered sends or without: while a worker is inside a write, a read or
      a pop, some message can be moved without any new call and without taking a header of
      another worker or one for another pool task, and where it is a block that is posted, or
      a read that is answered, the receive is waiting. */
  lemma BusyJobMoves(j: Job, s: Sys, w: nat) returns (e: Event)
    requires ValidJob(j) && JobInv(j, s) && WellShaped(j, s) && !s.aborted && Busy(s, w)
    ensures Internal(e) && Enabled(j, s, e) && Matched(s, e)
    ensures (e.TakeHeader? || e.TakeReply?) ==> e.w == w
    ensures e.TakeHeader? ==> e.p == s.tasks[w].phase.pool
  {
    LinkAt(j, s, w, 0);
    var t := s.tasks[w];
    var p := t.phase.pool;
    LinkAt(j, s, w, p);
    var q, k := s.pools[p], s.links[Pair(w, p)];
    if t.phase.Waiting? && k.replies != [] {
      return TakeReply(w);
    }
    if q.pending.Some? {
      e := PendingMoves(j, s, p);
    } else {
      assert k.headers != [] by {
        if t.phase.Sending? {
          assert |Offsets(q, w, k)| >= 1;
          assert InProgress(q, w) == [];
        }
      }
      e := CanTakeHeader(j, s, p, w);
    }
  }
}
