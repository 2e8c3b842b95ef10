/** The invariant of the whole job. Per worker and pool task it says: take what the pool
    task holds for the worker, replay the writes still on their way, and the result is the
    worker's own map on every offset the worker still holds. Records left behind by a pop
    are free to be anything: nothing refers to them until a write replaces them. */
module OcoreInvariant {
  import opened Wrappers
  import opened ScratchFile
  import opened Protocol
  import opened PoolSpec
  import opened PoolRuns
  import opened WorkerTask
  import opened OcoreSystem
  import PM = PrivateMap

  // ------------------------------------------------------------------------------
  // Writes on their way
  // ------------------------------------------------------------------------------

  /** The offsets of the write headers in a channel, in order. */
  function WriteOffsets(hs: seq<Header>): seq<nat> {
    if hs == [] then []
    else
      var n := |hs| - 1;
      if IsWrite(hs[n]) then WriteOffsets(hs[..n]) + [hs[n].offset] else WriteOffsets(hs[..n])
  }

  lemma {:induction false} WriteOffsetsPop(hs: seq<Header>)
    requires hs != []
    ensures WriteOffsets(hs) == (if IsWrite(hs[0]) then [hs[0].offset] else []) + WriteOffsets(hs[1..])
  {
    var n := |hs| - 1;
    if n > 0 {
      WriteOffsetsPop(hs[..n]);
      assert hs[..n][1..] == hs[1..][..n - 1];
    } else {
      assert hs[..0] == [] == hs[1..];
    }
  }

  lemma WriteOffsetsPush(hs: seq<Header>, h: Header)
    ensures WriteOffsets(hs + [h]) == WriteOffsets(hs) + if IsWrite(h) then [h.offset] else []
  {
    assert (hs + [h])[..|hs|] == hs;
  }

  /** What is found at an offset once the given writes have been applied, in order. */
  function Replay(offs: seq<nat>, blocks: seq<Bytes>, off: nat, start: Option<Bytes>): Option<Bytes>
    requires |offs| == |blocks|
  {
    if offs == [] then start
    else
      var n := |offs| - 1;
      if offs[n] == off then Some(blocks[n]) else Replay(offs[..n], blocks[..n], off, start)
  }

  lemma ReplayPush(offs: seq<nat>, blocks: seq<Bytes>, o: nat, b: Bytes, off: nat, start: Option<Bytes>)
    requires |offs| == |blocks|
    ensures Replay(offs + [o], blocks + [b], off, start)
         == if o == off then Some(b) else Replay(offs, blocks, off, start)
  {
    assert (offs + [o])[..|offs|] == offs && (blocks + [b])[..|blocks|] == blocks;
  }

  lemma {:induction false} ReplayPop(offs: seq<nat>, blocks: seq<Bytes>, off: nat, start: Option<Bytes>)
    requires |offs| == |blocks| && offs != []
    ensures Replay(offs, blocks, off, start)
         == Replay(offs[1..], blocks[1..], off, if offs[0] == off then Some(blocks[0]) else start)
  {
    var n := |offs| - 1;
    if n > 0 && offs[n] != off {
      ReplayPop(offs[..n], blocks[..n], off, start);
      assert offs[..n][1..] == offs[1..][..n - 1] && blocks[..n][1..] == blocks[1..][..n - 1];
    }
  }

  /** Where the first write goes, what was there before is irrelevant. */
  lemma ReplayHead(offs: seq<nat>, blocks: seq<Bytes>, off: nat, a: Option<Bytes>, b: Option<Bytes>)
    requires |offs| == |blocks| && offs != [] && (off != offs[0] ==> a == b)
    ensures Replay(offs, blocks, off, a) == Replay(offs, blocks, off, b)
  {
    ReplayPop(offs, blocks, off, a);
    ReplayPop(offs, blocks, off, b);
  }

  // ------------------------------------------------------------------------------
  // The invariant, one worker and one pool task at a time
  // ------------------------------------------------------------------------------

  function InProgress(q: Pool, w: nat): seq<nat> {
    if q.pending.Some? && q.pending.value.rank == w then [q.pending.value.offset] else []
  }

  /** Offsets of the writes of w that pool task p has not finished. */
  function Offsets(q: Pool, w: nat, k: Link): seq<nat> {
    InProgress(q, w) + WriteOffsets(k.headers)
  }

  lemma OffsetsPush(q: Pool, w: nat, k: Link, h: Header)
    ensures Offsets(q, w, k.(headers := k.headers + [h])) == Offsets(q, w, k) + if IsWrite(h) then [h.offset] else []
  {
    WriteOffsetsPush(k.headers, h);
  }

  lemma OffsetsTaken(q: Pool, q': Pool, w: nat, k: Link)
    requires q.pending == None && k.headers != [] && IsWrite(k.headers[0])
    requires q'.pending == Some(SparseKey(w, k.headers[0].offset))
    ensures Offsets(q', w, k.(headers := k.headers[1..])) == Offsets(q, w, k)
    ensures Offsets(q, w, k) != [] && Offsets(q, w, k)[0] == k.headers[0].offset
  {
    WriteOffsetsPop(k.headers);
  }

  function Unposted(t: Task, p: nat): seq<Bytes> {
    if t.phase.Sending? && t.phase.pool == p then [t.phase.data] else []
  }

  /** ... and their blocks, the one not yet posted included. */
  function Blocks(t: Task, p: nat, k: Link): seq<Bytes> {
    k.payloads + Unposted(t, p)
  }

  /** The headers behind all writes: an unanswered read, or an exit not yet seen. */
  function Tail(j: Job, t: Task, w: nat, q: Pool, p: nat, k: Link, exits: nat): seq<Header> {
    if t.phase.Waiting? && t.phase.pool == p && k.replies == []
    then [ReadRequest(PoolRank(j, p), t.phase.offset)]
    else if w == 0 && exits > p && !q.exited then [Exit]
    else []
  }

  ghost predicate WritesThen(hs: seq<Header>, dest: nat, tail: seq<Header>) {
    && |tail| <= |hs| && hs[|hs| - |tail|..] == tail
    && forall i :: 0 <= i < |hs| - |tail| ==> IsWrite(hs[i]) && hs[i].dest == dest
  }

  lemma WritesThenPush(hs: seq<Header>, dest: nat, h: Header)
    requires WritesThen(hs, dest, [])
    ensures WritesThen(hs + [h], dest, [h])
    ensures IsWrite(h) && h.dest == dest ==> WritesThen(hs + [h], dest, [])
  {
  }

  lemma NoHeaders(dest: nat)
    ensures WritesThen([], dest, [])
  {
  }

  lemma WritesThenPop(hs: seq<Header>, dest: nat, tail: seq<Header>)
    requires WritesThen(hs, dest, tail) && |tail| <= 1 && hs != []
    ensures IsWrite(hs[0]) && (tail == [] || !IsWrite(tail[0])) ==> WritesThen(hs[1..], dest, tail)
    ensures !IsWrite(hs[0]) ==> hs == tail && hs[1..] == []
  {
    assert hs[0..] == hs;
    assert |tail| == |hs| ==> tail == hs;
    if IsWrite(hs[0]) && (tail == [] || !IsWrite(tail[0])) {
      assert hs[1..][|hs| - 1 - |tail|..] == hs[|hs| - |tail|..];
    }
    if !IsWrite(hs[0]) {
      assert |tail| == |hs|;
    }
  }

  /** The key under which a pool task stores what w writes at off; a term of its own, for the
      quantifiers below to be instantiated at. */
  function KeyOf(w: nat, off: nat): SparseKey {
    SparseKey(w, off)
  }

  /** At an offset w holds and p owns, the writes on their way lead to w's own map. */
  ghost predicate Agrees(j: Job, t: Task, w: nat, q: Pool, p: nat, k: Link, off: nat)
    requires |Offsets(q, w, k)| == |Blocks(t, p, k)| && p < |j.pools|
  {
    off in t.w.rankMap && t.w.rankMap[off] == PoolRank(j, p) ==>
      && off in PM.Contents(t.log)
      && Replay(Offsets(q, w, k), Blocks(t, p, k), off, Stored(j.pools[p], q.store, KeyOf(w, off)))
         == Some(PM.Contents(t.log)[off])
  }

  /** A reply on its way is the block the waiting worker expects. */
  ghost predicate RepliesOk(t: Task, p: nat, k: Link) {
    if t.phase.Waiting? && t.phase.pool == p then
      k.replies != [] ==>
        && |k.replies| == 1 && t.phase.offset in PM.Contents(t.log)
        && k.replies[0] == PM.Contents(t.log)[t.phase.offset]
    else k.replies == []
  }

  ghost predicate FullBlocks(bs: seq<Bytes>, n: nat) {
    forall i :: 0 <= i < |bs| ==> |bs[i]| == n
  }

  ghost predicate LinkOk(j: Job, t: Task, w: nat, q: Pool, p: nat, k: Link, exits: nat)
    requires p < |j.pools|
  {
    && WritesThen(k.headers, PoolRank(j, p), Tail(j, t, w, q, p, k, exits))
    && |Offsets(q, w, k)| == |Blocks(t, p, k)|
    && FullBlocks(Blocks(t, p, k), j.block)
    && RepliesOk(t, p, k)
    && (w == 0 && q.exited ==> exits > p && Offsets(q, w, k) == [])
    && forall off :: Agrees(j, t, w, q, p, k, off)
  }

  ghost predicate TaskOk(j: Job, t: Task, w: nat)
    requires w < |j.emptyOk|
  {
    && Tracks(j.l, t.w, t.log)
    && PM.Legal(Zeros(j.block), j.emptyOk[w], t.log)
    && (t.phase.Sending? || t.phase.Waiting? ==> t.phase.pool < j.l.numOcore)
    && (t.phase.Waiting? ==>
          && t.phase.offset in t.w.rankMap && t.w.rankMap[t.phase.offset] == PoolRank(j, t.phase.pool)
          && (t.phase.pop ==> PM.IsFirst(t.w.rankMap, t.phase.offset)))
  }

  ghost predicate PoolOk(j: Job, q: Pool, p: nat, exits: nat)
    requires p < |j.pools|
  {
    && Inv(j.pools[p], q.store)
    && (q.pending.Some? ==> q.pending.value in q.store.smap && q.pending.value.rank < j.l.starting)
    && (q.exited ==> q.pending == None && p < exits)
  }

  ghost predicate JobInv(j: Job, s: Sys)
    requires ValidJob(j)
  {
    && |s.tasks| == j.l.starting && |s.pools| == j.l.numOcore
    && (forall w, p :: 0 <= w < |s.tasks| && 0 <= p < |s.pools| ==> Pair(w, p) in s.links)
    && (forall w :: 0 <= w < |s.tasks| ==> TaskOk(j, s.tasks[w], w))
    && (forall p :: 0 <= p < |s.pools| ==> PoolOk(j, s.pools[p], p, s.exits))
    && (forall w, p :: 0 <= w < |s.tasks| && 0 <= p < |s.pools| ==>
          LinkOk(j, s.tasks[w], w, s.pools[p], p, s.links[Pair(w, p)], s.exits))
    && s.exits <= |s.pools|
    && (s.exits > 0 ==> AllFinalizing(s))
  }

  lemma {:induction false} OwnersInRange(l: Layout, h: PM.History, off: nat)
    requires off in PM.Owners(l, h)
    ensures l.starting <= PM.Owners(l, h)[off] < l.starting + l.numOcore
  {
    var g, o := h[..|h| - 1], h[|h| - 1];
    if !(PM.IsNew(g, o) && o.offset == off) {
      OwnersInRange(l, g, off);
    }
  }

  lemma TaskOwners(j: Job, t: Task, w: nat)
    requires w < |j.emptyOk| && TaskOk(j, t, w)
    ensures OwnersArePools(j, t.w)
  {
    forall off | off in t.w.rankMap ensures j.l.starting <= t.w.rankMap[off] < j.l.starting + j.l.numOcore {
      OwnersInRange(j.l, t.log, off);
    }
  }

  lemma InvReady(c: Config, s: PoolState, k: SparseKey)
    requires Inv(c, s)
    ensures InPool(s, k) && 0 <= s.numActive
  {
    assert Placed(c, s, k);
  }

  lemma JobShape(j: Job, s: Sys)
    requires ValidJob(j) && JobInv(j, s)
    ensures WellShaped(j, s)
  {
    forall p | 0 <= p < |s.pools| ensures Ready(s.pools[p]) {
      assert PoolOk(j, s.pools[p], p, s.exits);
      forall k ensures InPool(s.pools[p].store, k) && 0 <= s.pools[p].store.numActive {
        InvReady(j.pools[p], s.pools[p].store, k);
      }
      InvReady(j.pools[p], s.pools[p].store, KeyOf(0, 0));
    }
    forall w | 0 <= w < |s.tasks| ensures OwnersArePools(j, s.tasks[w].w) {
      TaskOwners(j, s.tasks[w], w);
    }
  }

  lemma StartInv(j: Job)
    requires ValidJob(j)
    ensures JobInv(j, Start(j))
  {
    var s := Start(j);
    forall p | 0 <= p < |s.pools| ensures PoolOk(j, s.pools[p], p, s.exits) {
      InitInv(j.pools[p]);
    }
    forall w | 0 <= w < |s.tasks| ensures TaskOk(j, s.tasks[w], w) {
    }
    forall w, p | 0 <= w < |s.tasks| && 0 <= p < |s.pools|
      ensures LinkOk(j, s.tasks[w], w, s.pools[p], p, s.links[Pair(w, p)], s.exits)
    {
      EmptyLink(j, w, p);
    }
  }

  lemma EmptyLink(j: Job, w: nat, p: nat)
    requires p < |j.pools|
    ensures LinkOk(j, Task(FRESH, Idle, []), w, Pool(Init(j.pools[p]), None, false), p, Link([], [], []), 0)
  {
  }

  // ------------------------------------------------------------------------------
  // What one step means for one worker and one pool task
  // ------------------------------------------------------------------------------

  /** What t' still holds with the pool task at `rank`, t held there too, and alike. */
  ghost predicate HoldsNoMore(t: Task, t': Task, rank: nat) {
    forall x :: x in t'.w.rankMap && t'.w.rankMap[x] == rank ==>
      && x in t.w.rankMap && t.w.rankMap[x] == rank
      && (x in PM.Contents(t.log) ==> x in PM.Contents(t'.log) && PM.Contents(t'.log)[x] == PM.Contents(t.log)[x])
  }

  ghost predicate SameStored(c: Config, q: Pool, q': Pool, w: nat) {
    forall off :: Stored(c, q'.store, KeyOf(w, off)) == Stored(c, q.store, KeyOf(w, off))
  }

  /** The writes on their way are the same before and after. */
  lemma SameFlow(j: Job, t: Task, t': Task, w: nat, q: Pool, q': Pool, p: nat, k: Link, k': Link,
                 exits: nat, exits': nat)
    requires p < |j.pools| && LinkOk(j, t, w, q, p, k, exits)
    requires Offsets(q', w, k') == Offsets(q, w, k) && Blocks(t', p, k') == Blocks(t, p, k)
    requires WritesThen(k'.headers, PoolRank(j, p), Tail(j, t', w, q', p, k', exits'))
    requires RepliesOk(t', p, k')
    requires w == 0 && q'.exited ==> exits' > p && Offsets(q, w, k) == []
    requires HoldsNoMore(t, t', PoolRank(j, p)) && SameStored(j.pools[p], q, q', w)
    ensures LinkOk(j, t', w, q', p, k', exits')
  {
    hide Replay, Stored, WritesThen, FullBlocks, RepliesOk, Tail, Offsets, Blocks;
    forall x ensures Agrees(j, t', w, q', p, k', x) {
      assert Agrees(j, t, w, q, p, k, x);
    }
  }

  /** A step for one worker leaves the links of every other worker as they were. */
  lemma LinkFrame(j: Job, t: Task, w: nat, q: Pool, q': Pool, p: nat, k: Link, exits: nat)
    requires p < |j.pools| && LinkOk(j, t, w, q, p, k, exits)
    requires InProgress(q', w) == InProgress(q, w) && (w == 0 ==> q'.exited == q.exited)
    requires SameStored(j.pools[p], q, q', w)
    ensures LinkOk(j, t, w, q', p, k, exits)
  {
    hide Replay, Stored, WritesThen, WriteOffsets, FullBlocks, RepliesOk;
    SameFlow(j, t, t, w, q, q', p, k, k, exits, exits);
  }

  lemma StartWriteTask(j: Job, t: Task, w: nat, off: nat, data: Bytes)
    requires w < |j.emptyOk| && TaskOk(j, t, w)
    ensures var t' := StartWrite(j, t, off, data);
      && TaskOk(j, t', w)
      && PM.Contents(t'.log) == PM.Contents(t.log)[off := data]
      && off in t'.w.rankMap && t'.w.rankMap[off] == PoolRank(j, t'.phase.pool)
      && WriteHeader(j.l, t.w, off).dest == PoolRank(j, t'.phase.pool) && t'.phase.data == data
      && WriteHeader(j.l, t.w, off).offset == off && IsWrite(WriteHeader(j.l, t.w, off))
      && (forall x :: x != off && x in t'.w.rankMap ==> x in t.w.rankMap && t'.w.rankMap[x] == t.w.rankMap[x])
  {
    var t' := StartWrite(j, t, off, data);
    TaskOwners(j, t, w);
    SettledOwner(j, t.w, off);
    WriteTracks(j.l, t.w, t.log, off, data);
    assert t'.log[..|t.log|] == t.log;
  }

  /** A worker's write changes nothing for the pool tasks it does not go to. */
  lemma StartWriteElsewhere(j: Job, t: Task, w: nat, q: Pool, p: nat, k: Link, off: nat, data: Bytes)
    requires p < |j.pools| && w < |j.emptyOk| && TaskOk(j, t, w) && t.phase == Idle && LinkOk(j, t, w, q, p, k, 0)
    requires StartWrite(j, t, off, data).phase.pool != p
    ensures LinkOk(j, StartWrite(j, t, off, data), w, q, p, k, 0)
  {
    hide Replay, Stored, WritesThen, WriteOffsets, FullBlocks;
    StartWriteTask(j, t, w, off, data);
    SameFlow(j, t, StartWrite(j, t, off, data), w, q, q, p, k, k, 0, 0);
  }

  lemma StartWriteHere(j: Job, t: Task, w: nat, q: Pool, p: nat, k: Link, off: nat, data: Bytes)
    requires p < |j.pools| && w < |j.emptyOk| && TaskOk(j, t, w) && t.phase == Idle && LinkOk(j, t, w, q, p, k, 0)
    requires StartWrite(j, t, off, data).phase.pool == p && |data| == j.block
    ensures LinkOk(j, StartWrite(j, t, off, data), w, q, p, k.(headers := k.headers + [WriteHeader(j.l, t.w, off)]), 0)
  {
    StartWriteTask(j, t, w, off, data);
    PushWrite(j, t, StartWrite(j, t, off, data), w, q, p, k, WriteHeader(j.l, t.w, off), data);
  }

  lemma PushWrite(j: Job, t: Task, t': Task, w: nat, q: Pool, p: nat, k: Link, h: Header, data: Bytes)
    requires p < |j.pools| && t.phase == Idle && LinkOk(j, t, w, q, p, k, 0)
    requires t'.phase == Sending(p, data) && |data| == j.block
    requires IsWrite(h) && h.dest == PoolRank(j, p)
    requires PM.Contents(t'.log) == PM.Contents(t.log)[h.offset := data]
    requires forall x :: x != h.offset && x in t'.w.rankMap ==> x in t.w.rankMap && t'.w.rankMap[x] == t.w.rankMap[x]
    ensures LinkOk(j, t', w, q, p, k.(headers := k.headers + [h]), 0)
  {
    hide Replay, Stored, WritesThen, WriteOffsets, Offsets;
    var k' := k.(headers := k.headers + [h]);
    WritesThenPush(k.headers, PoolRank(j, p), h);
    OffsetsPush(q, w, k, h);
    assert Blocks(t', p, k') == Blocks(t, p, k) + [data];
    forall x ensures Agrees(j, t', w, q, p, k', x) {
      assert Agrees(j, t, w, q, p, k, x);
      ReplayPush(Offsets(q, w, k), Blocks(t, p, k), h.offset, data, x, Stored(j.pools[p], q.store, KeyOf(w, x)));
    }
  }

  lemma PostBlockHere(j: Job, t: Task, w: nat, q: Pool, p: nat, k: Link, exits: nat)
    requires p < |j.pools| && t.phase.Sending? && t.phase.pool == p && LinkOk(j, t, w, q, p, k, exits)
    ensures LinkOk(j, t.(phase := Idle), w, q, p, k.(payloads := k.payloads + [t.phase.data]), exits)
  {
    hide Replay, Stored, WritesThen, WriteOffsets, FullBlocks;
    var t', k' := t.(phase := Idle), k.(payloads := k.payloads + [t.phase.data]);
    assert Blocks(t', p, k') == Blocks(t, p, k);
    SameFlow(j, t, t', w, q, q, p, k, k', exits, exits);
  }

  lemma PostBlockElsewhere(j: Job, t: Task, w: nat, q: Pool, p: nat, k: Link, exits: nat)
    requires p < |j.pools| && t.phase.Sending? && t.phase.pool != p && LinkOk(j, t, w, q, p, k, exits)
    ensures LinkOk(j, t.(phase := Idle), w, q, p, k, exits)
  {
    hide Replay, Stored, WritesThen, WriteOffsets, FullBlocks;
    SameFlow(j, t, t.(phase := Idle), w, q, q, p, k, k, exits, exits);
  }

  /** A worker's step that neither writes nor waits on this pool task. */
  lemma QuietLink(j: Job, t: Task, t': Task, w: nat, q: Pool, p: nat, k: Link, exits: nat)
    requires p < |j.pools| && LinkOk(j, t, w, q, p, k, exits)
    requires !t.phase.Sending? && !t'.phase.Sending?
    requires t.phase.Waiting? ==> t.phase.pool != p
    requires t'.phase.Waiting? ==> t'.phase.pool != p
    requires HoldsNoMore(t, t', PoolRank(j, p))
    ensures LinkOk(j, t', w, q, p, k, exits)
  {
    hide Replay, Stored, WritesThen, WriteOffsets, FullBlocks;
    SameFlow(j, t, t', w, q, q, p, k, k, exits, exits);
  }

  lemma StartReadHere(j: Job, t: Task, w: nat, q: Pool, p: nat, k: Link, off: nat, pop: bool)
    requires p < |j.pools| && w < |j.emptyOk| && TaskOk(j, t, w) && t.phase == Idle && LinkOk(j, t, w, q, p, k, 0)
    requires off in t.w.rankMap && t.w.rankMap[off] == PoolRank(j, p)
    ensures LinkOk(j, StartRead(j, t, off, pop), w, q, p,
                   k.(headers := k.headers + [ReadRequest(t.w.rankMap[off], off)]), 0)
  {
    hide Replay, Stored, WritesThen, WriteOffsets, Offsets, FullBlocks;
    var t', h := StartRead(j, t, off, pop), ReadRequest(t.w.rankMap[off], off);
    var k' := k.(headers := k.headers + [h]);
    WritesThenPush(k.headers, PoolRank(j, p), h);
    OffsetsPush(q, w, k, h);
    SameFlow(j, t, t', w, q, q, p, k, k', 0, 0);
  }

  /** The reply a worker takes is its own latest block; with a pop the offset goes too. */
  lemma EndReadHere(j: Job, t: Task, w: nat, q: Pool, p: nat, k: Link, exits: nat)
    requires p < |j.pools| && w < |j.emptyOk| && TaskOk(j, t, w) && t.phase.Waiting? && t.phase.pool == p
    requires LinkOk(j, t, w, q, p, k, exits) && k.replies != [] && exits == 0
    ensures LinkOk(j, EndRead(t, k.replies[0]), w, q, p, k.(replies := k.replies[1..]), exits)
  {
    hide Replay, Stored, WritesThen, WriteOffsets, FullBlocks;
    var t', k' := EndRead(t, k.replies[0]), k.(replies := k.replies[1..]);
    assert t'.log[..|t.log|] == t.log;
    SameFlow(j, t, t', w, q, q, p, k, k', 0, 0);
  }

  lemma EndReadTask(j: Job, t: Task, w: nat, q: Pool, p: nat, k: Link, exits: nat)
    requires p < |j.pools| && w < |j.emptyOk| && TaskOk(j, t, w) && t.phase.Waiting? && t.phase.pool == p
    requires LinkOk(j, t, w, q, p, k, exits) && k.replies != []
    ensures TaskOk(j, EndRead(t, k.replies[0]), w)
  {
    var t', data := EndRead(t, k.replies[0]), k.replies[0];
    assert t'.log[..|t.log|] == t.log;
    ReadTracks(j.l, t.w, t.log, t.phase.offset, data);
    assert t.w.rankMap.Keys == PM.Contents(t.log).Keys;
    assert PM.Legal(Zeros(j.block), j.emptyOk[w], t'.log) by {
      if t.phase.pop {
        assert PM.IsFirst(PM.Contents(t.log), t.phase.offset);
      }
    }
  }

  // ---- the pool task's side ----

  /** The header of a write is taken: its offset moves from the channel to the pool task,
      and what is in the slot meanwhile does not matter. */
  lemma TakeWriteHere(j: Job, t: Task, w: nat, q: Pool, p: nat, k: Link, exits: nat, store: PoolState)
    requires p < |j.pools| && LinkOk(j, t, w, q, p, k, exits)
    requires q.pending == None && !q.exited && k.headers != [] && IsWrite(k.headers[0])
    requires forall m :: m != KeyOf(w, k.headers[0].offset)
                         ==> Stored(j.pools[p], store, m) == Stored(j.pools[p], q.store, m)
    ensures LinkOk(j, t, w, Pool(store, Some(KeyOf(w, k.headers[0].offset)), q.exited), p,
                   k.(headers := k.headers[1..]), exits)
  {
    hide Replay, Stored, WritesThen, WriteOffsets, FullBlocks, Offsets;
    var key := KeyOf(w, k.headers[0].offset);
    var q', k' := Pool(store, Some(key), q.exited), k.(headers := k.headers[1..]);
    OffsetsTaken(q, q', w, k);
    WritesThenPop(k.headers, PoolRank(j, p), Tail(j, t, w, q, p, k, exits));
    forall x ensures Agrees(j, t, w, q', p, k', x) {
      assert Agrees(j, t, w, q, p, k, x);
      ReplayHead(Offsets(q, w, k), Blocks(t, p, k), x,
                 Stored(j.pools[p], q.store, KeyOf(w, x)), Stored(j.pools[p], store, KeyOf(w, x)));
    }
  }

  /** The block that belongs to it arrives: every header is paired with its own payload. */
  lemma TakeBlockHere(j: Job, t: Task, w: nat, q: Pool, p: nat, k: Link, exits: nat, store: PoolState)
    requires p < |j.pools| && LinkOk(j, t, w, q, p, k, exits)
    requires q.pending.Some? && q.pending.value.rank == w && k.payloads != []
    requires Stored(j.pools[p], store, q.pending.value) == Some(k.payloads[0])
    requires forall m :: m != q.pending.value ==> Stored(j.pools[p], store, m) == Stored(j.pools[p], q.store, m)
    ensures |k.payloads[0]| == j.block
    ensures LinkOk(j, t, w, Pool(store, None, q.exited), p, k.(payloads := k.payloads[1..]), exits)
  {
    hide Replay, Stored, WritesThen, WriteOffsets;
    assert Blocks(t, p, k)[0] == k.payloads[0];
    var q', k' := Pool(store, None, q.exited), k.(payloads := k.payloads[1..]);
    assert Offsets(q', w, k') == Offsets(q, w, k)[1..] && Blocks(t, p, k') == Blocks(t, p, k)[1..];
    forall x ensures Agrees(j, t, w, q', p, k', x) {
      assert Agrees(j, t, w, q, p, k, x);
      ReplayPop(Offsets(q, w, k), Blocks(t, p, k), x, Stored(j.pools[p], q.store, KeyOf(w, x)));
    }
  }

  lemma ReadIsLast(j: Job, t: Task, w: nat, q: Pool, p: nat, k: Link, exits: nat)
    requires WritesThen(k.headers, PoolRank(j, p), Tail(j, t, w, q, p, k, exits))
    requires k.headers != [] && k.headers[0].ReadRequest?
    ensures t.phase.Waiting? && t.phase.pool == p && k.replies == []
    ensures k.headers == [ReadRequest(PoolRank(j, p), t.phase.offset)] && k.headers[1..] == []
    ensures WriteOffsets(k.headers) == [] && WriteOffsets([]) == []
  {
    hide Replay, Stored, Agrees;
    WritesThenPop(k.headers, PoolRank(j, p), Tail(j, t, w, q, p, k, exits));
    assert k.headers[..0] == [];
  }

  /** A read reaches the head of the channel only behind all its worker's writes, so the
      record is known and the block sent back is the worker's latest. */
  lemma ReadAtHead(j: Job, t: Task, w: nat, q: Pool, p: nat, k: Link, exits: nat)
    requires p < |j.pools| && w < |j.emptyOk| && TaskOk(j, t, w) && LinkOk(j, t, w, q, p, k, exits)
    requires q.pending == None && k.headers != [] && k.headers[0].ReadRequest?
    ensures t.phase.Waiting? && t.phase.pool == p && k.replies == []
    ensures k.headers == [ReadRequest(PoolRank(j, p), t.phase.offset)] && k.headers[1..] == [] && WriteOffsets([]) == []
    ensures Offsets(q, w, k) == [] && Blocks(t, p, k) == []
    ensures t.phase.offset in PM.Contents(t.log)
    ensures Stored(j.pools[p], q.store, KeyOf(w, t.phase.offset)) == Some(PM.Contents(t.log)[t.phase.offset])
  {
    hide Stored, WritesThen, FullBlocks;
    ReadIsLast(j, t, w, q, p, k, exits);
    assert Agrees(j, t, w, q, p, k, t.phase.offset);
  }

  lemma TakeReadHere(j: Job, t: Task, w: nat, q: Pool, p: nat, k: Link, exits: nat)
    requires p < |j.pools| && w < |j.emptyOk| && TaskOk(j, t, w) && LinkOk(j, t, w, q, p, k, exits)
    requires Inv(j.pools[p], q.store) && exits == 0
    requires q.pending == None && k.headers != [] && k.headers[0].ReadRequest?
    ensures k.headers[0].dest == PoolRank(j, p)
    ensures InPool(q.store, KeyOf(w, k.headers[0].offset))
    ensures var r := PullData(j.pools[p], q.store, KeyOf(w, k.headers[0].offset));
      && r.Pulled?
      && LinkOk(j, t, w, q.(store := r.state), p, k.(headers := k.headers[1..], replies := k.replies + [r.data]), exits)
  {
    hide Replay, WritesThen, WriteOffsets, FullBlocks;
    ReadAtHead(j, t, w, q, p, k, exits);
    var key := KeyOf(w, k.headers[0].offset);
    PullDataKeeps(j.pools[p], q.store, key);
    var r := PullData(j.pools[p], q.store, key);
    var q', k' := q.(store := r.state), k.(headers := k.headers[1..], replies := k.replies + [r.data]);
    NoHeaders(PoolRank(j, p));
    assert Tail(j, t, w, q', p, k', 0) == [];
    SameFlow(j, t, t, w, q, q', p, k, k', 0, 0);
  }

  lemma ExitIsLast(j: Job, t: Task, w: nat, q: Pool, p: nat, k: Link, exits: nat)
    requires p < |j.pools| && LinkOk(j, t, w, q, p, k, exits)
    requires k.headers != [] && k.headers[0].Exit?
    ensures w == 0 && exits > p && !q.exited && k.headers == [Exit] && k.headers[1..] == []
    ensures Tail(j, t, w, q, p, k, exits) == [Exit]
    ensures WriteOffsets(k.headers) == [] && WriteOffsets([]) == []
  {
    hide Replay, Stored, Agrees;
    WritesThenPop(k.headers, PoolRank(j, p), Tail(j, t, w, q, p, k, exits));
    assert k.headers[..0] == [];
  }

  lemma ExitAtHead(j: Job, t: Task, w: nat, q: Pool, p: nat, k: Link, exits: nat)
    requires p < |j.pools| && LinkOk(j, t, w, q, p, k, exits) && q.pending == None
    requires k.headers != [] && k.headers[0].Exit?
    ensures w == 0 && exits > p && LinkOk(j, t, w, q.(exited := true), p, k.(headers := []), exits)
  {
    hide Replay, Stored, WritesThen, WriteOffsets, FullBlocks;
    NoHeaders(PoolRank(j, p));
    ExitIsLast(j, t, w, q, p, k, exits);
    var q', k' := q.(exited := true), k.(headers := []);
    assert Offsets(q', w, k') == Offsets(q, w, k) == [] && Blocks(t, p, k') == Blocks(t, p, k);
    assert Tail(j, t, w, q', p, k', exits) == [];
    SameFlow(j, t, t, w, q, q', p, k, k', exits, exits);
  }

  lemma PostExitHere(j: Job, t: Task, q: Pool, p: nat, k: Link)
    requires p < |j.pools| && t.phase == Finalizing && LinkOk(j, t, 0, q, p, k, p) && !q.exited
    ensures LinkOk(j, t, 0, q, p, k.(headers := k.headers + [Exit]), p + 1)
  {
    hide Replay, Stored, WritesThen, WriteOffsets, FullBlocks, Offsets;
    var k' := k.(headers := k.headers + [Exit]);
    WritesThenPush(k.headers, PoolRank(j, p), Exit);
    OffsetsPush(q, 0, k, Exit);
    SameFlow(j, t, t, 0, q, q, p, k, k', p, p + 1);
  }

  lemma PostExitElsewhere(j: Job, t: Task, w: nat, q: Pool, p: nat, k: Link, exits: nat)
    requires p < |j.pools| && t.phase == Finalizing && LinkOk(j, t, w, q, p, k, exits)
    requires w != 0 || p != exits
    ensures LinkOk(j, t, w, q, p, k, exits + 1)
  {
    hide Replay, Stored, WritesThen, WriteOffsets, FullBlocks;
    SameFlow(j, t, t, w, q, q, p, k, k, exits, exits + 1);
  }
}
