/** The steps of a pool task in the job are those of the object: a header taken, with its
    block, does to the store what the polling loop does with that message. */
module OcoreServing {
  import opened Wrappers
  import opened ScratchFile
  import opened Protocol
  import opened PoolSpec
  import opened PoolRuns
  import opened PoolInbox
  import opened OcoreSystem
  import opened OcoreInvariant
  import opened OcoreSteps

  /** The store of p after the header at the head of w's channel and, for a write, its block
      have been taken, and what p has then sent to w. */
  ghost predicate ServedAs(j: Job, s: Sys, p: nat, w: nat, ks: seq<SparseKey>, t: PoolState, sent: seq<Bytes>)
    requires ValidJob(j) && WellShaped(j, s) && Enabled(j, s, TakeHeader(p, w, ks))
  {
    var u := Next(j, s, TakeHeader(p, w, ks));
    && !u.aborted && p < |u.pools| && Pair(w, p) in s.links && Pair(w, p) in u.links
    && u.links[Pair(w, p)].replies == s.links[Pair(w, p)].replies + sent
    && if !IsWrite(s.links[Pair(w, p)].headers[0]) then u.pools[p].store == t
       else WellShaped(j, u) && Enabled(j, u, TakeBlock(p)) && p < |Next(j, u, TakeBlock(p)).pools|
            && Next(j, u, TakeBlock(p)).pools[p].store == t
  }

  lemma HeaderTaken(j: Job, s: Sys, p: nat, w: nat, ks: seq<SparseKey>)
    requires ValidJob(j) && WellShaped(j, s) && Enabled(j, s, TakeHeader(p, w, ks))
    requires var h := s.links[Pair(w, p)].headers[0]; IsWrite(h) && h.dest == PoolRank(j, p)
    requires !Next(j, s, TakeHeader(p, w, ks)).aborted
    ensures var u, k := Next(j, s, TakeHeader(p, w, ks)), s.links[Pair(w, p)];
      var key := SparseKey(w, k.headers[0].offset);
      && Choice(j.pools[p], s.pools[p].store, key, ks) && Evictable(s.pools[p].store, ks)
      && 0 <= s.pools[p].store.numActive && BeginStore(j.pools[p], s.pools[p].store, key, ks).Begun?
      && |u.tasks| == |s.tasks| && |u.pools| == |s.pools| && Pair(w, p) in u.links && w < |s.tasks|
      && u.pools[p].store == BeginStore(j.pools[p], s.pools[p].store, key, ks).state && u.pools[p].pending == Some(key)
      && u.links[Pair(w, p)] == k.(headers := k.headers[1..])
  {
    hide BeginStore;
  }

  lemma BlockTaken(j: Job, u: Sys, p: nat, key: SparseKey)
    requires ValidJob(j) && WellShaped(j, u) && !u.aborted && p < |u.pools| && key.rank < |u.tasks|
    requires u.pools[p].pending == Some(key) && u.links[Pair(key.rank, p)].payloads != []
    ensures Enabled(j, u, TakeBlock(p)) && p < |Next(j, u, TakeBlock(p)).pools|
    ensures key in u.pools[p].store.smap && InPool(u.pools[p].store, key)
    ensures Next(j, u, TakeBlock(p)).pools[p].store ==
            EndStore(j.pools[p], u.pools[p].store, key, u.links[Pair(key.rank, p)].payloads[0])
  {
    hide EndStore;
    assert Ready(u.pools[p]);
  }

  lemma WriteServed(j: Job, s: Sys, p: nat, w: nat, ks: seq<SparseKey>)
    requires ValidJob(j) && JobInv(j, s) && WellShaped(j, s) && Enabled(j, s, TakeHeader(p, w, ks))
    requires !Next(j, s, TakeHeader(p, w, ks)).aborted
    requires var k := s.links[Pair(w, p)];
      k.payloads != [] && IsWrite(k.headers[0]) && k.headers[0].dest == PoolRank(j, p)
    ensures var k, c, q := s.links[Pair(w, p)], j.pools[p], s.pools[p].store;
      && Inv(c, q)
      && Allowed(c, q, StoreOp(SparseKey(w, k.headers[0].offset), k.payloads[0], ks))
      && Handle(c, q, StoreOp(SparseKey(w, k.headers[0].offset), k.payloads[0], ks)).Live?
      && ServedAs(j, s, p, w, ks, Handle(c, q, StoreOp(SparseKey(w, k.headers[0].offset), k.payloads[0], ks)).state, [])
  {
    hide JobInv, LinkOk, BeginStore, EndStore, Core, Next, TaskOk;
    LinkAt(j, s, w, p);
    PayloadFull(j, s.tasks[w], w, s.pools[p], p, s.links[Pair(w, p)], s.exits);
    var k, c, q, u := s.links[Pair(w, p)], j.pools[p], s.pools[p].store, Next(j, s, TakeHeader(p, w, ks));
    var key := SparseKey(w, k.headers[0].offset);
    HeaderTaken(j, s, p, w, ks);
    StepInv(j, s, TakeHeader(p, w, ks));
    JobShape(j, u);
    BlockTaken(j, u, p, key);
    BeginStoreKeeps(c, q, key, ks);
    assert k.replies + [] == k.replies;
  }

  lemma ReadServed(j: Job, s: Sys, p: nat, w: nat, ks: seq<SparseKey>)
    requires ValidJob(j) && JobInv(j, s) && WellShaped(j, s) && Enabled(j, s, TakeHeader(p, w, ks))
    requires !Next(j, s, TakeHeader(p, w, ks)).aborted
    requires s.links[Pair(w, p)].headers[0].ReadRequest? && s.links[Pair(w, p)].headers[0].dest == PoolRank(j, p)
    ensures var h, c, q := s.links[Pair(w, p)].headers[0], j.pools[p], s.pools[p].store;
      && Inv(c, q) && Handle(c, q, PullOp(SparseKey(w, h.offset))).Live?
      && |Handle(c, q, PullOp(SparseKey(w, h.offset))).replies| == 1
      && ServedAs(j, s, p, w, ks, Handle(c, q, PullOp(SparseKey(w, h.offset))).state,
                  [Handle(c, q, PullOp(SparseKey(w, h.offset))).replies[0].data])
  {
    hide JobInv, Inv;
    LinkAt(j, s, w, p);
    PullDataKeeps(j.pools[p], s.pools[p].store, SparseKey(w, s.links[Pair(w, p)].headers[0].offset));
  }

  /** The header at the head of w's channel to p as a message, with the block behind it. */
  function HeadMessage(k: Link, w: nat): Message
    requires k.headers != []
  {
    Message(w, k.headers[0], if k.payloads != [] then k.payloads[0] else [])
  }

  function DataOf(replies: seq<Reply>): seq<Bytes> {
    seq(|replies|, i requires 0 <= i < |replies| => replies[i].data)
  }

  /** The step is that of the object for this message, which is handled as op. */
  ghost predicate LikeObject(j: Job, s: Sys, p: nat, w: nat, ks: seq<SparseKey>, op: Op)
    requires ValidJob(j) && WellShaped(j, s) && Enabled(j, s, TakeHeader(p, w, ks))
  {
    var c, q, m := j.pools[p], s.pools[p].store, HeadMessage(s.links[Pair(w, p)], w);
    && Inv(c, q) && Allowed(c, q, op) && Erase([op]) == RequestOf(PoolRank(j, p), m)
    && var r := Handle(c, q, op);
       r.Live? && Handled(c, q, PoolRank(j, p), m, r.state, r.replies)
       && ServedAs(j, s, p, w, ks, r.state, DataOf(r.replies))
  }

  lemma WriteLikeObject(j: Job, s: Sys, p: nat, w: nat, ks: seq<SparseKey>) returns (op: Op)
    requires ValidJob(j) && JobInv(j, s) && WellShaped(j, s) && Enabled(j, s, TakeHeader(p, w, ks))
    requires !Next(j, s, TakeHeader(p, w, ks)).aborted
    requires var k := s.links[Pair(w, p)];
      k.payloads != [] && IsWrite(k.headers[0]) && k.headers[0].dest == PoolRank(j, p)
    ensures LikeObject(j, s, p, w, ks, op)
  {
    hide JobInv, Inv, Next, BeginStore, EndStore, Handled, ServedAs, LinkOk, PoolOk, TaskOk;
    LinkAt(j, s, w, p);
    WriteServed(j, s, p, w, ks);
    var k := s.links[Pair(w, p)];
    op := StoreOp(SparseKey(w, k.headers[0].offset), k.payloads[0], ks);
    assert [op][..0] == [];
    HandleServes(j.pools[p], s.pools[p].store, PoolRank(j, p), HeadMessage(k, w), op);
    assert DataOf([]) == [];
  }

  lemma ReadLikeObject(j: Job, s: Sys, p: nat, w: nat, ks: seq<SparseKey>) returns (op: Op)
    requires ValidJob(j) && JobInv(j, s) && WellShaped(j, s) && Enabled(j, s, TakeHeader(p, w, ks))
    requires !Next(j, s, TakeHeader(p, w, ks)).aborted
    requires s.links[Pair(w, p)].headers[0].ReadRequest? && s.links[Pair(w, p)].headers[0].dest == PoolRank(j, p)
    ensures LikeObject(j, s, p, w, ks, op)
  {
    hide JobInv, Inv, Next, Handle, Handled, ServedAs, LinkOk, PoolOk, TaskOk;
    LinkAt(j, s, w, p);
    ReadServed(j, s, p, w, ks);
    var k := s.links[Pair(w, p)];
    op := PullOp(SparseKey(w, k.headers[0].offset));
    assert [op][..0] == [];
    HandleServes(j.pools[p], s.pools[p].store, PoolRank(j, p), HeadMessage(k, w), op);
    var r := Handle(j.pools[p], s.pools[p].store, op);
    assert DataOf(r.replies) == [r.replies[0].data];
  }

  /** In every state of the job: a pool task that takes a header, with its block if it is a
      write, does to its store and sends back to the worker what the polling loop of the
      object does with that message, unless it ends the job. */
  lemma JobServesLikeObject(j: Job, s: Sys, p: nat, w: nat, ks: seq<SparseKey>) returns (op: Op)
    requires ValidJob(j) && JobInv(j, s) && WellShaped(j, s) && Enabled(j, s, TakeHeader(p, w, ks))
    requires !Next(j, s, TakeHeader(p, w, ks)).aborted && !s.links[Pair(w, p)].headers[0].Exit?
    requires IsWrite(s.links[Pair(w, p)].headers[0]) ==> s.links[Pair(w, p)].payloads != []
    ensures LikeObject(j, s, p, w, ks, op)
  {
    hide JobInv, LikeObject, LinkOk;
    LinkAt(j, s, w, p);
    HeadKinds(j, s, w, p);
    if IsWrite(s.links[Pair(w, p)].headers[0]) {
      op := WriteLikeObject(j, s, p, w, ks);
    } else {
      op := ReadLikeObject(j, s, p, w, ks);
    }
  }
}
