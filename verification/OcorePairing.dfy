/** Headers and blocks travel on different tags, and a pool task takes headers from any
    worker while blocks are outstanding. Still, what it stores for a worker is what that
    worker wrote to it, in order, each offset with its own block. */
module OcorePairing {
  import opened Wrappers
  import opened ScratchFile
  import opened Protocol
  import opened PoolSpec
  import opened PoolRuns
  import opened WorkerTask
  import opened OcoreSystem
  import opened OcoreInvariant
  import opened OcoreSteps
  import opened OcoreTheorems
  import PM = PrivateMap

  datatype Written = Written(offset: nat, data: Bytes)

  /** The writes in a history that went to pool rank r. */
  function Issued(l: Layout, h: PM.History, r: nat): seq<Written> {
    if h == [] then []
    else
      var g, o := h[..|h| - 1], h[|h| - 1];
      Issued(l, g, r) + if o.Wrote? && PM.Owners(l, h)[o.offset] == r then [Written(o.offset, o.data)] else []
  }

  lemma IssuedGrows(l: Layout, h: PM.History, o: PM.Obs, r: nat)
    ensures Issued(l, h + [o], r) ==
      Issued(l, h, r) + if o.Wrote? && PM.Owners(l, h + [o])[o.offset] == r then [Written(o.offset, o.data)] else []
  {
    assert (h + [o])[..|h|] == h;
  }

  function Zip(offs: seq<nat>, blocks: seq<Bytes>): seq<Written> {
    if offs == [] || blocks == [] then [] else [Written(offs[0], blocks[0])] + Zip(offs[1..], blocks[1..])
  }

  lemma {:induction false} ZipPush(offs: seq<nat>, blocks: seq<Bytes>, o: nat, b: Bytes)
    requires |offs| == |blocks|
    ensures Zip(offs + [o], blocks + [b]) == Zip(offs, blocks) + [Written(o, b)]
  {
    if offs != [] {
      assert (offs + [o])[1..] == offs[1..] + [o] && (blocks + [b])[1..] == blocks[1..] + [b];
      ZipPush(offs[1..], blocks[1..], o, b);
    }
  }

  /** The writes of a worker that a pool task has not finished, with their blocks. */
  function OnTheirWay(t: Task, w: nat, q: Pool, p: nat, k: Link): seq<Written> {
    Zip(Offsets(q, w, k), Blocks(t, p, k))
  }

  /** What worker w wrote to pool task p is what p has stored for it and what is on its
      way. */
  ghost predicate Accounted(j: Job, s: Sys, w: nat, p: nat, done: seq<Written>) {
    && w < |s.tasks| && p < |s.pools| && Pair(w, p) in s.links
    && Issued(j.l, s.tasks[w].log, PoolRank(j, p)) ==
       done + OnTheirWay(s.tasks[w], w, s.pools[p], p, s.links[Pair(w, p)])
  }

  /** What an event makes p store for w. */
  ghost function StoredBy(s: Sys, e: Event, w: nat, p: nat): seq<Written> {
    if e == TakeBlock(p) && p < |s.pools| && s.pools[p].pending.Some? && s.pools[p].pending.value.rank == w
       && Pair(w, p) in s.links && s.links[Pair(w, p)].payloads != []
    then [Written(s.pools[p].pending.value.offset, s.links[Pair(w, p)].payloads[0])]
    else []
  }

  /** ... and a run. */
  ghost function StoredIn(j: Job, es: seq<Event>, w: nat, p: nat): seq<Written>
    requires ValidJob(j)
  {
    if es == [] then []
    else
      var g := es[..|es| - 1];
      StoredIn(j, g, w, p) + if After(j, g).Some? then StoredBy(After(j, g).value, es[|es| - 1], w, p) else []
  }

  // ---- one event at a time ----

  lemma WriteAccounted(j: Job, s: Sys, off: nat, data: Bytes, w: nat, p: nat, done: seq<Written>)
    requires ValidJob(j) && JobInv(j, s) && WellShaped(j, s) && Enabled(j, s, WriteCall(w, off, data))
    requires p < |s.pools| && Accounted(j, s, w, p, done)
    ensures Accounted(j, Next(j, s, WriteCall(w, off, data)), w, p, done)
  {
    hide JobInv, Zip, Issued, LinkOk, WriteOffsets, PM.Owners, PM.Legal;
    LinkAt(j, s, w, p);
    var t, q, k := s.tasks[w], s.pools[p], s.links[Pair(w, p)];
    var h := WriteHeader(j.l, t.w, off);
    WriteTracks(j.l, t.w, t.log, off, data);
    IssuedGrows(j.l, t.log, PM.Wrote(off, data), PoolRank(j, p));
    SettledOwner(j, t.w, off);
    SameLengths(j, t, w, q, p, k, s.exits);
    if StartWrite(j, t, off, data).phase.pool == p {
      OffsetsPush(q, w, k, h);
      ZipPush(Offsets(q, w, k), Blocks(t, p, k), off, data);
      assert Blocks(t, p, k) + [data] == k.payloads + [data];
    }
  }

  lemma SameLengths(j: Job, t: Task, w: nat, q: Pool, p: nat, k: Link, exits: nat)
    requires p < |j.pools| && LinkOk(j, t, w, q, p, k, exits)
    ensures |Offsets(q, w, k)| == |Blocks(t, p, k)|
  {
  }

  lemma PostBlockAccounted(j: Job, s: Sys, w: nat, p: nat, done: seq<Written>)
    requires ValidJob(j) && JobInv(j, s) && WellShaped(j, s) && Enabled(j, s, PostBlock(w))
    requires p < |s.pools| && Accounted(j, s, w, p, done)
    ensures Accounted(j, Next(j, s, PostBlock(w)), w, p, done)
  {
    hide JobInv, Zip, Issued, LinkOk, WriteOffsets;
    var t, k := s.tasks[w], s.links[Pair(w, p)];
    if t.phase.pool == p {
      assert Blocks(t.(phase := Idle), p, k.(payloads := k.payloads + [t.phase.data])) == Blocks(t, p, k);
    }
  }

  lemma ReadAccounted(j: Job, s: Sys, w: nat, off: nat, pop: bool, p: nat, done: seq<Written>)
    requires ValidJob(j) && WellShaped(j, s) && w < |s.tasks| && s.tasks[w].phase == Idle && off in s.tasks[w].w.rankMap
    requires p < |s.pools| && Accounted(j, s, w, p, done)
    ensures Accounted(j, PostRead(j, s, w, off, pop), w, p, done)
  {
    hide Zip, Issued, WriteOffsets;
    var t, q, k := s.tasks[w], s.pools[p], s.links[Pair(w, p)];
    OffsetsPush(q, w, k, ReadRequest(t.w.rankMap[off], off));
    assert Offsets(q, w, k) + [] == Offsets(q, w, k);
  }

  lemma ReplyAccounted(j: Job, s: Sys, w: nat, p: nat, done: seq<Written>)
    requires ValidJob(j) && WellShaped(j, s) && Enabled(j, s, TakeReply(w))
    requires p < |s.pools| && Accounted(j, s, w, p, done)
    ensures Accounted(j, Next(j, s, TakeReply(w)), w, p, done)
  {
    hide Zip, WriteOffsets;
    var t := s.tasks[w];
    var data := s.links[Pair(w, t.phase.pool)].replies[0];
    IssuedGrows(j.l, t.log, PM.Got(t.phase.offset, data), PoolRank(j, p));
    IssuedGrows(j.l, t.log, PM.Popped(t.phase.offset, data), PoolRank(j, p));
  }

  lemma BlankAccounted(j: Job, s: Sys, w: nat, off: nat, p: nat, done: seq<Written>)
    requires w < |s.tasks| && p < |s.pools| && Accounted(j, s, w, p, done) && s.tasks[w].phase == Idle
    ensures Accounted(j, s.(tasks := s.tasks[w := BlankRead(j, s.tasks[w], off)]), w, p, done)
  {
    hide Zip, WriteOffsets;
    IssuedGrows(j.l, s.tasks[w].log, PM.Got(off, Zeros(j.block)), PoolRank(j, p));
  }

  lemma ExitAccounted(j: Job, s: Sys, p: nat, done: seq<Written>)
    requires ValidJob(j) && WellShaped(j, s) && Enabled(j, s, PostExit)
    requires p < |s.pools| && Accounted(j, s, 0, p, done)
    ensures Accounted(j, Next(j, s, PostExit), 0, p, done)
  {
    hide Zip, Issued, WriteOffsets;
    OffsetsPush(s.pools[p], 0, s.links[Pair(0, p)], Exit);
    assert Offsets(s.pools[p], 0, s.links[Pair(0, p)]) + [] == Offsets(s.pools[p], 0, s.links[Pair(0, p)]);
  }

  lemma HeaderAccounted(j: Job, s: Sys, ks: seq<SparseKey>, w: nat, p: nat, done: seq<Written>)
    requires ValidJob(j) && JobInv(j, s) && WellShaped(j, s) && Enabled(j, s, TakeHeader(p, w, ks))
    requires Accounted(j, s, w, p, done)
    ensures Accounted(j, Next(j, s, TakeHeader(p, w, ks)), w, p, done)
  {
    hide Zip, Issued, WriteOffsets, JobInv, BeginStore, PullData;
    var q, k := s.pools[p], s.links[Pair(w, p)];
    HeadKinds(j, s, w, p);
    WriteOffsetsPop(k.headers);
    if IsWrite(k.headers[0]) {
      OffsetsTaken(q, q.(pending := Some(SparseKey(w, k.headers[0].offset))), w, k);
    } else {
      assert WriteOffsets(k.headers) == WriteOffsets(k.headers[1..]);
    }
  }

  lemma OtherHeaderAccounted(j: Job, s: Sys, v: nat, ks: seq<SparseKey>, w: nat, p: nat, done: seq<Written>)
    requires ValidJob(j) && WellShaped(j, s) && Enabled(j, s, TakeHeader(p, v, ks)) && v != w
    requires Accounted(j, s, w, p, done)
    ensures Accounted(j, Next(j, s, TakeHeader(p, v, ks)), w, p, done)
  {
    hide Zip, Issued, WriteOffsets, BeginStore, PullData;
  }

  lemma BlockAccounted(j: Job, s: Sys, w: nat, p: nat, done: seq<Written>)
    requires ValidJob(j) && JobInv(j, s) && WellShaped(j, s) && Enabled(j, s, TakeBlock(p))
    requires Accounted(j, s, w, p, done)
    ensures Accounted(j, Next(j, s, TakeBlock(p)), w, p, done + StoredBy(s, TakeBlock(p), w, p))
  {
    hide Issued, WriteOffsets, JobInv, LinkOk, EndStore;
    var t, q, k := s.tasks[w], s.pools[p], s.links[Pair(w, p)];
    LinkAt(j, s, q.pending.value.rank, p);
    assert done + [] == done;
    if q.pending.value.rank == w {
      var k' := k.(payloads := k.payloads[1..]);
      assert Blocks(t, p, k)[1..] == Blocks(t, p, k') && Blocks(t, p, k)[0] == k.payloads[0];
      assert Offsets(q, w, k)[1..] == WriteOffsets(k.headers) && Offsets(q, w, k)[0] == q.pending.value.offset;
      var first, rest := Written(q.pending.value.offset, k.payloads[0]), Zip(WriteOffsets(k.headers), Blocks(t, p, k'));
      assert done + ([first] + rest) == (done + [first]) + rest;
      assert [] + WriteOffsets(k.headers) == WriteOffsets(k.headers);
    }
  }

  /** Steps of others, and of w with other pool tasks. */
  lemma OthersAccounted(j: Job, s: Sys, e: Event, w: nat, p: nat, done: seq<Written>)
    requires ValidJob(j) && JobInv(j, s) && WellShaped(j, s) && Enabled(j, s, e) && Accounted(j, s, w, p, done)
    requires !Concerns(s, e, w) || (e.TakeHeader? && e.p != p) || (e.TakeBlock? && e.p != p)
    ensures Accounted(j, Next(j, s, e), w, p, done)
  {
    hide Zip, Issued, WriteOffsets, JobInv, LinkOk, BeginStore, PullData, EndStore;
    match e
    case TakeHeader(i, v, ks) => if i == p { OtherHeaderAccounted(j, s, v, ks, w, p, done); }
    case TakeBlock(i) => if i == p { BlockAccounted(j, s, w, p, done); assert done + [] == done; }
    case _ =>
  }

  lemma StepAccounted(j: Job, s: Sys, e: Event, w: nat, p: nat, done: seq<Written>)
    requires ValidJob(j) && JobInv(j, s) && WellShaped(j, s) && Enabled(j, s, e)
    requires w < |s.tasks| && p < |s.pools| && Accounted(j, s, w, p, done)
    ensures Accounted(j, Next(j, s, e), w, p, done + StoredBy(s, e, w, p))
  {
    hide JobInv, Accounted, OnTheirWay, ServeHeader;
    assert done + [] == done;
    if !Concerns(s, e, w) || (e.TakeHeader? && e.p != p) || (e.TakeBlock? && e.p != p) {
      OthersAccounted(j, s, e, w, p, done);
    } else {
      match e
      case WriteCall(_, off, data) => WriteAccounted(j, s, off, data, w, p, done);
      case PostBlock(_) => PostBlockAccounted(j, s, w, p, done);
      case ReadCall(_, off) =>
        if off in s.tasks[w].w.rankMap {
          ReadAccounted(j, s, w, off, false, p, done);
        } else {
          BlankAccounted(j, s, w, off, p, done);
          AbortAccounted(j, s, w, p, done);
        }
      case PopCall(_) =>
        if s.tasks[w].w.rankMap != map[] {
          ReadAccounted(j, s, w, LowestKey(s.tasks[w].w.rankMap), true, p, done);
        } else {
          AbortAccounted(j, s, w, p, done);
        }
      case TakeReply(_) => ReplyAccounted(j, s, w, p, done);
      case FinalizeCall(_) => FinalizeAccounted(j, s, w, p, done);
      case PostExit => ExitAccounted(j, s, p, done);
      case TakeHeader(_, _, ks) => HeaderAccounted(j, s, ks, w, p, done);
      case TakeBlock(_) => BlockAccounted(j, s, w, p, done);
    }
  }

  lemma AbortAccounted(j: Job, s: Sys, w: nat, p: nat, done: seq<Written>)
    requires Accounted(j, s, w, p, done)
    ensures Accounted(j, s.(aborted := true), w, p, done)
  {
  }

  lemma FinalizeAccounted(j: Job, s: Sys, w: nat, p: nat, done: seq<Written>)
    requires Accounted(j, s, w, p, done) && s.tasks[w].phase == Idle
    ensures Accounted(j, s.(tasks := s.tasks[w := s.tasks[w].(phase := Finalizing)]), w, p, done)
  {
  }

  /** In every run, what a pool task has stored for a worker, followed by what is still on
      its way, is exactly what the worker wrote to it: no header ever meets the block of
      another write, and none is lost or stored twice. */
  lemma {:induction false} HeadersMeetTheirBlocks(j: Job, es: seq<Event>, w: nat, p: nat)
    requires ValidJob(j) && After(j, es).Some? && w < j.l.starting && p < j.l.numOcore
    ensures Accounted(j, After(j, es).value, w, p, StoredIn(j, es, w, p))
  {
    if es == [] {
      assert Start(j).tasks[w].log == [];
    } else {
      hide JobInv, Next, Enabled, Accounted, StoredBy;
      var n := |es| - 1;
      HeadersMeetTheirBlocks(j, es[..n], w, p);
      StepAccounted(j, After(j, es[..n]).value, es[n], w, p, StoredIn(j, es[..n], w, p));
    }
  }
}
