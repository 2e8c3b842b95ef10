/** When nothing of a worker's is left in a channel: after its last call there was a read or
    pop, and, where no send is buffered, whenever it is in no call. */
module OcoreChannels {
  import opened Wrappers
  import opened ScratchFile
  import opened Protocol
  import opened PoolSpec
  import opened PoolRuns
  import opened WorkerTask
  import opened OcoreSystem
  import opened OcoreInvariant
  import opened OcoreSteps
  import opened OcoreTheorems
  import opened OcorePairing
  import PM = PrivateMap

  // ------------------------------------------------------------------------------
  // A read or pop settles a worker's channel
  // ------------------------------------------------------------------------------

  /** The last call of a history, h without it being g, went to pool rank r. */
  predicate Reaches(l: Layout, g: PM.History, o: PM.Obs, r: nat) {
    if o.Wrote? then PM.Owners(l, g + [o])[o.offset] == r
    else o.offset in PM.Owners(l, g) && PM.Owners(l, g)[o.offset] == r
  }

  /** The last of a worker's calls that reached pool rank r was a write. */
  predicate WroteLast(l: Layout, h: PM.History, r: nat) {
    h != [] &&
    var g, o := h[..|h| - 1], h[|h| - 1];
    if Reaches(l, g, o, r) then o.Wrote? else WroteLast(l, g, r)
  }

  lemma WroteLastGrows(l: Layout, h: PM.History, o: PM.Obs, r: nat)
    ensures WroteLast(l, h + [o], r) == if Reaches(l, h, o, r) then o.Wrote? else WroteLast(l, h, r)
  {
    assert (h + [o])[..|h|] == h;
  }

  predicate Quiet(j: Job, s: Sys, w: nat, p: nat) {
    && w < |s.tasks| && p < |s.pools| && Pair(w, p) in s.links
    && var t, q, k := s.tasks[w], s.pools[p], s.links[Pair(w, p)];
       && (!WroteLast(j.l, t.log, PoolRank(j, p)) ==> Offsets(q, w, k) == [])
       && (t.phase.Waiting? && t.phase.pool == p && k.replies != [] ==> Offsets(q, w, k) == [])
  }

  lemma WriteQuiet(j: Job, s: Sys, off: nat, data: Bytes, w: nat, p: nat)
    requires ValidJob(j) && JobInv(j, s) && WellShaped(j, s) && Enabled(j, s, WriteCall(w, off, data))
    requires p < |s.pools| && Quiet(j, s, w, p)
    ensures Quiet(j, Next(j, s, WriteCall(w, off, data)), w, p)
  {
    hide JobInv, WroteLast, LinkOk, WriteOffsets, PM.Owners, PM.Legal;
    LinkAt(j, s, w, p);
    var t := s.tasks[w];
    WriteTracks(j.l, t.w, t.log, off, data);
    WroteLastGrows(j.l, t.log, PM.Wrote(off, data), PoolRank(j, p));
    SettledOwner(j, t.w, off);
  }

  lemma IdleHasNoReply(j: Job, t: Task, w: nat, q: Pool, p: nat, k: Link, exits: nat)
    requires p < |j.pools| && LinkOk(j, t, w, q, p, k, exits) && t.phase == Idle
    ensures k.replies == []
  {
  }

  lemma ReadQuiet(j: Job, s: Sys, w: nat, off: nat, pop: bool, p: nat)
    requires ValidJob(j) && JobInv(j, s) && WellShaped(j, s) && w < |s.tasks| && s.tasks[w].phase == Idle
    requires off in s.tasks[w].w.rankMap && p < |s.pools| && Quiet(j, s, w, p)
    ensures Quiet(j, PostRead(j, s, w, off, pop), w, p)
  {
    hide JobInv, WroteLast, WriteOffsets, LinkOk, TaskOk, PoolOk;
    LinkAt(j, s, w, p);
    var t, q, k := s.tasks[w], s.pools[p], s.links[Pair(w, p)];
    IdleHasNoReply(j, t, w, q, p, k, s.exits);
    OffsetsPush(q, w, k, ReadRequest(t.w.rankMap[off], off));
    assert Offsets(q, w, k) + [] == Offsets(q, w, k);
  }

  lemma BlankQuiet(j: Job, s: Sys, w: nat, off: nat, p: nat)
    requires ValidJob(j) && JobInv(j, s) && WellShaped(j, s) && w < |s.tasks| && s.tasks[w].phase == Idle
    requires off !in s.tasks[w].w.rankMap && p < |s.pools| && Quiet(j, s, w, p)
    ensures Quiet(j, s.(tasks := s.tasks[w := BlankRead(j, s.tasks[w], off)]), w, p)
  {
    hide JobInv, WroteLast, LinkOk, WriteOffsets, PM.Owners, PM.Legal;
    LinkAt(j, s, w, p);
    WroteLastGrows(j.l, s.tasks[w].log, PM.Got(off, Zeros(j.block)), PoolRank(j, p));
  }

  lemma ReplyQuiet(j: Job, s: Sys, w: nat, p: nat)
    requires ValidJob(j) && JobInv(j, s) && WellShaped(j, s) && Enabled(j, s, TakeReply(w))
    requires p < |s.pools| && Quiet(j, s, w, p)
    ensures Quiet(j, Next(j, s, TakeReply(w)), w, p)
  {
    hide JobInv, WroteLast, LinkOk, WriteOffsets, PM.Owners, PM.Legal;
    LinkAt(j, s, w, p);
    var t := s.tasks[w];
    var data := s.links[Pair(w, t.phase.pool)].replies[0];
    WroteLastGrows(j.l, t.log, PM.Got(t.phase.offset, data), PoolRank(j, p));
    WroteLastGrows(j.l, t.log, PM.Popped(t.phase.offset, data), PoolRank(j, p));
  }

  lemma ExitQuiet(j: Job, s: Sys, p: nat)
    requires ValidJob(j) && WellShaped(j, s) && Enabled(j, s, PostExit) && p < |s.pools| && Quiet(j, s, 0, p)
    ensures Quiet(j, Next(j, s, PostExit), 0, p)
  {
    hide WroteLast, WriteOffsets;
    var q, k := s.pools[p], s.links[Pair(0, p)];
    OffsetsPush(q, 0, k, Exit);
    assert Offsets(q, 0, k) + [] == Offsets(q, 0, k);
  }

  lemma HeaderQuiet(j: Job, s: Sys, ks: seq<SparseKey>, w: nat, p: nat)
    requires ValidJob(j) && JobInv(j, s) && WellShaped(j, s) && Enabled(j, s, TakeHeader(p, w, ks)) && Quiet(j, s, w, p)
    ensures Quiet(j, Next(j, s, TakeHeader(p, w, ks)), w, p)
  {
    hide WroteLast, WriteOffsets, JobInv, BeginStore, PullData, LinkOk;
    var q, k := s.pools[p], s.links[Pair(w, p)];
    var k' := k.(headers := k.headers[1..]);
    LinkAt(j, s, w, p);
    HeadKinds(j, s, w, p);
    WriteOffsetsPop(k.headers);
    if IsWrite(k.headers[0]) {
      OffsetsTaken(q, q.(pending := Some(SparseKey(w, k.headers[0].offset))), w, k);
    } else {
      assert [] + WriteOffsets(k.headers[1..]) == WriteOffsets(k.headers[1..]);
      if k.headers[0].ReadRequest? { ReadAtHead(j, s.tasks[w], w, q, p, k, s.exits); }
    }
  }

  lemma BlockQuiet(j: Job, s: Sys, w: nat, p: nat)
    requires ValidJob(j) && WellShaped(j, s) && Enabled(j, s, TakeBlock(p)) && Quiet(j, s, w, p)
    ensures Quiet(j, Next(j, s, TakeBlock(p)), w, p)
  {
    hide WroteLast, WriteOffsets, EndStore;
  }

  lemma OthersQuiet(j: Job, s: Sys, e: Event, w: nat, p: nat)
    requires ValidJob(j) && JobInv(j, s) && WellShaped(j, s) && Enabled(j, s, e) && Quiet(j, s, w, p)
    requires !Concerns(s, e, w) || (e.TakeHeader? && e.p != p) || (e.TakeBlock? && e.p != p)
    ensures Quiet(j, Next(j, s, e), w, p)
  {
    hide WroteLast, WriteOffsets, JobInv, BeginStore, PullData, EndStore, LinkOk, ServeHeader;
    match e
    case TakeHeader(i, v, ks) => OtherHeaderQuiet(j, s, i, v, ks, w, p);
    case TakeBlock(i) => if i == p { BlockQuiet(j, s, w, p); }
    case _ =>
  }

  lemma OtherHeaderQuiet(j: Job, s: Sys, i: nat, v: nat, ks: seq<SparseKey>, w: nat, p: nat)
    requires ValidJob(j) && WellShaped(j, s) && Enabled(j, s, TakeHeader(i, v, ks)) && Quiet(j, s, w, p)
    requires v != w || i != p
    ensures Quiet(j, Next(j, s, TakeHeader(i, v, ks)), w, p)
  {
    hide WroteLast, WriteOffsets, BeginStore, PullData;
  }

  lemma StepQuiet(j: Job, s: Sys, e: Event, w: nat, p: nat)
    requires ValidJob(j) && JobInv(j, s) && WellShaped(j, s) && Enabled(j, s, e) && Quiet(j, s, w, p)
    ensures Quiet(j, Next(j, s, e), w, p)
  {
    hide JobInv, WroteLast, WriteOffsets, ServeHeader, EndStore;
    if !Concerns(s, e, w) || (e.TakeHeader? && e.p != p) || (e.TakeBlock? && e.p != p) {
      OthersQuiet(j, s, e, w, p);
    } else {
      match e
      case WriteCall(_, off, data) => WriteQuiet(j, s, off, data, w, p);
      case PostBlock(_) =>
      case ReadCall(_, off) =>
        if off in s.tasks[w].w.rankMap { ReadQuiet(j, s, w, off, false, p); } else { BlankQuiet(j, s, w, off, p); }
      case PopCall(_) =>
        if s.tasks[w].w.rankMap != map[] { ReadQuiet(j, s, w, LowestKey(s.tasks[w].w.rankMap), true, p); }
      case TakeReply(_) => ReplyQuiet(j, s, w, p);
      case FinalizeCall(_) =>
      case PostExit => ExitQuiet(j, s, p);
      case TakeHeader(_, _, ks) => HeaderQuiet(j, s, ks, w, p);
      case TakeBlock(_) => BlockQuiet(j, s, w, p);
    }
  }

  lemma {:induction false} RunQuiet(j: Job, es: seq<Event>, w: nat, p: nat)
    requires ValidJob(j) && After(j, es).Some? && w < j.l.starting && p < j.l.numOcore
    ensures Quiet(j, After(j, es).value, w, p)
  {
    if es == [] {
      assert Start(j).links[Pair(w, p)] == Link([], [], []);
    } else {
      hide JobInv, Next, Enabled, Quiet;
      var n := |es| - 1;
      RunQuiet(j, es[..n], w, p);
      StepQuiet(j, After(j, es[..n]).value, es[n], w, p);
    }
  }

  /** In every run: when the last call of a worker that reached a pool task was a read or pop,
      or none did, nothing the worker wrote to it is still on its way, then and whatever
      follows short of another write. */
  lemma ReadSettlesTheChannel(j: Job, es: seq<Event>, w: nat, p: nat)
    requires ValidJob(j) && After(j, es).Some? && w < j.l.starting && p < j.l.numOcore
    requires !WroteLast(j.l, After(j, es).value.tasks[w].log, PoolRank(j, p))
    ensures var s := After(j, es).value;
      OnTheirWay(s.tasks[w], w, s.pools[p], p, s.links[Pair(w, p)]) == []
  {
    hide After, JobInv;
    RunQuiet(j, es, w, p);
  }

  // ------------------------------------------------------------------------------
  // Without buffers
  // ------------------------------------------------------------------------------

  /** In every step of the run a block is posted only to a pool task waiting for it. */
  ghost predicate Unbuffered(j: Job, es: seq<Event>)
    requires ValidJob(j)
  {
    es == [] ||
    (Unbuffered(j, es[..|es| - 1])
     && (After(j, es[..|es| - 1]).Some? ==> Matched(After(j, es[..|es| - 1]).value, es[|es| - 1])))
  }

  /** A write header is only in a channel while its worker is still inside the write. */
  predicate HeaderWithCall(s: Sys, w: nat, p: nat) {
    && w < |s.tasks| && p < |s.pools| && Pair(w, p) in s.links
    && (WriteOffsets(s.links[Pair(w, p)].headers) != [] ==> s.tasks[w].phase.Sending? && s.tasks[w].phase.pool == p)
  }

  lemma MatchedIsAlone(j: Job, t: Task, w: nat, q: Pool, p: nat, k: Link, exits: nat)
    requires p < |j.pools| && LinkOk(j, t, w, q, p, k, exits)
    requires t.phase.Sending? && t.phase.pool == p && q.pending.Some? && q.pending.value.rank == w && k.payloads == []
    ensures WriteOffsets(k.headers) == []
  {
    assert |Offsets(q, w, k)| == 1 + |WriteOffsets(k.headers)|;
  }

  lemma HeaderTakenWithCall(j: Job, s: Sys, i: nat, v: nat, ks: seq<SparseKey>, w: nat, p: nat)
    requires ValidJob(j) && WellShaped(j, s) && Enabled(j, s, TakeHeader(i, v, ks)) && HeaderWithCall(s, w, p)
    ensures HeaderWithCall(Next(j, s, TakeHeader(i, v, ks)), w, p)
  {
    hide WriteOffsets, BeginStore, PullData;
    if i == p && v == w { WriteOffsetsPop(s.links[Pair(w, p)].headers); }
  }

  lemma StepHeaderWithCall(j: Job, s: Sys, e: Event, w: nat, p: nat)
    requires ValidJob(j) && JobInv(j, s) && WellShaped(j, s) && Enabled(j, s, e) && Matched(s, e)
    requires HeaderWithCall(s, w, p)
    ensures HeaderWithCall(Next(j, s, e), w, p)
  {
    hide WriteOffsets, JobInv, BeginStore, PullData, EndStore, LinkOk, PoolOk, TaskOk, ServeHeader;
    LinkAt(j, s, w, p);
    var k := s.links[Pair(w, p)];
    match e
    case ReadCall(_, _) => ReadKeeps(j, s, e, w, p);
    case PopCall(_) => ReadKeeps(j, s, e, w, p);
    case PostExit =>
      WriteOffsetsPush(k.headers, Exit);
      assert WriteOffsets(k.headers) + [] == WriteOffsets(k.headers);
    case TakeHeader(i, v, ks) => HeaderTakenWithCall(j, s, i, v, ks, w, p);
    case PostBlock(v) =>
      if v == w && s.tasks[w].phase.pool == p {
        MatchedIsAlone(j, s.tasks[w], w, s.pools[p], p, k, s.exits);
      }
    case _ =>
  }

  lemma ReadKeeps(j: Job, s: Sys, e: Event, w: nat, p: nat)
    requires ValidJob(j) && WellShaped(j, s) && Enabled(j, s, e) && HeaderWithCall(s, w, p)
    requires e.ReadCall? || e.PopCall?
    ensures HeaderWithCall(Next(j, s, e), w, p)
  {
    hide WriteOffsets;
    var off := if e.ReadCall? then e.off
               else if s.tasks[e.w].w.rankMap != map[] then LowestKey(s.tasks[e.w].w.rankMap) else 0;
    if e.w == w && off in s.tasks[w].w.rankMap {
      var k := s.links[Pair(w, p)];
      WriteOffsetsPush(k.headers, ReadRequest(s.tasks[w].w.rankMap[off], off));
      assert WriteOffsets(k.headers) + [] == WriteOffsets(k.headers);
    }
  }

  lemma {:induction false} RunHeaderWithCall(j: Job, es: seq<Event>, w: nat, p: nat)
    requires ValidJob(j) && After(j, es).Some? && Unbuffered(j, es) && w < j.l.starting && p < j.l.numOcore
    ensures HeaderWithCall(After(j, es).value, w, p)
  {
    if es == [] {
      assert Start(j).links[Pair(w, p)] == Link([], [], []);
    } else {
      hide JobInv, Next, Enabled, HeaderWithCall, Matched;
      var n := |es| - 1;
      RunHeaderWithCall(j, es[..n], w, p);
      StepHeaderWithCall(j, After(j, es[..n]).value, es[n], w, p);
    }
  }

  /** Where no send is buffered a pool task that has stopped has stored every write to it, of
      every worker. */
  lemma UnbufferedExitLosesNothing(j: Job, es: seq<Event>, w: nat, p: nat)
    requires ValidJob(j) && After(j, es).Some? && Unbuffered(j, es) && w < j.l.starting && p < j.l.numOcore
    requires After(j, es).value.pools[p].exited
    ensures var s := After(j, es).value;
      OnTheirWay(s.tasks[w], w, s.pools[p], p, s.links[Pair(w, p)]) == []
  {
    hide After, JobInv, Unbuffered, LinkOk, TaskOk, WriteOffsets;
    RunHeaderWithCall(j, es, w, p);
    LinkAt(j, After(j, es).value, w, p);
  }
}
