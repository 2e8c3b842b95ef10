/** Every step of the job keeps its invariant, and a step for one worker changes nothing
    any other worker could see. */
module OcoreSteps {
  import opened Wrappers
  import opened ScratchFile
  import opened Protocol
  import opened PoolSpec
  import opened PoolRuns
  import opened WorkerTask
  import opened OcoreSystem
  import opened OcoreInvariant
  import PM = PrivateMap

  ghost predicate Here(j: Job, s: Sys, w: nat, p: nat)
    requires ValidJob(j)
  {
    JobInv(j, s) && w < |s.tasks| && p < |s.pools|
  }

  /** One worker and one of its links replaced. */
  lemma SetTaskInv(j: Job, s: Sys, w: nat, t: Task, p: nat, k: Link)
    requires ValidJob(j) && Here(j, s, w, p)
    requires TaskOk(j, t, w) && (s.exits > 0 ==> t.phase == Finalizing)
    requires LinkOk(j, t, w, s.pools[p], p, k, s.exits)
    requires forall i :: 0 <= i < |s.pools| && i != p ==> LinkOk(j, t, w, s.pools[i], i, s.links[Pair(w, i)], s.exits)
    ensures JobInv(j, SetTask(s, w, t, p, k))
  {
    hide LinkOk, TaskOk, PoolOk;
    var s' := SetTask(s, w, t, p, k);
    forall v, i | 0 <= v < |s'.tasks| && 0 <= i < |s'.pools|
      ensures LinkOk(j, s'.tasks[v], v, s'.pools[i], i, s'.links[Pair(v, i)], s'.exits)
    {
      assert LinkOk(j, s.tasks[v], v, s.pools[i], i, s.links[Pair(v, i)], s.exits);
    }
  }

  /** One pool task and its link to one worker replaced. */
  lemma SetPoolInv(j: Job, s: Sys, p: nat, q: Pool, w: nat, k: Link)
    requires ValidJob(j) && Here(j, s, w, p)
    requires PoolOk(j, q, p, s.exits)
    requires LinkOk(j, s.tasks[w], w, q, p, k, s.exits)
    requires forall v :: 0 <= v < |s.tasks| && v != w ==> LinkOk(j, s.tasks[v], v, q, p, s.links[Pair(v, p)], s.exits)
    ensures JobInv(j, SetPool(s, p, q, w, k))
  {
    hide LinkOk, TaskOk, PoolOk;
    var s' := SetPool(s, p, q, w, k);
    forall v, i | 0 <= v < |s'.tasks| && 0 <= i < |s'.pools|
      ensures LinkOk(j, s'.tasks[v], v, s'.pools[i], i, s'.links[Pair(v, i)], s'.exits)
    {
      LinkAt(j, s, v, i);
    }
    forall i | 0 <= i < |s'.pools| ensures PoolOk(j, s'.pools[i], i, s'.exits) {
      LinkAt(j, s, w, i);
    }
  }

  lemma LinkAt(j: Job, s: Sys, w: nat, p: nat)
    requires ValidJob(j) && Here(j, s, w, p)
    ensures TaskOk(j, s.tasks[w], w) && PoolOk(j, s.pools[p], p, s.exits)
    ensures Pair(w, p) in s.links && LinkOk(j, s.tasks[w], w, s.pools[p], p, s.links[Pair(w, p)], s.exits)
    ensures s.tasks[w].phase != Finalizing ==> s.exits == 0
  {
    hide LinkOk, TaskOk, PoolOk;
  }

  lemma WriteCallInv(j: Job, s: Sys, w: nat, off: nat, data: Bytes)
    requires ValidJob(j) && JobInv(j, s) && WellShaped(j, s) && Enabled(j, s, WriteCall(w, off, data))
    ensures JobInv(j, Next(j, s, WriteCall(w, off, data)))
  {
    hide LinkOk, JobInv;
    var t := StartWrite(j, s.tasks[w], off, data);
    LinkAt(j, s, w, 0);
    StartWriteTask(j, s.tasks[w], w, off, data);
    var p := t.phase.pool;
    LinkAt(j, s, w, p);
    var k := s.links[Pair(w, p)];
    StartWriteHere(j, s.tasks[w], w, s.pools[p], p, k, off, data);
    forall i | 0 <= i < |s.pools| && i != p ensures LinkOk(j, t, w, s.pools[i], i, s.links[Pair(w, i)], s.exits) {
      LinkAt(j, s, w, i);
      StartWriteElsewhere(j, s.tasks[w], w, s.pools[i], i, s.links[Pair(w, i)], off, data);
    }
    SetTaskInv(j, s, w, t, p, k.(headers := k.headers + [WriteHeader(j.l, s.tasks[w].w, off)]));
  }

  lemma PostBlockInv(j: Job, s: Sys, w: nat)
    requires ValidJob(j) && JobInv(j, s) && WellShaped(j, s) && Enabled(j, s, PostBlock(w))
    ensures JobInv(j, Next(j, s, PostBlock(w)))
  {
    hide LinkOk, JobInv;
    var t := s.tasks[w];
    var p := t.phase.pool;
    LinkAt(j, s, w, p);
    var k := s.links[Pair(w, p)];
    PostBlockHere(j, t, w, s.pools[p], p, k, s.exits);
    forall i | 0 <= i < |s.pools| && i != p
      ensures LinkOk(j, t.(phase := Idle), w, s.pools[i], i, s.links[Pair(w, i)], s.exits)
    {
      LinkAt(j, s, w, i);
      PostBlockElsewhere(j, t, w, s.pools[i], i, s.links[Pair(w, i)], s.exits);
    }
    SetTaskInv(j, s, w, t.(phase := Idle), p, k.(payloads := k.payloads + [t.phase.data]));
  }

  lemma PostReadInv(j: Job, s: Sys, w: nat, off: nat, pop: bool)
    requires ValidJob(j) && JobInv(j, s) && WellShaped(j, s) && w < |s.tasks| && s.tasks[w].phase == Idle
    requires off in s.tasks[w].w.rankMap && (pop ==> PM.IsFirst(s.tasks[w].w.rankMap, off))
    ensures JobInv(j, PostRead(j, s, w, off, pop))
  {
    hide LinkOk, JobInv;
    var t, t' := s.tasks[w], StartRead(j, s.tasks[w], off, pop);
    var p := t'.phase.pool;
    assert OwnersArePools(j, t.w);
    LinkAt(j, s, w, p);
    var k := s.links[Pair(w, p)];
    StartReadHere(j, t, w, s.pools[p], p, k, off, pop);
    forall i | 0 <= i < |s.pools| && i != p ensures LinkOk(j, t', w, s.pools[i], i, s.links[Pair(w, i)], s.exits) {
      LinkAt(j, s, w, i);
      QuietLink(j, t, t', w, s.pools[i], i, s.links[Pair(w, i)], s.exits);
    }
    SetTaskInv(j, s, w, t', p, k.(headers := k.headers + [ReadRequest(t.w.rankMap[off], off)]));
  }

  lemma BlankReadInv(j: Job, s: Sys, w: nat, off: nat)
    requires ValidJob(j) && JobInv(j, s) && w < |s.tasks| && s.tasks[w].phase == Idle
    requires off !in s.tasks[w].w.rankMap && j.emptyOk[w]
    ensures JobInv(j, s.(tasks := s.tasks[w := BlankRead(j, s.tasks[w], off)]))
  {
    hide LinkOk;
    var t, t' := s.tasks[w], BlankRead(j, s.tasks[w], off);
    assert t'.log[..|t.log|] == t.log;
    ReadTracks(j.l, t.w, t.log, off, Zeros(j.block));
    LinkAt(j, s, w, 0);
    forall i | 0 <= i < |s.pools| ensures LinkOk(j, t', w, s.pools[i], i, s.links[Pair(w, i)], s.exits) {
      LinkAt(j, s, w, i);
      QuietLink(j, t, t', w, s.pools[i], i, s.links[Pair(w, i)], s.exits);
    }
    SetTaskInv(j, s, w, t', 0, s.links[Pair(w, 0)]);
    assert s.links[Pair(w, 0) := s.links[Pair(w, 0)]] == s.links;
  }

  lemma TakeReplyInv(j: Job, s: Sys, w: nat)
    requires ValidJob(j) && JobInv(j, s) && WellShaped(j, s) && Enabled(j, s, TakeReply(w))
    ensures JobInv(j, Next(j, s, TakeReply(w)))
  {
    hide LinkOk, JobInv;
    var t := s.tasks[w];
    var p := t.phase.pool;
    LinkAt(j, s, w, 0);
    LinkAt(j, s, w, p);
    var k := s.links[Pair(w, p)];
    var t' := EndRead(t, k.replies[0]);
    EndReadHere(j, t, w, s.pools[p], p, k, s.exits);
    EndReadTask(j, t, w, s.pools[p], p, k, s.exits);
    assert t'.log[..|t.log|] == t.log;
    forall i | 0 <= i < |s.pools| && i != p ensures LinkOk(j, t', w, s.pools[i], i, s.links[Pair(w, i)], s.exits) {
      LinkAt(j, s, w, i);
      QuietLink(j, t, t', w, s.pools[i], i, s.links[Pair(w, i)], s.exits);
    }
    SetTaskInv(j, s, w, t', p, k.(replies := k.replies[1..]));
  }

  lemma FinalizeInv(j: Job, s: Sys, w: nat)
    requires ValidJob(j) && JobInv(j, s) && WellShaped(j, s) && Enabled(j, s, FinalizeCall(w))
    ensures JobInv(j, Next(j, s, FinalizeCall(w)))
  {
    hide LinkOk;
    var t, t' := s.tasks[w], s.tasks[w].(phase := Finalizing);
    LinkAt(j, s, w, 0);
    forall i | 0 <= i < |s.pools| ensures LinkOk(j, t', w, s.pools[i], i, s.links[Pair(w, i)], s.exits) {
      LinkAt(j, s, w, i);
      QuietLink(j, t, t', w, s.pools[i], i, s.links[Pair(w, i)], s.exits);
    }
    SetTaskInv(j, s, w, t', 0, s.links[Pair(w, 0)]);
    assert s.links[Pair(w, 0) := s.links[Pair(w, 0)]] == s.links;
  }

  lemma PostExitLink(j: Job, s: Sys, v: nat, i: nat)
    requires ValidJob(j) && Here(j, s, v, i) && s.tasks[v].phase == Finalizing
    ensures var k := s.links[Pair(v, i)];
      LinkOk(j, s.tasks[v], v, s.pools[i], i,
             if v == 0 && i == s.exits then k.(headers := k.headers + [Exit]) else k, s.exits + 1)
  {
    hide LinkOk;
    LinkAt(j, s, v, i);
    if v == 0 && i == s.exits {
      PostExitHere(j, s.tasks[v], s.pools[i], i, s.links[Pair(v, i)]);
    } else {
      PostExitElsewhere(j, s.tasks[v], v, s.pools[i], i, s.links[Pair(v, i)], s.exits);
    }
  }

  lemma PostExitInv(j: Job, s: Sys)
    requires ValidJob(j) && JobInv(j, s) && AllFinalizing(s) && s.exits < |s.pools|
    ensures Pair(0, s.exits) in s.links && JobInv(j, SendExit(s))
  {
    var s' := SendExit(s);
    forall v, i | 0 <= v < |s'.tasks| && 0 <= i < |s'.pools|
      ensures LinkOk(j, s'.tasks[v], v, s'.pools[i], i, s'.links[Pair(v, i)], s'.exits)
    {
      PostExitLink(j, s, v, i);
    }
    forall i | 0 <= i < |s'.pools| ensures PoolOk(j, s'.pools[i], i, s'.exits) {
      LinkAt(j, s, 0, i);
    }
  }

  // ---- the pool tasks ----

  /** A pool task working for w leaves every other worker's blocks in place, whatever it
      evicts to make room. */
  lemma OthersUntouched(j: Job, s: Sys, p: nat, q: Pool, w: nat)
    requires ValidJob(j) && Here(j, s, w, p)
    requires forall m: SparseKey :: m.rank != w ==>
      Stored(j.pools[p], q.store, m) == Stored(j.pools[p], s.pools[p].store, m)
    requires q.pending.Some? ==> q.pending.value.rank == w
    requires s.pools[p].pending.Some? ==> s.pools[p].pending.value.rank == w
    requires w != 0 ==> q.exited == s.pools[p].exited
    ensures forall v :: 0 <= v < |s.tasks| && v != w ==> LinkOk(j, s.tasks[v], v, q, p, s.links[Pair(v, p)], s.exits)
  {
    hide LinkOk;
    forall v | 0 <= v < |s.tasks| && v != w
      ensures LinkOk(j, s.tasks[v], v, q, p, s.links[Pair(v, p)], s.exits)
    {
      LinkAt(j, s, v, p);
      assert SameStored(j.pools[p], s.pools[p], q, v);
      LinkFrame(j, s.tasks[v], v, s.pools[p], q, p, s.links[Pair(v, p)], s.exits);
    }
  }

  lemma PayloadFull(j: Job, t: Task, w: nat, q: Pool, p: nat, k: Link, exits: nat)
    requires p < |j.pools| && LinkOk(j, t, w, q, p, k, exits) && k.payloads != []
    ensures |k.payloads[0]| == j.block
  {
    assert Blocks(t, p, k)[0] == k.payloads[0];
  }

  lemma TakeBlockInv(j: Job, s: Sys, p: nat)
    requires ValidJob(j) && JobInv(j, s) && WellShaped(j, s) && Enabled(j, s, TakeBlock(p))
    ensures JobInv(j, Next(j, s, TakeBlock(p)))
  {
    hide LinkOk;
    var q, c := s.pools[p], j.pools[p];
    var key := q.pending.value;
    var w := key.rank;
    LinkAt(j, s, w, p);
    var k := s.links[Pair(w, p)];
    PayloadFull(j, s.tasks[w], w, q, p, k, s.exits);
    EndStoreKeeps(c, q.store, key, k.payloads[0]);
    var store := EndStore(c, q.store, key, k.payloads[0]);
    TakeBlockHere(j, s.tasks[w], w, q, p, k, s.exits, store);
    OthersUntouched(j, s, p, Pool(store, None, q.exited), w);
    SetPoolInv(j, s, p, Pool(store, None, q.exited), w, k.(payloads := k.payloads[1..]));
  }

  /** The header at the head of a channel is a write meant for this pool task, an answerable
      read meant for it, or the exit header from the master. */
  lemma HeadKinds(j: Job, s: Sys, w: nat, p: nat)
    requires ValidJob(j) && Here(j, s, w, p) && s.links[Pair(w, p)].headers != []
    ensures var h := s.links[Pair(w, p)].headers[0];
      IsWrite(h) || h.ReadRequest? ==> h.dest == PoolRank(j, p)
  {
    LinkAt(j, s, w, p);
    HeadDest(s.links[Pair(w, p)].headers, PoolRank(j, p),
             Tail(j, s.tasks[w], w, s.pools[p], p, s.links[Pair(w, p)], s.exits));
  }

  lemma HeadDest(hs: seq<Header>, dest: nat, tail: seq<Header>)
    requires WritesThen(hs, dest, tail) && hs != []
    requires |tail| <= 1 && forall i :: 0 <= i < |tail| && !tail[i].Exit? ==> tail[i].dest == dest
    ensures !hs[0].Exit? ==> hs[0].dest == dest
  {
    if |tail| == |hs| {
      assert hs[0..] == hs;
    }
  }

  lemma TakeWriteInv(j: Job, s: Sys, p: nat, w: nat, ks: seq<SparseKey>)
    requires ValidJob(j) && JobInv(j, s) && WellShaped(j, s) && Enabled(j, s, TakeHeader(p, w, ks))
    requires IsWrite(s.links[Pair(w, p)].headers[0])
    ensures JobInv(j, Next(j, s, TakeHeader(p, w, ks)))
  {
    hide LinkOk;
    HeadKinds(j, s, w, p);
    LinkAt(j, s, w, p);
    var q, c, k := s.pools[p], j.pools[p], s.links[Pair(w, p)];
    var key := SparseKey(w, k.headers[0].offset);
    BeginStoreKeeps(c, q.store, key, ks);
    var b := BeginStore(c, q.store, key, ks);
    if b.Begun? {
      var q' := Pool(b.state, Some(key), q.exited);
      TakeWriteHere(j, s.tasks[w], w, q, p, k, s.exits, b.state);
      OthersUntouched(j, s, p, q', w);
      SetPoolInv(j, s, p, q', w, k.(headers := k.headers[1..]));
    }
  }

  lemma TakeReadInv(j: Job, s: Sys, p: nat, w: nat, ks: seq<SparseKey>)
    requires ValidJob(j) && JobInv(j, s) && WellShaped(j, s) && Enabled(j, s, TakeHeader(p, w, ks))
    requires s.links[Pair(w, p)].headers[0].ReadRequest?
    ensures JobInv(j, Next(j, s, TakeHeader(p, w, ks))) && !Next(j, s, TakeHeader(p, w, ks)).aborted
  {
    hide LinkOk, JobInv;
    HeadKinds(j, s, w, p);
    LinkAt(j, s, w, p);
    var q, c, k := s.pools[p], j.pools[p], s.links[Pair(w, p)];
    ReadAtHead(j, s.tasks[w], w, q, p, k, s.exits);
    TakeReadHere(j, s.tasks[w], w, q, p, k, s.exits);
    var key := SparseKey(w, k.headers[0].offset);
    PullDataKeeps(c, q.store, key);
    var r := PullData(c, q.store, key);
    var q' := q.(store := r.state);
    OthersUntouched(j, s, p, q', w);
    SetPoolInv(j, s, p, q', w, k.(headers := k.headers[1..], replies := k.replies + [r.data]));
  }

  lemma TakeExitInv(j: Job, s: Sys, p: nat, w: nat, ks: seq<SparseKey>)
    requires ValidJob(j) && JobInv(j, s) && WellShaped(j, s) && Enabled(j, s, TakeHeader(p, w, ks))
    requires s.links[Pair(w, p)].headers[0].Exit?
    ensures JobInv(j, Next(j, s, TakeHeader(p, w, ks)))
  {
    hide LinkOk, JobInv;
    LinkAt(j, s, w, p);
    var q, k := s.pools[p], s.links[Pair(w, p)];
    ExitAtHead(j, s.tasks[w], w, q, p, k, s.exits);
    ExitIsLast(j, s.tasks[w], w, q, p, k, s.exits);
    OthersUntouched(j, s, p, q.(exited := true), w);
    SetPoolInv(j, s, p, q.(exited := true), w, k.(headers := k.headers[1..]));
  }

  /** Every step keeps the invariant. */
  lemma StepInv(j: Job, s: Sys, e: Event)
    requires ValidJob(j) && JobInv(j, s) && WellShaped(j, s) && Enabled(j, s, e)
    ensures JobInv(j, Next(j, s, e))
  {
    match e
    case WriteCall(w, off, data) => WriteCallInv(j, s, w, off, data);
    case PostBlock(w) => PostBlockInv(j, s, w);
    case ReadCall(w, off) =>
      if off in s.tasks[w].w.rankMap {
        PostReadInv(j, s, w, off, false);
      } else if j.emptyOk[w] {
        BlankReadInv(j, s, w, off);
      }
    case PopCall(w) =>
      if s.tasks[w].w.rankMap != map[] {
        PostReadInv(j, s, w, LowestKey(s.tasks[w].w.rankMap), true);
      }
    case TakeReply(w) => TakeReplyInv(j, s, w);
    case FinalizeCall(w) => FinalizeInv(j, s, w);
    case PostExit => PostExitInv(j, s);
    case TakeHeader(p, w, ks) =>
      match s.links[Pair(w, p)].headers[0] {
        case Exit => TakeExitInv(j, s, p, w, ks);
        case ReadRequest(_, _) => TakeReadInv(j, s, p, w, ks);
        case _ => TakeWriteInv(j, s, p, w, ks);
      }
    case TakeBlock(p) => TakeBlockInv(j, s, p);
  }
}
