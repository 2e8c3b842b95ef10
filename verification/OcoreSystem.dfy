/** The whole job: any number of worker tasks and pool tasks exchanging messages. Every
    pair of a worker and a pool task has three channels, one per message tag, and each is
    first in, first out: messages of one sender, receiver and tag do not overtake (section
    3.5 of the MPI Standard 3.1). Sends are buffered, and a pool task takes its next header
    from any worker that has one waiting. */
module OcoreSystem {
  import opened Wrappers
  import opened ScratchFile
  import opened Protocol
  import opened PoolSpec
  import opened WorkerTask
  import PM = PrivateMap

  /** Rank layout, block size in bytes, and the options of each task. */
  datatype Job = Job(l: Layout, block: nat, pools: seq<Config>, emptyOk: seq<bool>)

  /** One options record per task, and one block size for all. */
  ghost predicate ValidJob(j: Job) {
    && |j.pools| == j.l.numOcore && |j.emptyOk| == j.l.starting
    && forall p :: 0 <= p < |j.pools| ==> RecordBytes(j.pools[p]) == j.block
  }

  function PoolRank(j: Job, p: nat): nat {
    j.l.starting + p
  }

  /** Where a worker is within a call: between the header and the block of a write, waiting
      for the reply of a read or pop, or past the barrier of Finalize. */
  datatype Phase =
    | Idle
    | Sending(pool: nat, data: Bytes)
    | Waiting(pool: nat, offset: nat, pop: bool)
    | Finalizing

  /** `log` records completed calls for the statements about them; no step looks at it. */
  datatype Task = Task(w: WorkerState, phase: Phase, log: PM.History)

  /** `pending` is the record whose block a pool task is waiting for. */
  datatype Pool = Pool(store: PoolState, pending: Option<SparseKey>, exited: bool)

  datatype Link = Link(headers: seq<Header>, payloads: seq<Bytes>, replies: seq<Bytes>)

  datatype Pair = Pair(worker: nat, pool: nat)

  /** `exits` counts the exit headers sent so far; `aborted` means the job was torn down. */
  datatype Sys = Sys(tasks: seq<Task>, pools: seq<Pool>, links: map<Pair, Link>, exits: nat, aborted: bool)

  /** Enough of a pool task's invariant for every operation on it to be defined. */
  ghost predicate Ready(q: Pool) {
    && 0 <= q.store.numActive && (forall k :: InPool(q.store, k))
    && (q.pending.Some? ==> q.pending.value in q.store.smap)
  }

  predicate OwnersArePools(j: Job, w: WorkerState) {
    && w.distrib < j.l.numOcore
    && forall off :: off in w.rankMap ==> j.l.starting <= w.rankMap[off] < j.l.starting + j.l.numOcore
  }

  ghost predicate WellShaped(j: Job, s: Sys) {
    && |s.tasks| == j.l.starting && |s.pools| == j.l.numOcore && ValidJob(j)
    && (forall w, p :: 0 <= w < |s.tasks| && 0 <= p < |s.pools| ==> Pair(w, p) in s.links)
    && (forall p :: 0 <= p < |s.pools| ==> Ready(s.pools[p]))
    && (forall w :: 0 <= w < |s.tasks| ==> OwnersArePools(j, s.tasks[w].w))
  }

  function Start(j: Job): (s: Sys)
    requires |j.pools| == j.l.numOcore
  {
    Sys(seq(j.l.starting, _ => Task(FRESH, Idle, [])),
        seq(j.l.numOcore, p requires 0 <= p < |j.pools| => Pool(Init(j.pools[p]), None, false)),
        map w: nat, p: nat | w < j.l.starting && p < j.l.numOcore :: Pair(w, p) := Link([], [], []),
        0, false)
  }

  datatype Event =
    | WriteCall(w: nat, off: nat, data: Bytes) // the header goes out
    | PostBlock(w: nat)                        // ... and then the block
    | ReadCall(w: nat, off: nat)
    | PopCall(w: nat)
    | TakeReply(w: nat)
    | FinalizeCall(w: nat)
    | PostExit                                 // the master tells the next pool task to stop
    | TakeHeader(p: nat, w: nat, evicted: seq<SparseKey>)
    | TakeBlock(p: nat)

  /** The event concerns worker w: it is a step of w, or of a pool task on behalf of w. */
  predicate Concerns(s: Sys, e: Event, w: nat) {
    match e
    case PostExit => w == 0
    case TakeBlock(p) => p < |s.pools| && s.pools[p].pending.Some? && s.pools[p].pending.value.rank == w
    case TakeHeader(_, v, _) => v == w
    case WriteCall(v, _, _) => v == w
    case PostBlock(v) => v == w
    case ReadCall(v, _) => v == w
    case PopCall(v) => v == w
    case TakeReply(v) => v == w
    case FinalizeCall(v) => v == w
  }

  predicate AllFinalizing(s: Sys) {
    forall w :: 0 <= w < |s.tasks| ==> s.tasks[w].phase == Finalizing
  }

  ghost predicate Enabled(j: Job, s: Sys, e: Event)
    requires WellShaped(j, s)
  {
    !s.aborted &&
    match e
    case WriteCall(w, _, data) => w < |s.tasks| && s.tasks[w].phase == Idle && |data| == j.block
    case PostBlock(w) => w < |s.tasks| && s.tasks[w].phase.Sending? && s.tasks[w].phase.pool < |s.pools|
    case ReadCall(w, _) => w < |s.tasks| && s.tasks[w].phase == Idle
    case PopCall(w) => w < |s.tasks| && s.tasks[w].phase == Idle
    case TakeReply(w) =>
      && w < |s.tasks| && s.tasks[w].phase.Waiting? && s.tasks[w].phase.pool < |s.pools|
      && s.links[Pair(w, s.tasks[w].phase.pool)].replies != []
    case FinalizeCall(w) => w < |s.tasks| && s.tasks[w].phase == Idle
    case PostExit => AllFinalizing(s) && s.exits < |s.pools|
    case TakeHeader(p, w, ks) =>
      && p < |s.pools| && w < |s.tasks|
      && !s.pools[p].exited && s.pools[p].pending == None && s.links[Pair(w, p)].headers != []
      && var h := s.links[Pair(w, p)].headers[0];
         (IsWrite(h) && h.dest == PoolRank(j, p) ==>
            Choice(j.pools[p], s.pools[p].store, SparseKey(w, h.offset), ks))
    case TakeBlock(p) =>
      && p < |s.pools| && s.pools[p].pending.Some? && s.pools[p].pending.value.rank < |s.tasks|
      && s.links[Pair(s.pools[p].pending.value.rank, p)].payloads != []
  }

  // ------------------------------------------------------------------------------
  // Steps of one worker, on its own state
  // ------------------------------------------------------------------------------

  function StartWrite(j: Job, t: Task, off: nat, data: Bytes): (r: Task)
    ensures r.phase.Sending?
  {
    var w := Settle(j.l, t.w, off);
    var owner := w.rankMap[off];
    var pool := if owner >= j.l.starting then owner - j.l.starting else 0;
    Task(w, Sending(pool, data), t.log + [PM.Wrote(off, data)])
  }

  function StartRead(j: Job, t: Task, off: nat, pop: bool): Task
    requires off in t.w.rankMap
  {
    var owner := t.w.rankMap[off];
    var pool := if owner >= j.l.starting then owner - j.l.starting else 0;
    t.(phase := Waiting(pool, off, pop))
  }

  function BlankRead(j: Job, t: Task, off: nat): Task {
    t.(w := t.w.(emptyReads := t.w.emptyReads + 1), log := t.log + [PM.Got(off, Zeros(j.block))])
  }

  function EndRead(t: Task, data: Bytes): Task
    requires t.phase.Waiting?
  {
    var off := t.phase.offset;
    if t.phase.pop then Task(t.w.(rankMap := t.w.rankMap - {off}), Idle, t.log + [PM.Popped(off, data)])
    else Task(t.w, Idle, t.log + [PM.Got(off, data)])
  }

  // ------------------------------------------------------------------------------
  // Steps of the job
  // ------------------------------------------------------------------------------

  function SetTask(s: Sys, w: nat, t: Task, p: nat, k: Link): Sys
    requires w < |s.tasks|
  {
    s.(tasks := s.tasks[w := t], links := s.links[Pair(w, p) := k])
  }

  function SetPool(s: Sys, p: nat, q: Pool, w: nat, k: Link): Sys
    requires p < |s.pools|
  {
    s.(pools := s.pools[p := q], links := s.links[Pair(w, p) := k])
  }

  function SendExit(s: Sys): Sys
    requires Pair(0, s.exits) in s.links
  {
    var k := s.links[Pair(0, s.exits)];
    s.(links := s.links[Pair(0, s.exits) := k.(headers := k.headers + [Exit])], exits := s.exits + 1)
  }

  ghost function Next(j: Job, s: Sys, e: Event): (r: Sys)
    requires WellShaped(j, s) && Enabled(j, s, e)
  {
    match e
    case WriteCall(w, off, data) =>
      var t := StartWrite(j, s.tasks[w], off, data);
      assert t.w.rankMap[off] < j.l.starting + j.l.numOcore by { SettledOwner(j, s.tasks[w].w, off); }
      var k := s.links[Pair(w, t.phase.pool)];
      SetTask(s, w, t, t.phase.pool, k.(headers := k.headers + [WriteHeader(j.l, s.tasks[w].w, off)]))
    case PostBlock(w) =>
      var t := s.tasks[w];
      var k := s.links[Pair(w, t.phase.pool)];
      SetTask(s, w, t.(phase := Idle), t.phase.pool, k.(payloads := k.payloads + [t.phase.data]))
    case ReadCall(w, off) =>
      if off in s.tasks[w].w.rankMap then PostRead(j, s, w, off, false)
      else if j.emptyOk[w] then s.(tasks := s.tasks[w := BlankRead(j, s.tasks[w], off)])
      else s.(aborted := true)
    case PopCall(w) =>
      if s.tasks[w].w.rankMap == map[] then s.(aborted := true)
      else PostRead(j, s, w, LowestKey(s.tasks[w].w.rankMap), true)
    case TakeReply(w) =>
      var t := s.tasks[w];
      var k := s.links[Pair(w, t.phase.pool)];
      SetTask(s, w, EndRead(t, k.replies[0]), t.phase.pool, k.(replies := k.replies[1..]))
    case FinalizeCall(w) =>
      s.(tasks := s.tasks[w := s.tasks[w].(phase := Finalizing)])
    case PostExit =>
      SendExit(s)
    case TakeHeader(p, w, ks) =>
      var k := s.links[Pair(w, p)];
      ServeHeader(j, s, p, w, ks, k.headers[0], k.(headers := k.headers[1..]))
    case TakeBlock(p) =>
      var q := s.pools[p];
      var key := q.pending.value;
      var k := s.links[Pair(key.rank, p)];
      assert Ready(q) && InPool(q.store, key);
      SetPool(s, p, Pool(EndStore(j.pools[p], q.store, key, k.payloads[0]), None, q.exited),
              key.rank, k.(payloads := k.payloads[1..]))
  }

  lemma SettledOwner(j: Job, w: WorkerState, off: nat)
    requires OwnersArePools(j, w)
    ensures OwnersArePools(j, Settle(j.l, w, off))
  {
  }

  ghost function LowestKey(m: map<nat, nat>): (off: nat)
    requires m != map[]
    ensures PM.IsFirst(m, off)
  {
    assert exists x :: x in m && x in m.Keys by { var x :| x in m.Keys; }
    var x :| x in m;
    FirstKeyExists(m, x + 1);
    var off :| PM.IsFirst(m, off);
    off
  }

  ghost function PostRead(j: Job, s: Sys, w: nat, off: nat, pop: bool): Sys
    requires WellShaped(j, s) && w < |s.tasks| && off in s.tasks[w].w.rankMap && OwnersArePools(j, s.tasks[w].w)
  {
    var t := StartRead(j, s.tasks[w], off, pop);
    var k := s.links[Pair(w, t.phase.pool)];
    SetTask(s, w, t, t.phase.pool, k.(headers := k.headers + [ReadRequest(t.w.rankMap[off], off)]))
  }

  /** One turn of the polling loop; k is the link without the header just taken. */
  ghost function ServeHeader(j: Job, s: Sys, p: nat, w: nat, ks: seq<SparseKey>, h: Header, k: Link): Sys
    requires WellShaped(j, s) && p < |s.pools|
    requires IsWrite(h) && h.dest == PoolRank(j, p) ==> Choice(j.pools[p], s.pools[p].store, SparseKey(w, h.offset), ks)
  {
    var q, c := s.pools[p], j.pools[p];
    if h.Exit? then SetPool(s, p, q.(exited := true), w, k)
    else if h.dest != PoolRank(j, p) then SetPool(s, p, q, w, k)
    else
      var key := SparseKey(w, h.offset);
      assert Ready(q) && InPool(q.store, key);
      if IsWrite(h) then
        match BeginStore(c, q.store, key, ks)
        case Abort => s.(aborted := true)
        case Begun(store) => SetPool(s, p, Pool(store, Some(key), q.exited), w, k)
      else
        match PullData(c, q.store, key)
        case PullFailed => s.(aborted := true)
        case Pulled(store, data) =>
          SetPool(s, p, Pool(store, q.pending, q.exited), w, k.(replies := k.replies + [data]))
  }
}
