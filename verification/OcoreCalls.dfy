/** Calls return: from every state of the job a write, read or pop can be carried to its end
    without taking a header of any other worker, or a pool task without room ends the job.
    So a worker can drain its records. */
module OcoreCalls {
  import opened Wrappers
  import opened ScratchFile
  import opened Protocol
  import opened PoolSpec
  import opened PoolRuns
  import opened WorkerTask
  import opened OcoreSystem
  import opened OcoreInvariant
  import opened OcoreSteps
  import opened OcoreTheorems
  import opened OcoreLiveness
  import PM = PrivateMap

  // ---- runs from a state ----

  /** The last of the events is a new record for a pool task with no room, which ends the
      job. */
  ghost predicate FillsUp(j: Job, s: Sys, moves: seq<Event>)
    requires ValidJob(j)
    decreases |moves|
  {
    && moves != [] && JobInv(j, s) && WellShaped(j, s) && Enabled(j, s, moves[0])
    && if |moves| == 1 then PoolFull(j, s, moves[0]) else FillsUp(j, Next(j, s, moves[0]), moves[1..])
  }

  /** Every block is posted, and every read answered, to somebody who waits for it. */
  ghost predicate Synchronous(j: Job, s: Sys, moves: seq<Event>)
    requires ValidJob(j)
    decreases |moves|
  {
    moves == [] ||
    (JobInv(j, s) && WellShaped(j, s) && Enabled(j, s, moves[0]) && Matched(s, moves[0])
     && Synchronous(j, Next(j, s, moves[0]), moves[1..]))
  }

  lemma LeadsCons(j: Job, s: Sys, e: Event, moves: seq<Event>, t: Sys)
    requires ValidJob(j) && JobInv(j, s) && WellShaped(j, s) && Enabled(j, s, e)
    requires Leads(j, Next(j, s, e), moves, t)
    ensures Leads(j, s, [e] + moves, t)
    ensures FillsUp(j, Next(j, s, e), moves) ==> FillsUp(j, s, [e] + moves)
    ensures Matched(s, e) && Synchronous(j, Next(j, s, e), moves) ==> Synchronous(j, s, [e] + moves)
  {
    hide JobInv, WellShaped, Enabled, Next, Matched;
    assert ([e] + moves)[1..] == moves;
  }

  lemma {:induction false} LeadsAppend(j: Job, s: Sys, moves: seq<Event>, t: Sys, more: seq<Event>, u: Sys)
    requires ValidJob(j) && Leads(j, s, moves, t) && Leads(j, t, more, u)
    ensures Leads(j, s, moves + more, u)
    ensures FillsUp(j, t, more) ==> FillsUp(j, s, moves + more)
    ensures Synchronous(j, s, moves) && Synchronous(j, t, more) ==> Synchronous(j, s, moves + more)
    decreases |moves|
  {
    hide JobInv, WellShaped, Enabled, Next, Matched;
    if moves == [] {
      assert moves + more == more;
    } else {
      assert moves + more == [moves[0]] + (moves[1..] + more);
      LeadsAppend(j, Next(j, s, moves[0]), moves[1..], t, more, u);
      LeadsCons(j, s, moves[0], moves[1..] + more, u);
    }
  }

  lemma {:induction false} LeadsInv(j: Job, s: Sys, moves: seq<Event>, t: Sys)
    requires ValidJob(j) && JobInv(j, s) && WellShaped(j, s) && Leads(j, s, moves, t)
    ensures JobInv(j, t) && WellShaped(j, t)
    decreases |moves|
  {
    hide JobInv, WellShaped, Enabled, Next;
    if moves != [] {
      StepInv(j, s, moves[0]);
      JobShape(j, Next(j, s, moves[0]));
      LeadsInv(j, Next(j, s, moves[0]), moves[1..], t);
    }
  }

  lemma {:induction false} LeadsReach(j: Job, es: seq<Event>, moves: seq<Event>, t: Sys)
    requires ValidJob(j) && After(j, es).Some? && Leads(j, After(j, es).value, moves, t)
    ensures After(j, es + moves) == Some(t)
    decreases |moves|
  {
    hide JobInv, WellShaped, Enabled, Next;
    if moves == [] {
      assert es + moves == es;
    } else {
      assert (es + [moves[0]])[..|es|] == es && es + moves == (es + [moves[0]]) + moves[1..];
      LeadsReach(j, es + [moves[0]], moves[1..], t);
    }
  }

  lemma AfterPrefix(j: Job, es: seq<Event>, e: Event)
    requires ValidJob(j) && After(j, es + [e]).Some?
    ensures After(j, es).Some? && Enabled(j, After(j, es).value, e)
    ensures After(j, es + [e]) == Some(Next(j, After(j, es).value, e))
  {
    hide JobInv, WellShaped, Enabled, Next;
    assert (es + [e])[..|es|] == es;
  }

  /** What follows in a longer run leads from the state of the shorter to that of the longer. */
  lemma {:induction false} AfterLeads(j: Job, es: seq<Event>, moves: seq<Event>)
    requires ValidJob(j) && After(j, es + moves).Some?
    ensures After(j, es).Some? && Leads(j, After(j, es).value, moves, After(j, es + moves).value)
    decreases |moves|
  {
    hide JobInv, WellShaped, Enabled, Next;
    if moves == [] {
      assert es + moves == es;
    } else {
      assert es + moves == (es + [moves[0]]) + moves[1..];
      AfterLeads(j, es + [moves[0]], moves[1..]);
      AfterPrefix(j, es, moves[0]);
    }
  }

  // ---- one call ----

  /** A worker's own state once the call it is in has returned: a read or pop returns the
      block of the worker's own map. */
  function Finished(t: Task): Task {
    match t.phase
    case Sending(_, _) => t.(phase := Idle)
    case Waiting(_, off, _) => if off in PM.Contents(t.log) then EndRead(t, PM.Contents(t.log)[off]) else t
    case Idle => t
    case Finalizing => t
  }

  predicate TaskAside(s: Sys, t: Sys, v: nat) {
    && v < |s.tasks| && v < |t.tasks|
    && (t.tasks[v] == s.tasks[v] || (s.tasks[v].phase.Sending? && t.tasks[v] == Finished(s.tasks[v])))
  }

  predicate HeadersAside(s: Sys, t: Sys, v: nat, p: nat) {
    && Pair(v, p) in s.links && Pair(v, p) in t.links
    && t.links[Pair(v, p)].headers == s.links[Pair(v, p)].headers
  }

  predicate StopAside(s: Sys, t: Sys, p: nat) {
    p < |s.pools| && p < |t.pools| && t.pools[p].exited == s.pools[p].exited
  }

  /** Of the other workers, t differs from s only in blocks posted; nobody has stopped. */
  ghost predicate Aside(s: Sys, t: Sys, w: nat) {
    && |t.tasks| == |s.tasks| && |t.pools| == |s.pools| && t.exits == s.exits
    && (forall v :: 0 <= v < |s.tasks| && v != w ==> TaskAside(s, t, v))
    && (forall v, p :: 0 <= v < |s.tasks| && v != w && 0 <= p < |s.pools| ==> HeadersAside(s, t, v, p))
    && (forall p :: 0 <= p < |s.pools| ==> StopAside(s, t, p))
  }

  lemma AsideItself(j: Job, s: Sys, w: nat)
    requires WellShaped(j, s)
    ensures Aside(s, s, w)
  {
  }

  lemma AsideThen(s: Sys, t: Sys, u: Sys, w: nat)
    requires Aside(s, t, w) && Aside(t, u, w)
    ensures Aside(s, u, w)
  {
    forall v | 0 <= v < |s.tasks| && v != w ensures TaskAside(s, u, v) {
      assert TaskAside(s, t, v) && TaskAside(t, u, v);
    }
    forall v, p | 0 <= v < |s.tasks| && v != w && 0 <= p < |s.pools| ensures HeadersAside(s, u, v, p) {
      assert HeadersAside(s, t, v, p) && HeadersAside(t, u, v, p);
    }
    forall p | 0 <= p < |s.pools| ensures StopAside(s, u, p) {
      assert StopAside(s, t, p) && StopAside(t, u, p);
    }
  }

  /** A move made for worker w. */
  predicate For(e: Event, w: nat) {
    Internal(e) && (e.TakeHeader? || e.TakeReply? ==> e.w == w)
  }

  predicate AllFor(moves: seq<Event>, w: nat) {
    forall i :: 0 <= i < |moves| ==> For(moves[i], w)
  }

  lemma HeaderAside(j: Job, s: Sys, p: nat, w: nat, ks: seq<SparseKey>)
    requires ValidJob(j) && JobInv(j, s) && WellShaped(j, s) && Enabled(j, s, TakeHeader(p, w, ks))
    requires s.exits == 0 && !Next(j, s, TakeHeader(p, w, ks)).aborted
    ensures Aside(s, Next(j, s, TakeHeader(p, w, ks)), w)
    ensures Next(j, s, TakeHeader(p, w, ks)).tasks == s.tasks
  {
    hide JobInv, LinkOk, BeginStore, PullData, PoolOk, TaskOk;
    LinkAt(j, s, w, p);
    if s.links[Pair(w, p)].headers[0].Exit? {
      ExitIsLast(j, s.tasks[w], w, s.pools[p], p, s.links[Pair(w, p)], s.exits);
    }
  }

  lemma MoveAside(j: Job, s: Sys, e: Event, w: nat)
    requires ValidJob(j) && JobInv(j, s) && WellShaped(j, s) && Enabled(j, s, e) && w < |s.tasks|
    requires s.exits == 0 && For(e, w) && !Next(j, s, e).aborted
    ensures Aside(s, Next(j, s, e), w)
    ensures Finished(Next(j, s, e).tasks[w]) == Finished(s.tasks[w])
  {
    hide JobInv, LinkOk, BeginStore, PullData, PoolOk, TaskOk, EndStore;
    match e
    case TakeHeader(p, _, ks) => HeaderAside(j, s, p, w, ks);
    case TakeReply(_) =>
      LinkAt(j, s, w, s.tasks[w].phase.pool);
      ReplyIsOwn(j, s.tasks[w], w, s.pools[s.tasks[w].phase.pool], s.tasks[w].phase.pool,
                 s.links[Pair(w, s.tasks[w].phase.pool)], s.exits);
    case PostBlock(v) =>
    case TakeBlock(p) =>
  }

  /** Of the headers of w itself, t differs from s only in those for p. */
  ghost predicate Elsewhere(s: Sys, t: Sys, w: nat, p: nat) {
    |t.pools| == |s.pools| && forall q :: 0 <= q < |s.pools| && q != p ==> HeadersAside(s, t, w, q)
  }

  /** ... and not at all when it was in no call. */
  ghost predicate OnlyItsCall(s: Sys, t: Sys, w: nat) {
    w < |s.tasks| && if Busy(s, w) then Elsewhere(s, t, w, s.tasks[w].phase.pool) else t == s
  }

  lemma MoveElsewhere(j: Job, s: Sys, e: Event, w: nat, p: nat)
    requires ValidJob(j) && WellShaped(j, s) && Enabled(j, s, e) && w < |s.tasks|
    requires For(e, w) && (e.TakeHeader? ==> e.p == p)
    ensures Elsewhere(s, Next(j, s, e), w, p)
    ensures Busy(Next(j, s, e), w) ==> Busy(s, w) && Next(j, s, e).tasks[w].phase.pool == s.tasks[w].phase.pool
  {
    hide BeginStore, PullData, EndStore;
  }

  lemma OnlyItsCallThen(s: Sys, u: Sys, t: Sys, w: nat)
    requires Busy(s, w) && Elsewhere(s, u, w, s.tasks[w].phase.pool) && OnlyItsCall(u, t, w)
    requires Busy(u, w) ==> u.tasks[w].phase.pool == s.tasks[w].phase.pool
    ensures OnlyItsCall(s, t, w)
  {
    var p := s.tasks[w].phase.pool;
    forall q | 0 <= q < |s.pools| && q != p ensures HeadersAside(s, t, w, q) {
      assert HeadersAside(s, u, w, q);
      assert Busy(u, w) ==> HeadersAside(u, t, w, q);
    }
  }

  lemma ReplyIsOwn(j: Job, t: Task, w: nat, q: Pool, p: nat, k: Link, exits: nat)
    requires p < |j.pools| && LinkOk(j, t, w, q, p, k, exits)
    requires t.phase.Waiting? && t.phase.pool == p && k.replies != []
    ensures t.phase.offset in PM.Contents(t.log) && k.replies[0] == PM.Contents(t.log)[t.phase.offset]
  {
  }

  lemma InternalAborts(j: Job, s: Sys, e: Event)
    requires ValidJob(j) && JobInv(j, s) && WellShaped(j, s) && Enabled(j, s, e) && Internal(e) && Next(j, s, e).aborted
    ensures FillsUp(j, s, [e])
  {
    hide JobInv, Next;
    AbortsExactlyWhen(j, s, e);
  }

  /** Every call can be carried to its end, by moves made for it alone and needing no buffer:
      the worker is then as its own map says, or a full pool task has ended the job. */
  lemma {:induction false} CallReturns(j: Job, s: Sys, w: nat) returns (moves: seq<Event>, t: Sys)
    requires ValidJob(j) && JobInv(j, s) && WellShaped(j, s) && !s.aborted && w < |s.tasks|
    ensures Leads(j, s, moves, t) && AllFor(moves, w) && Synchronous(j, s, moves)
    ensures JobInv(j, t) && WellShaped(j, t)
    ensures if t.aborted then FillsUp(j, s, moves)
            else Aside(s, t, w) && t.tasks[w] == Finished(s.tasks[w]) && !Busy(t, w) && OnlyItsCall(s, t, w)
    decreases Work(s)
  {
    hide JobInv, WellShaped, Enabled, Next, Work, Finished, Aside, Matched, Elsewhere, OnlyItsCall;
    if !Busy(s, w) {
      moves, t := [], s;
      AsideItself(j, s, w);
      IdleIsFinished(s, w);
      NoCallOfItsOwn(s, w);
    } else {
      var e := BusyJobMoves(j, s, w);
      BusyBeforeExits(j, s, w);
      var s1 := Next(j, s, e);
      StepInv(j, s, e);
      JobShape(j, s1);
      if s1.aborted {
        moves, t := [e], s1;
        InternalAborts(j, s, e);
        assert [e] + [] == [e];
        LeadsCons(j, s, e, [], s1);
      } else {
        MoveAside(j, s, e, w);
        MoveElsewhere(j, s, e, w, s.tasks[w].phase.pool);
        InternalStepsShrinkWork(j, s, e);
        SameShape(s, s1, w);
        var rest;
        rest, t := CallReturns(j, s1, w);
        moves := [e] + rest;
        LeadsCons(j, s, e, rest, t);
        if !t.aborted {
          AsideThen(s, s1, t, w);
          OnlyItsCallThen(s, s1, t, w);
        }
      }
    }
  }

  lemma NoCallOfItsOwn(s: Sys, w: nat)
    requires w < |s.tasks| && !Busy(s, w)
    ensures OnlyItsCall(s, s, w)
  {
  }

  lemma SameShape(s: Sys, t: Sys, w: nat)
    requires Aside(s, t, w)
    ensures |t.tasks| == |s.tasks| && |t.pools| == |s.pools| && t.exits == s.exits
  {
  }

  lemma IdleIsFinished(s: Sys, w: nat)
    requires w < |s.tasks| && !Busy(s, w)
    ensures Finished(s.tasks[w]) == s.tasks[w]
  {
  }

  lemma BusyBeforeExits(j: Job, s: Sys, w: nat)
    requires ValidJob(j) && JobInv(j, s) && WellShaped(j, s) && Busy(s, w)
    ensures s.exits == 0
  {
    hide JobInv;
    LinkAt(j, s, w, 0);
  }

  // ---- draining ----

  /** The calls in a run, without the moves of messages. */
  function CallsIn(run: seq<Event>): seq<Event> {
    if run == [] then []
    else (if Internal(run[0]) then [] else [run[0]]) + CallsIn(run[1..])
  }

  lemma {:induction false} CallsAppend(a: seq<Event>, b: seq<Event>)
    ensures CallsIn(a + b) == CallsIn(a) + CallsIn(b)
  {
    if a == [] {
      assert a + b == b;
    } else {
      assert (a + b)[1..] == a[1..] + b;
      CallsAppend(a[1..], b);
    }
  }

  lemma {:induction false} NoCallsIn(moves: seq<Event>, w: nat)
    requires AllFor(moves, w)
    ensures CallsIn(moves) == []
  {
    if moves != [] {
      assert For(moves[0], w);
      forall i | 0 <= i < |moves| - 1 ensures For(moves[1..][i], w) { assert For(moves[i + 1], w); }
      NoCallsIn(moves[1..], w);
    }
  }

  function PopCalls(w: nat, n: nat): seq<Event> {
    if n == 0 then [] else [PopCall(w)] + PopCalls(w, n - 1)
  }

  /** One pop, from its call to its return. */
  lemma PopReturns(j: Job, s: Sys, w: nat) returns (run: seq<Event>, t: Sys)
    requires ValidJob(j) && JobInv(j, s) && WellShaped(j, s) && !s.aborted && w < |s.tasks|
    requires s.tasks[w].phase == Idle && s.tasks[w].w.rankMap != map[]
    ensures Leads(j, s, run, t) && JobInv(j, t) && WellShaped(j, t) && |t.tasks| == |s.tasks|
    ensures Synchronous(j, s, run) && CallsIn(run) == [PopCall(w)]
    ensures t.aborted ==> FillsUp(j, s, run)
    ensures !t.aborted ==> exists off, data ::
      && off in s.tasks[w].w.rankMap
      && t.tasks[w] == Task(s.tasks[w].w.(rankMap := s.tasks[w].w.rankMap - {off}), Idle,
                            s.tasks[w].log + [PM.Popped(off, data)])
  {
    hide JobInv, WellShaped, Work, Aside, LinkOk;
    var e := PopCall(w);
    JobShapeAt(j, s, w);
    var s1 := Next(j, s, e);
    StepInv(j, s, e);
    JobShape(j, s1);
    PopPosted(j, s, w);
    var moves;
    moves, t := CallReturns(j, s1, w);
    run := [e] + moves;
    LeadsCons(j, s, e, moves, t);
    NoCallsIn(moves, w);
    assert run[1..] == moves && [e] + [] == [e];
    ShapeOf(j, t);
    if !t.aborted {
      var off := s1.tasks[w].phase.offset;
      WaitingHolds(j, s1, w);
      assert t.tasks[w] == EndRead(s1.tasks[w], PM.Contents(s1.tasks[w].log)[off]);
    }
  }

  lemma ShapeOf(j: Job, s: Sys)
    requires WellShaped(j, s)
    ensures |s.tasks| == j.l.starting && |s.pools| == j.l.numOcore
  {
  }

  lemma JobShapeAt(j: Job, s: Sys, w: nat)
    requires ValidJob(j) && WellShaped(j, s) && !s.aborted && w < |s.tasks| && s.tasks[w].phase == Idle
    ensures Enabled(j, s, PopCall(w)) && |s.tasks| == j.l.starting
  {
  }

  lemma PopPosted(j: Job, s: Sys, w: nat)
    requires ValidJob(j) && WellShaped(j, s) && !s.aborted && w < |s.tasks|
    requires s.tasks[w].phase == Idle && s.tasks[w].w.rankMap != map[]
    ensures var u := Next(j, s, PopCall(w));
      && !u.aborted && |u.tasks| == |s.tasks|
      && u.tasks[w].phase.Waiting? && u.tasks[w].phase.pop && u.tasks[w].phase.offset in s.tasks[w].w.rankMap
      && u.tasks[w] == s.tasks[w].(phase := u.tasks[w].phase)
  {
  }

  lemma WaitingHolds(j: Job, s: Sys, w: nat)
    requires ValidJob(j) && JobInv(j, s) && WellShaped(j, s) && w < |s.tasks| && s.tasks[w].phase.Waiting?
    ensures s.tasks[w].phase.offset in PM.Contents(s.tasks[w].log)
  {
    hide JobInv, LinkOk;
    LinkAt(j, s, w, 0);
  }

  lemma {:induction false} DrainSteps(j: Job, s: Sys, w: nat) returns (run: seq<Event>, t: Sys, n: nat)
    requires ValidJob(j) && JobInv(j, s) && WellShaped(j, s) && !s.aborted && w < |s.tasks|
    requires s.tasks[w].phase == Idle
    ensures Leads(j, s, run, t) && JobInv(j, t) && WellShaped(j, t) && |t.tasks| == |s.tasks|
    ensures Synchronous(j, s, run) && CallsIn(run) == PopCalls(w, n) && n <= |s.tasks[w].w.rankMap|
    ensures t.aborted ==> FillsUp(j, s, run)
    ensures !t.aborted ==>
      && t.tasks[w].phase == Idle && t.tasks[w].w.rankMap == map[] && n == |s.tasks[w].w.rankMap|
      && s.tasks[w].log <= t.tasks[w].log && |t.tasks[w].log| == |s.tasks[w].log| + n
      && PM.AllPops(t.tasks[w].log[|s.tasks[w].log|..])
    decreases |s.tasks[w].w.rankMap|
  {
    hide JobInv, WellShaped, Enabled, Next;
    var m := s.tasks[w].w.rankMap;
    if m == map[] {
      run, t, n := [], s, 0;
    } else {
      var first, s1 := PopReturns(j, s, w);
      if s1.aborted {
        run, t, n := first, s1, 1;
        assert PopCalls(w, 1) == [PopCall(w)] + [] == [PopCall(w)];
        assert |m| > 0;
      } else {
        var off, data :| off in m && s1.tasks[w] == Task(s.tasks[w].w.(rankMap := m - {off}), Idle,
                                                        s.tasks[w].log + [PM.Popped(off, data)]);
        assert |m - {off}| == |m| - 1 by { assert m.Keys == (m - {off}).Keys + {off}; }
        var rest, k;
        rest, t, k := DrainSteps(j, s1, w);
        run, n := first + rest, k + 1;
        LeadsAppend(j, s, first, s1, rest, t);
        CallsAppend(first, rest);
        if !t.aborted { PopsAppend(s.tasks[w].log, PM.Popped(off, data), t.tasks[w].log); }
      }
    }
  }

  lemma PopsAppend(h: PM.History, o: PM.Obs, g: PM.History)
    requires o.Popped? && h + [o] <= g && PM.AllPops(g[|h| + 1..])
    ensures h <= g && PM.AllPops(g[|h|..])
  {
    assert g[..|h| + 1] == h + [o] && g[..|h|] == h;
    forall i | 0 <= i < |g| - |h| ensures g[|h|..][i].Popped? {
      assert i > 0 ==> g[|h|..][i] == g[|h| + 1..][i - 1];
    }
  }

  /** A drain terminates: in every run, a worker that is in no call and calls for a pop as
      often as it holds records can be carried to where its table is empty and the pops have
      returned each record once, lowest offset first, with its last written block; or a new
      record of some worker has found a pool task without room, and the job has ended. */
  lemma DrainTerminates(j: Job, es: seq<Event>, w: nat) returns (run: seq<Event>, t: Sys, n: nat)
    requires ValidJob(j) && After(j, es).Some? && !After(j, es).value.aborted && w < j.l.starting
    requires After(j, es).value.tasks[w].phase == Idle
    ensures After(j, es + run) == Some(t)
    ensures var h := After(j, es).value.tasks[w];
      && CallsIn(run) == PopCalls(w, n) && n <= |h.w.rankMap|
      && (t.aborted ==> FillsUp(j, After(j, es).value, run))
      && (!t.aborted ==>
            && n == |h.w.rankMap| && t.tasks[w].phase == Idle && t.tasks[w].w.rankMap == map[]
            && h.log <= t.tasks[w].log && PM.Returns(PM.Contents(h.log), t.tasks[w].log[|h.log|..]))
  {
    hide JobInv, Leads, PM.Returns, PM.AllPops;
    var s := After(j, es).value;
    run, t, n := DrainSteps(j, s, w);
    LeadsReach(j, es, run, t);
    if !t.aborted {
      var h, g := s.tasks[w], t.tasks[w].log;
      assert g[..|h.log|] == h.log;
      LinkAt(j, s, w, 0);
      NumActiveIsContents(j.l, h.w, h.log);
      DrainEmptiesTheTable(j, es + run, w, |h.log|);
    }
  }

  // ---- every drain ----

  /** Worker w makes no call but pops; the others, none. */
  predicate Draining(e: Event, w: nat) {
    Internal(e) || e == PopCall(w)
  }

  predicate AllDraining(run: seq<Event>, w: nat) {
    forall i :: 0 <= i < |run| ==> Draining(run[i], w)
  }

  predicate InDrain(s: Sys, w: nat) {
    w < |s.tasks| && (s.tasks[w].phase == Idle || (s.tasks[w].phase.Waiting? && s.tasks[w].phase.pop))
  }

  /** What is on its way, and three for each pop still to be called: its call, its header
      and its reply. */
  function Effort(s: Sys, w: nat): int
    requires w < |s.tasks|
  {
    Work(s) + 3 * (|s.tasks[w].w.rankMap| - if s.tasks[w].phase.Waiting? then 1 else 0)
  }

  predicate PoppedOn(s: Sys, t: Sys, w: nat) {
    && w < |s.tasks| && w < |t.tasks|
    && s.tasks[w].log <= t.tasks[w].log
    && |t.tasks[w].w.rankMap| + |t.tasks[w].log| == |s.tasks[w].w.rankMap| + |s.tasks[w].log|
    && forall i :: |s.tasks[w].log| <= i < |t.tasks[w].log| ==> t.tasks[w].log[i].Popped?
  }

  lemma PopEffort(j: Job, s: Sys, w: nat)
    requires ValidJob(j) && JobInv(j, s) && WellShaped(j, s) && Enabled(j, s, PopCall(w)) && InDrain(s, w)
    requires !Next(j, s, PopCall(w)).aborted
    ensures var u := Next(j, s, PopCall(w));
      && InDrain(u, w) && u.tasks[w].w == s.tasks[w].w && u.tasks[w].log == s.tasks[w].log
      && Effort(u, w) == Effort(s, w) - 1
  {
    hide JobInv, Work;
    PopPosted(j, s, w);
    var off := LowestKey(s.tasks[w].w.rankMap);
    var t := StartRead(j, s.tasks[w], off, true);
    var k := s.links[Pair(w, t.phase.pool)];
    SetTaskWork(s, w, t, t.phase.pool, k.(headers := k.headers + [ReadRequest(t.w.rankMap[off], off)]));
  }

  lemma MoveInDrain(j: Job, s: Sys, e: Event, w: nat)
    requires ValidJob(j) && JobInv(j, s) && WellShaped(j, s) && Enabled(j, s, e) && Internal(e) && InDrain(s, w)
    requires !Next(j, s, e).aborted
    ensures var u := Next(j, s, e);
      && InDrain(u, w)
      && (u.tasks[w] == s.tasks[w]
          || (s.tasks[w].phase.Waiting? && exists data :: u.tasks[w] == EndRead(s.tasks[w], data)))
  {
    hide JobInv, BeginStore, PullData, EndStore;
    match e
    case TakeReply(v) =>
      if v == w {
        assert Next(j, s, e).tasks[w] == EndRead(s.tasks[w], s.links[Pair(w, s.tasks[w].phase.pool)].replies[0]);
      }
    case _ =>
  }

  lemma PopShrinks(j: Job, s: Sys, w: nat, data: Bytes)
    requires ValidJob(j) && JobInv(j, s) && WellShaped(j, s) && w < |s.tasks|
    requires s.tasks[w].phase.Waiting? && s.tasks[w].phase.pop
    ensures var u := EndRead(s.tasks[w], data);
      && |u.w.rankMap| == |s.tasks[w].w.rankMap| - 1
      && |u.log| == |s.tasks[w].log| + 1 && s.tasks[w].log <= u.log && u.log[|u.log| - 1].Popped?
  {
    hide JobInv, LinkOk;
    LinkAt(j, s, w, 0);
    var m, off := s.tasks[w].w.rankMap, s.tasks[w].phase.offset;
    assert m.Keys == (m - {off}).Keys + {off};
  }

  lemma DrainStep(j: Job, s: Sys, e: Event, w: nat)
    requires ValidJob(j) && JobInv(j, s) && WellShaped(j, s) && Enabled(j, s, e) && Draining(e, w) && InDrain(s, w)
    requires !Next(j, s, e).aborted
    ensures InDrain(Next(j, s, e), w) && Effort(Next(j, s, e), w) < Effort(s, w) && PoppedOn(s, Next(j, s, e), w)
  {
    hide JobInv, WellShaped, Work, Next, Enabled;
    if e == PopCall(w) {
      PopEffort(j, s, w);
    } else {
      InternalStepsShrinkWork(j, s, e);
      MoveInDrain(j, s, e, w);
      var u := Next(j, s, e);
      if u.tasks[w] != s.tasks[w] {
        var data :| u.tasks[w] == EndRead(s.tasks[w], data);
        PopShrinks(j, s, w, data);
      }
    }
  }

  lemma PoppedOnTwice(s: Sys, u: Sys, t: Sys, w: nat)
    requires PoppedOn(s, u, w) && PoppedOn(u, t, w)
    ensures PoppedOn(s, t, w)
  {
    forall i | |s.tasks[w].log| <= i < |t.tasks[w].log| ensures t.tasks[w].log[i].Popped? {
      if i < |u.tasks[w].log| { assert t.tasks[w].log[i] == u.tasks[w].log[i]; }
    }
  }

  lemma {:induction false} DrainRun(j: Job, s: Sys, run: seq<Event>, t: Sys, w: nat)
    requires ValidJob(j) && JobInv(j, s) && WellShaped(j, s) && Leads(j, s, run, t) && !t.aborted
    requires AllDraining(run, w) && InDrain(s, w)
    ensures InDrain(t, w) && |run| + Effort(t, w) <= Effort(s, w) && PoppedOn(s, t, w)
    decreases |run|
  {
    hide JobInv, WellShaped, Next, Enabled, Work, InDrain;
    InDrainTask(s, w);
    if run != [] {
      var u := Next(j, s, run[0]);
      StepInv(j, s, run[0]);
      JobShape(j, u);
      AbortIsLast(j, u, run[1..], t);
      assert Draining(run[0], w);
      DrainStep(j, s, run[0], w);
      InDrainTask(u, w);
      forall i | 0 <= i < |run| - 1 ensures Draining(run[1..][i], w) { assert Draining(run[i + 1], w); }
      DrainRun(j, u, run[1..], t, w);
      InDrainTask(t, w);
      PoppedOnTwice(s, u, t, w);
    }
  }

  lemma InDrainTask(s: Sys, w: nat)
    requires InDrain(s, w)
    ensures w < |s.tasks|
  {
  }

  lemma AbortIsLast(j: Job, s: Sys, moves: seq<Event>, t: Sys)
    requires ValidJob(j) && JobInv(j, s) && WellShaped(j, s) && Leads(j, s, moves, t) && !t.aborted
    ensures !s.aborted
  {
  }

  /** No message can be moved and no pop called, but one too many. */
  ghost predicate Drained(j: Job, t: Sys, w: nat)
    requires ValidJob(j) && WellShaped(j, t)
  {
    forall e :: Draining(e, w) ==> !Enabled(j, t, e) || WorkerFault(j, t, e)
  }

  lemma DrainedIsEmpty(j: Job, t: Sys, w: nat)
    requires ValidJob(j) && JobInv(j, t) && WellShaped(j, t) && !t.aborted && InDrain(t, w) && Drained(j, t, w)
    ensures t.tasks[w].phase == Idle && t.tasks[w].w.rankMap == map[]
  {
    ShapeOf(j, t);
    hide JobInv, WellShaped, Enabled;
    forall e | Internal(e) ensures !Enabled(j, t, e) {
      assert Draining(e, w) && !WorkerFault(j, t, e);
    }
    QuietJobHasNoCalls(j, t);
    assert !Busy(t, w);
    JobShapeAt(j, t, w);
    assert Draining(PopCall(w), w);
  }

  lemma DrainedReturns(j: Job, s: Sys, t: Sys, w: nat)
    requires ValidJob(j) && JobInv(j, s) && WellShaped(j, s) && JobInv(j, t) && WellShaped(j, t)
    requires PoppedOn(s, t, w) && t.tasks[w].w.rankMap == map[]
    ensures PM.Returns(PM.Contents(s.tasks[w].log), t.tasks[w].log[|s.tasks[w].log|..])
  {
    hide JobInv, WellShaped, LinkOk, PM.Returns, PM.Contents, PM.Legal, PM.Owners, PM.Assigned;
    ShapeOf(j, s);
    ShapeOf(j, t);
    LinkAt(j, s, w, 0);
    LinkAt(j, t, w, 0);
    var h, g := s.tasks[w], t.tasks[w].log;
    assert g[..|h.log|] == h.log;
    NumActiveIsContents(j.l, h.w, h.log);
    forall i | 0 <= i < |g| - |h.log| ensures g[|h.log|..][i].Popped? { assert g[|h.log|..][i] == g[i + |h.log|]; }
    TaskDrained(j, t.tasks[w], w, |h.log|);
  }

  /** A drain ends under every schedule: in every run, from where worker w is in no call, a
      continuation in which nobody calls but w, and w only for pops, is at most as long as the
      work on its way and three for each record of w; and where it can go no further, short of
      one pop too many, the table is empty and the pops have returned each record once, lowest
      offset first, with its last written block. */
  lemma EveryDrainEnds(j: Job, es: seq<Event>, run: seq<Event>, w: nat)
    requires ValidJob(j) && After(j, es + run).Some? && !After(j, es + run).value.aborted
    requires After(j, es).Some? && w < j.l.starting && After(j, es).value.tasks[w].phase == Idle
    requires AllDraining(run, w)
    ensures var s, t := After(j, es).value, After(j, es + run).value;
      && |run| <= Work(s) + 3 * |s.tasks[w].w.rankMap|
      && (Drained(j, t, w) ==>
            && t.tasks[w].phase == Idle && t.tasks[w].w.rankMap == map[] && s.tasks[w].log <= t.tasks[w].log
            && PM.Returns(PM.Contents(s.tasks[w].log), t.tasks[w].log[|s.tasks[w].log|..]))
  {
    hide JobInv, Leads, PM.Returns, PM.Contents, After, Drained, Work, AllDraining;
    AfterLeads(j, es, run);
    var s, t := After(j, es).value, After(j, es + run).value;
    assert InDrain(s, w);
    hide WellShaped;
    DrainRun(j, s, run, t, w);
    EffortLeft(j, t, w);
    if Drained(j, t, w) {
      DrainedIsEmpty(j, t, w);
      DrainedReturns(j, s, t, w);
    }
  }

  lemma EffortLeft(j: Job, t: Sys, w: nat)
    requires ValidJob(j) && JobInv(j, t) && WellShaped(j, t) && InDrain(t, w)
    ensures Effort(t, w) >= 0
  {
    hide JobInv, LinkOk, Work;
    LinkAt(j, t, w, 0);
    if t.tasks[w].phase.Waiting? { assert t.tasks[w].phase.offset in t.tasks[w].w.rankMap.Keys; }
  }
}
