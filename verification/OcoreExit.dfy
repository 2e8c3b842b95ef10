/** What Finalize promises about writes: everything the master wrote has been stored before a
    pool task stops, and nothing of the kind for any other worker whose last call there was a
    write. */
module OcoreExit {
  import opened Wrappers
  import opened ScratchFile
  import opened Protocol
  import opened PoolSpec
  import opened PoolRuns
  import opened WorkerTask
  import opened OcoreSystem
  import opened OcoreInvariant
  import opened OcoreSteps
  import opened OcoreTheorems
  import opened OcorePairing
  import opened OcoreLiveness
  import opened OcoreCalls
  import PM = PrivateMap

  // ------------------------------------------------------------------------------
  // From anywhere to a stopped pool task
  // ------------------------------------------------------------------------------

  ghost predicate Calm(s: Sys, n: nat) {
    forall v :: 0 <= v < |s.tasks| && v < n ==> !Busy(s, v)
  }

  predicate HeadersKept(s: Sys, t: Sys, w: nat, p: nat) {
    && Pair(w, p) in s.links && Pair(w, p) in t.links
    && t.links[Pair(w, p)].headers == s.links[Pair(w, p)].headers
  }

  lemma CalmAside(s: Sys, t: Sys, v: nat, n: nat)
    requires Aside(s, t, v) && Calm(s, n) && n <= v
    ensures Calm(t, n)
  {
    forall u | 0 <= u < |t.tasks| && u < n ensures !Busy(t, u) {
      assert TaskAside(s, t, u) && !Busy(s, u);
    }
  }

  /** Every call of the first n workers returns, and worker w, who is in none, and its headers
      for p are left alone. */
  lemma {:induction false} AllCallsReturn(j: Job, s: Sys, n: nat, w: nat, p: nat) returns (moves: seq<Event>, t: Sys)
    requires ValidJob(j) && JobInv(j, s) && WellShaped(j, s) && !s.aborted && n <= |s.tasks|
    requires w < |s.tasks| && p < |s.pools| && s.tasks[w].phase == Idle
    ensures Leads(j, s, moves, t) && JobInv(j, t) && WellShaped(j, t) && CallsIn(moves) == []
    ensures t.aborted ==> FillsUp(j, s, moves)
    ensures !t.aborted ==> Calm(t, n) && |t.tasks| == |s.tasks| && t.tasks[w] == s.tasks[w] && HeadersKept(s, t, w, p)
  {
    hide JobInv, WellShaped, Enabled, Next, Aside, Finished, Calm, HeadersKept;
    if n == 0 {
      moves, t := [], s;
      KeptItself(j, s, w, p);
    } else {
      moves, t := AllCallsReturn(j, s, n - 1, w, p);
      if !t.aborted {
        ShapeOf(j, s);
        ShapeOf(j, t);
        if n - 1 == w {
          CalmNext(t, n);
        } else {
          var u := t;
          var more;
          more, t := CallReturns(j, u, n - 1);
          NoCallsIn(more, n - 1);
          CallsAppend(moves, more);
          LeadsAppend(j, s, moves, u, more, t);
          moves := moves + more;
          if !t.aborted {
            CalmAside(u, t, n - 1, n - 1);
            CalmNext(t, n);
            KeptAside(s, u, t, n - 1, w, p);
          }
        }
      }
    }
  }

  lemma KeptItself(j: Job, s: Sys, w: nat, p: nat)
    requires WellShaped(j, s) && w < |s.tasks| && p < |s.pools|
    ensures Calm(s, 0) && HeadersKept(s, s, w, p)
  {
  }

  lemma CalmNext(s: Sys, n: nat)
    requires n > 0 && Calm(s, n - 1) && !Busy(s, n - 1)
    ensures Calm(s, n)
  {
  }

  lemma KeptAside(s: Sys, u: Sys, t: Sys, v: nat, w: nat, p: nat)
    requires HeadersKept(s, u, w, p) && Aside(u, t, v) && v != w
    requires w < |u.tasks| && p < |u.pools| && u.tasks[w].phase == Idle
    ensures HeadersKept(s, t, w, p) && t.tasks[w] == u.tasks[w] && |t.tasks| == |u.tasks|
  {
    assert TaskAside(u, t, w) && HeadersAside(u, t, w, p);
  }

  /** Workers in no call can all finalize. */
  lemma {:induction false} AllFinalize(j: Job, s: Sys, n: nat) returns (moves: seq<Event>, t: Sys)
    requires ValidJob(j) && JobInv(j, s) && WellShaped(j, s) && !s.aborted && n <= |s.tasks| && Calm(s, |s.tasks|)
    ensures Leads(j, s, moves, t) && JobInv(j, t) && WellShaped(j, t) && !t.aborted
    ensures forall i :: 0 <= i < |moves| ==> moves[i].FinalizeCall?
    ensures |t.tasks| == |s.tasks| && t.links == s.links && t.pools == s.pools && t.exits == s.exits
    ensures forall v :: 0 <= v < |s.tasks| ==>
      t.tasks[v] == if v < n then s.tasks[v].(phase := Finalizing) else s.tasks[v]
  {
    hide JobInv, WellShaped, Leads;
    if n == 0 {
      moves, t := [], s;
      LeadsNowhere(j, s);
    } else {
      var before, u := AllFinalize(j, s, n - 1);
      assert !Busy(s, n - 1);
      if u.tasks[n - 1].phase == Finalizing {
        moves, t := before, u;
      } else {
        var e := FinalizeCall(n - 1);
        t := Next(j, u, e);
        StepInv(j, u, e);
        JobShape(j, t);
        OneMove(j, u, e);
        LeadsAppend(j, s, before, u, [e], t);
        moves := before + [e];
      }
    }
  }

  lemma LeadsNowhere(j: Job, s: Sys)
    requires ValidJob(j)
    ensures Leads(j, s, [], s)
  {
  }

  lemma OneMove(j: Job, s: Sys, e: Event)
    requires ValidJob(j) && JobInv(j, s) && WellShaped(j, s) && Enabled(j, s, e)
    ensures Leads(j, s, [e], Next(j, s, e))
  {
    hide JobInv, WellShaped, Enabled, Next;
    assert [e][1..] == [];
  }

  /** The master can send exit headers up to pool task n. */
  lemma {:induction false} ExitsGoOut(j: Job, s: Sys, n: nat, w: nat, p: nat) returns (moves: seq<Event>, t: Sys)
    requires ValidJob(j) && JobInv(j, s) && WellShaped(j, s) && !s.aborted && AllFinalizing(s)
    requires s.exits <= n <= |s.pools| && 0 < w < |s.tasks| && p < |s.pools|
    ensures Leads(j, s, moves, t) && JobInv(j, t) && WellShaped(j, t) && !t.aborted && AllFinalizing(t)
    ensures forall i :: 0 <= i < |moves| ==> moves[i].PostExit?
    ensures t.tasks == s.tasks && t.pools == s.pools && t.exits == n && HeadersKept(s, t, w, p)
    decreases n
  {
    hide JobInv, WellShaped, Leads;
    if n == s.exits {
      moves, t := [], s;
      LeadsNowhere(j, s);
      KeptItself(j, s, w, p);
    } else {
      var before, u := ExitsGoOut(j, s, n - 1, w, p);
      t := Next(j, u, PostExit);
      StepInv(j, u, PostExit);
      JobShape(j, t);
      OneMove(j, u, PostExit);
      LeadsAppend(j, s, before, u, [PostExit], t);
      moves := before + [PostExit];
    }
  }

  lemma ExitIsComing(j: Job, s: Sys, p: nat)
    requires ValidJob(j) && JobInv(j, s) && WellShaped(j, s) && AllFinalizing(s)
    requires p < s.exits && p < |s.pools| && !s.pools[p].exited
    ensures s.links[Pair(0, p)].headers != []
  {
    hide JobInv;
    LinkAt(j, s, 0, p);
  }

  lemma ServingKeeps(j: Job, s: Sys, e: Event, w: nat, p: nat)
    requires ValidJob(j) && WellShaped(j, s) && Enabled(j, s, e) && 0 < w < |s.tasks| && p < |s.pools|
    requires e == TakeBlock(p) || (e.TakeHeader? && e.p == p && e.w == 0)
    ensures Next(j, s, e).tasks == s.tasks && Next(j, s, e).exits == s.exits && HeadersKept(s, Next(j, s, e), w, p)
    ensures |Next(j, s, e).pools| == |s.pools|
  {
    hide BeginStore, PullData, EndStore;
  }

  /** A pool task serves the master's headers until the exit header comes. */
  lemma {:induction false} ServesUntilExit(j: Job, s: Sys, w: nat, p: nat) returns (moves: seq<Event>, t: Sys)
    requires ValidJob(j) && JobInv(j, s) && WellShaped(j, s) && !s.aborted && AllFinalizing(s)
    requires p < |s.pools| && p < s.exits && 0 < w < |s.tasks|
    ensures Leads(j, s, moves, t) && JobInv(j, t) && WellShaped(j, t) && CallsIn(moves) == []
    ensures t.aborted ==> FillsUp(j, s, moves)
    ensures !t.aborted ==>
      p < |t.pools| && t.pools[p].exited && t.tasks == s.tasks && HeadersKept(s, t, w, p)
    decreases Work(s)
  {
    hide JobInv, WellShaped, Enabled, Next, Work, HeadersKept;
    if s.pools[p].exited {
      moves, t := [], s;
      KeptItself(j, s, w, p);
    } else {
      var e: Event;
      if s.pools[p].pending.Some? {
        e := PendingMoves(j, s, p);
        NobodySends(j, s, e);
      } else {
        ExitIsComing(j, s, p);
        e := CanTakeHeader(j, s, p, 0);
      }
      var u := Next(j, s, e);
      StepInv(j, s, e);
      JobShape(j, u);
      ServingKeeps(j, s, e, w, p);
      assert [e] + [] == [e] && [e][1..] == [];
      if u.aborted {
        moves, t := [e], u;
        InternalAborts(j, s, e);
        OneMove(j, s, e);
      } else {
        InternalStepsShrinkWork(j, s, e);
        var rest;
        rest, t := ServesUntilExit(j, u, w, p);
        moves := [e] + rest;
        assert moves[1..] == rest;
        LeadsCons(j, s, e, rest, t);
        if !t.aborted { KeptTwice(s, u, t, w, p); }
      }
    }
  }

  lemma NobodySends(j: Job, s: Sys, e: Event)
    requires WellShaped(j, s) && AllFinalizing(s) && Enabled(j, s, e)
    ensures !e.PostBlock?
  {
  }

  lemma KeptTwice(s: Sys, u: Sys, t: Sys, w: nat, p: nat)
    requires HeadersKept(s, u, w, p) && HeadersKept(u, t, w, p)
    ensures HeadersKept(s, t, w, p)
  {
  }

  // ------------------------------------------------------------------------------
  // A last write may stay unread
  // ------------------------------------------------------------------------------

  /** No worker starts a call; each may finalize. */
  predicate NoNewCalls(moves: seq<Event>) {
    forall i :: 0 <= i < |moves| ==> Internal(moves[i]) || moves[i].FinalizeCall? || moves[i].PostExit?
  }

  lemma {:induction false} NoCallsAreInternal(moves: seq<Event>)
    requires CallsIn(moves) == []
    ensures NoNewCalls(moves)
  {
    if moves != [] {
      NoCallsAreInternal(moves[1..]);
      forall i | 0 <= i < |moves| ensures Internal(moves[i]) || moves[i].FinalizeCall? || moves[i].PostExit? {
        if i > 0 { assert moves[i] == moves[1..][i - 1]; }
      }
    }
  }

  /** From a state in which worker w, not the master, is in no call, p can be brought to stop
      with all the headers of w for it as they are. */
  lemma StopsUnread(j: Job, s: Sys, w: nat, p: nat) returns (moves: seq<Event>, t: Sys)
    requires ValidJob(j) && JobInv(j, s) && WellShaped(j, s) && !s.aborted
    requires 0 < w < |s.tasks| && p < |s.pools| && s.tasks[w].phase == Idle
    ensures Leads(j, s, moves, t) && JobInv(j, t) && WellShaped(j, t) && NoNewCalls(moves)
    ensures t.aborted ==> FillsUp(j, s, moves)
    ensures !t.aborted ==>
      && |t.tasks| == |s.tasks| && p < |t.pools| && t.pools[p].exited && AllFinalizing(t)
      && t.tasks[w] == s.tasks[w].(phase := Finalizing) && HeadersKept(s, t, w, p)
  {
    hide JobInv, WellShaped, HeadersKept, Leads, FillsUp, CallsIn;
    ShapeOf(j, s);
    var a, s1 := AllCallsReturn(j, s, |s.tasks|, w, p);
    NoCallsAreInternal(a);
    if s1.aborted {
      return a, s1;
    }
    ShapeOf(j, s1);
    var b, s2 := AllFinalize(j, s1, |s1.tasks|);
    LeadsAppend(j, s, a, s1, b, s2);
    NoExitsBefore(j, s1, w);
    assert AllFinalizing(s2);
    var c, s3 := ExitsGoOut(j, s2, p + 1, w, p);
    LeadsAppend(j, s, a + b, s2, c, s3);
    ShapeOf(j, s3);
    var d;
    d, t := ServesUntilExit(j, s3, w, p);
    LeadsAppend(j, s, a + b + c, s3, d, t);
    NoCallsAreInternal(d);
    moves := a + b + c + d;
    if !t.aborted {
      KeptLinks(s, s1, s2, w, p);
      KeptTwice(s, s2, s3, w, p);
      KeptTwice(s, s3, t, w, p);
    }
  }

  /** Worker w is in no call and none of its writes to p waits to be read. */
  predicate Spent(s: Sys, w: nat, p: nat) {
    && w < |s.tasks| && p < |s.pools| && Pair(w, p) in s.links
    && (s.tasks[w].phase == Idle || s.tasks[w].phase == Finalizing)
    && WriteOffsets(s.links[Pair(w, p)].headers) == []
  }

  lemma HeaderSpent(j: Job, s: Sys, i: nat, v: nat, ks: seq<SparseKey>, w: nat, p: nat)
    requires ValidJob(j) && WellShaped(j, s) && Enabled(j, s, TakeHeader(i, v, ks)) && Spent(s, w, p)
    ensures Spent(Next(j, s, TakeHeader(i, v, ks)), w, p)
  {
    hide WriteOffsets, BeginStore, PullData;
    if i == p && v == w { WriteOffsetsPop(s.links[Pair(w, p)].headers); }
  }

  lemma SpentStep(j: Job, s: Sys, e: Event, w: nat, p: nat)
    requires ValidJob(j) && WellShaped(j, s) && Enabled(j, s, e) && Spent(s, w, p)
    requires Internal(e) || e.FinalizeCall? || e.PostExit?
    ensures Spent(Next(j, s, e), w, p)
  {
    hide WriteOffsets, ServeHeader, EndStore;
    match e
    case TakeHeader(i, v, ks) => HeaderSpent(j, s, i, v, ks, w, p);
    case PostExit =>
      WriteOffsetsPush(s.links[Pair(w, p)].headers, Exit);
      assert WriteOffsets(s.links[Pair(w, p)].headers) + [] == WriteOffsets(s.links[Pair(w, p)].headers);
    case _ =>
  }

  lemma {:induction false} SpentRun(j: Job, s: Sys, moves: seq<Event>, t: Sys, w: nat, p: nat)
    requires ValidJob(j) && Leads(j, s, moves, t) && NoNewCalls(moves) && Spent(s, w, p)
    ensures Spent(t, w, p)
    decreases |moves|
  {
    hide JobInv, WellShaped, Enabled, Next, Spent;
    if moves != [] {
      SpentStep(j, s, moves[0], w, p);
      forall i | 0 <= i < |moves| - 1
        ensures Internal(moves[1..][i]) || moves[1..][i].FinalizeCall? || moves[1..][i].PostExit?
      {
        assert moves[1..][i] == moves[i + 1];
      }
      SpentRun(j, Next(j, s, moves[0]), moves[1..], t, w, p);
    }
  }

  /** The run es can go on without any new call until p has stopped with writes of w for it
      still on their way. */
  ghost predicate StopsLosing(j: Job, es: seq<Event>, w: nat, p: nat, more: seq<Event>)
    requires ValidJob(j) && w < j.l.starting && p < j.l.numOcore
  {
    && After(j, es + more).Some? && NoNewCalls(more)
    && var t := After(j, es + more).value;
       !t.aborted && t.pools[p].exited && OnTheirWay(t.tasks[w], w, t.pools[p], p, t.links[Pair(w, p)]) != []
  }

  ghost predicate CanLose(j: Job, es: seq<Event>, w: nat, p: nat)
    requires ValidJob(j) && w < j.l.starting && p < j.l.numOcore
  {
    exists more :: StopsLosing(j, es, w, p, more)
  }

  /** ... or until a full pool task ends the job. */
  ghost predicate CanFillUp(j: Job, s: Sys)
    requires ValidJob(j)
  {
    exists more :: NoNewCalls(more) && FillsUp(j, s, more)
  }

  ghost predicate AllCanOverflow(j: Job) {
    forall p :: 0 <= p < |j.pools| ==> CanOverflow(j.pools[p])
  }

  lemma {:induction false} FullMeansNoOverflow(j: Job, s: Sys, moves: seq<Event>)
    requires ValidJob(j) && FillsUp(j, s, moves)
    ensures !AllCanOverflow(j)
    decreases |moves|
  {
    hide JobInv, Next, CanOverflow;
    if |moves| > 1 { FullMeansNoOverflow(j, Next(j, s, moves[0]), moves[1..]); }
  }

  lemma UnreadIsOnTheWay(j: Job, s: Sys, w: nat, p: nat)
    requires ValidJob(j) && JobInv(j, s) && WellShaped(j, s) && w < |s.tasks| && p < |s.pools|
    requires WriteOffsets(s.links[Pair(w, p)].headers) != []
    ensures OnTheirWay(s.tasks[w], w, s.pools[p], p, s.links[Pair(w, p)]) != []
  {
    hide JobInv, LinkOk, WriteOffsets;
    LinkAt(j, s, w, p);
    SameLengths(j, s.tasks[w], w, s.pools[p], p, s.links[Pair(w, p)], s.exits);
  }

  lemma SpentIsStored(j: Job, t: Sys, w: nat, p: nat)
    requires ValidJob(j) && JobInv(j, t) && WellShaped(j, t) && Spent(t, w, p) && t.pools[p].exited
    ensures OnTheirWay(t.tasks[w], w, t.pools[p], p, t.links[Pair(w, p)]) == []
  {
    hide JobInv, LinkOk, WriteOffsets, TaskOk;
    LinkAt(j, t, w, p);
  }

  lemma NothingToLose(j: Job, es: seq<Event>, w: nat, p: nat, more: seq<Event>)
    requires ValidJob(j) && After(j, es).Some? && w < j.l.starting && p < j.l.numOcore
    requires After(j, es).value.tasks[w].phase == Idle
    requires WriteOffsets(After(j, es).value.links[Pair(w, p)].headers) == []
    ensures !StopsLosing(j, es, w, p, more)
  {
    hide After, JobInv, Leads, WriteOffsets;
    if After(j, es + more).Some? && NoNewCalls(more) {
      AfterLeads(j, es, more);
      SpentRun(j, After(j, es).value, more, After(j, es + more).value, w, p);
      if After(j, es + more).value.pools[p].exited { SpentIsStored(j, After(j, es + more).value, w, p); }
    }
  }

  lemma SomethingToLose(j: Job, es: seq<Event>, w: nat, p: nat)
    requires ValidJob(j) && After(j, es).Some? && 0 < w < j.l.starting && p < j.l.numOcore
    requires !After(j, es).value.aborted && After(j, es).value.tasks[w].phase == Idle
    requires WriteOffsets(After(j, es).value.links[Pair(w, p)].headers) != []
    ensures CanLose(j, es, w, p) || CanFillUp(j, After(j, es).value)
  {
    hide After, JobInv, Leads, WriteOffsets, FillsUp, HeadersKept, NoNewCalls, OnTheirWay;
    var more, t := StopsUnread(j, After(j, es).value, w, p);
    LeadsReach(j, es, more, t);
    ShapeOf(j, t);
    if !t.aborted {
      KeptHeaders(After(j, es).value, t, w, p);
      UnreadIsOnTheWay(j, t, w, p);
      assert StopsLosing(j, es, w, p, more);
    }
  }

  /** In every run, for a worker other than the master that is in no call and every pool task:
      where each pool can overflow, the job can go on without any new call to where the pool
      task has stopped and writes of the worker are lost, exactly when a write of the worker
      is unread. Where one cannot, the job may end before; nothing else changes. */
  lemma WritesLostExactlyWhenUnread(j: Job, es: seq<Event>, w: nat, p: nat)
    requires ValidJob(j) && After(j, es).Some? && 0 < w < j.l.starting && p < j.l.numOcore
    requires !After(j, es).value.aborted && After(j, es).value.tasks[w].phase == Idle
    ensures var s := After(j, es).value;
      var unread := WriteOffsets(s.links[Pair(w, p)].headers) != [];
      && (CanLose(j, es, w, p) ==> unread)
      && (unread ==> CanLose(j, es, w, p) || CanFillUp(j, s))
      && (AllCanOverflow(j) ==> (CanLose(j, es, w, p) <==> unread))
  {
    hide After, JobInv, WriteOffsets, StopsLosing, FillsUp, AllCanOverflow, NoNewCalls;
    var s := After(j, es).value;
    if WriteOffsets(s.links[Pair(w, p)].headers) == [] {
      forall more ensures !StopsLosing(j, es, w, p, more) { NothingToLose(j, es, w, p, more); }
    } else {
      SomethingToLose(j, es, w, p);
    }
    if CanFillUp(j, s) {
      var more :| NoNewCalls(more) && FillsUp(j, s, more);
      FullMeansNoOverflow(j, s, more);
    }
  }

  lemma KeptLinks(s: Sys, u: Sys, t: Sys, w: nat, p: nat)
    requires HeadersKept(s, u, w, p) && t.links == u.links
    ensures HeadersKept(s, t, w, p)
  {
  }

  lemma NoExitsBefore(j: Job, s: Sys, w: nat)
    requires ValidJob(j) && JobInv(j, s) && WellShaped(j, s) && w < |s.tasks| && s.tasks[w].phase == Idle
    ensures s.exits == 0
  {
    hide JobInv;
    LinkAt(j, s, w, 0);
  }

  /** u is s after a write of w has returned; it went to p. */
  ghost predicate Posted(j: Job, s: Sys, w: nat, off: nat, data: Bytes, u: Sys, p: nat)
    requires ValidJob(j)
  {
    && Leads(j, s, [WriteCall(w, off, data), PostBlock(w)], u) && JobInv(j, u) && WellShaped(j, u) && !u.aborted
    && w < |s.tasks| == |u.tasks| && p < |s.pools| == |u.pools| && Pair(w, p) in s.links && Pair(w, p) in u.links
    && u.tasks[w].phase == Idle && u.tasks[w].log == s.tasks[w].log + [PM.Wrote(off, data)]
    && u.links[Pair(w, p)].headers == s.links[Pair(w, p)].headers + [WriteHeader(j.l, s.tasks[w].w, off)]
    && WriteHeader(j.l, s.tasks[w].w, off).dest == PoolRank(j, p)
    && u.tasks == s.tasks[w := u.tasks[w]] && Elsewhere(s, u, w, p)
  }

  lemma WritePosted(j: Job, s: Sys, w: nat, off: nat, data: Bytes) returns (u: Sys, p: nat)
    requires ValidJob(j) && JobInv(j, s) && WellShaped(j, s) && Enabled(j, s, WriteCall(w, off, data))
    ensures Posted(j, s, w, off, data, u, p)
  {
    hide JobInv;
    var e, f := WriteCall(w, off, data), PostBlock(w);
    SettledOwner(j, s.tasks[w].w, off);
    var s1 := Next(j, s, e);
    StepInv(j, s, e);
    JobShape(j, s1);
    p := s1.tasks[w].phase.pool;
    u := Next(j, s1, f);
    StepInv(j, s1, f);
    JobShape(j, u);
    OneMove(j, s1, f);
    assert [e] + [f] == [e, f];
    LeadsCons(j, s, e, [f], u);
  }

  /** What the pool task has not read of w's writes, the last of them this one. */
  predicate LastUnread(j: Job, t: Sys, w: nat, p: nat, off: nat, data: Bytes) {
    && w < |t.tasks| && p < |t.pools| && Pair(w, p) in t.links
    && var k := t.links[Pair(w, p)];
       && k.headers != [] && IsWrite(k.headers[|k.headers| - 1]) && k.headers[|k.headers| - 1].offset == off
       && k.payloads != [] && k.payloads[|k.payloads| - 1] == data
  }

  lemma LastOnTheWay(j: Job, es: seq<Event>, w: nat, p: nat, off: nat, data: Bytes, hs: seq<Header>, h: Header)
    requires ValidJob(j) && After(j, es).Some? && w < j.l.starting && p < j.l.numOcore
    requires var t := After(j, es).value;
      && t.tasks[w].phase == Finalizing && t.tasks[w].log != []
      && t.tasks[w].log[|t.tasks[w].log| - 1] == PM.Wrote(off, data)
      && t.links[Pair(w, p)].headers == hs + [h] && IsWrite(h) && h.dest == PoolRank(j, p) && h.offset == off
    requires PM.Owners(j.l, After(j, es).value.tasks[w].log)[off] == PoolRank(j, p)
    ensures LastUnread(j, After(j, es).value, w, p, off, data)
  {
    hide JobInv, After, LinkOk, PM.Owners;
    var t := After(j, es).value;
    var q, k := t.pools[p], t.links[Pair(w, p)];
    LinkAt(j, t, w, p);
    SameLengths(j, t.tasks[w], w, q, p, k, t.exits);
    WriteOffsetsPush(hs, h);
    HeadersMeetTheirBlocks(j, es, w, p);
    var offs := Offsets(q, w, k);
    var front := InProgress(q, w) + WriteOffsets(hs);
    assert offs == front + [off];
    var n := |k.payloads| - 1;
    assert k.payloads == k.payloads[..n] + [k.payloads[n]] && Blocks(t.tasks[w], p, k) == k.payloads;
    ZipPush(front, k.payloads[..n], off, k.payloads[n]);
    var g := t.tasks[w].log[..|t.tasks[w].log| - 1];
    assert t.tasks[w].log == g + [PM.Wrote(off, data)];
    IssuedGrows(j.l, g, PM.Wrote(off, data), PoolRank(j, p));
    LastOf(StoredIn(j, es, w, p), Zip(front, k.payloads[..n]), Written(off, k.payloads[n]),
           Issued(j.l, g, PoolRank(j, p)), Written(off, data));
  }

  lemma LastOf<T>(a: seq<T>, b: seq<T>, x: T, c: seq<T>, y: T)
    requires a + (b + [x]) == c + [y]
    ensures x == y
  {
    assert (a + (b + [x]))[|a| + |b|] == x && (c + [y])[|c|] == y;
  }

  /** The run es goes on with a write of w to p and then, without any new call, through `more`
      to a state in which p has stopped with header and block of that write unread; or a full
      pool task ends the job before. */
  ghost predicate EndsUnread(j: Job, es: seq<Event>, w: nat, off: nat, data: Bytes, more: seq<Event>, t: Sys, p: nat)
    requires ValidJob(j) && After(j, es).Some? && w < j.l.starting
  {
    var s, start := After(j, es).value, [WriteCall(w, off, data), PostBlock(w)];
    && After(j, es + start + more) == Some(t) && NoNewCalls(more)
    && p < j.l.numOcore && PM.Owners(j.l, s.tasks[w].log + [PM.Wrote(off, data)])[off] == PoolRank(j, p)
    && if t.aborted then FillsUp(j, s, start + more)
       else t.pools[p].exited && AllFinalizing(t) && LastUnread(j, t, w, p, off, data)
  }

  /** Wherever a run has got to, when a worker other than the master writes once more and makes
      no further call, the job can go on by moving messages and finalizing alone until that
      write is lost. */
  lemma LastWriteMayStayUnread(j: Job, es: seq<Event>, w: nat, off: nat, data: Bytes)
      returns (more: seq<Event>, t: Sys, p: nat)
    requires ValidJob(j) && After(j, es).Some? && 0 < w < j.l.starting
    requires Enabled(j, After(j, es).value, WriteCall(w, off, data))
    ensures EndsUnread(j, es, w, off, data, more, t, p)
  {
    hide JobInv, After, Leads, FillsUp, Next, HeadersKept, PM.Owners, Enabled;
    var s := After(j, es).value;
    var u: Sys;
    u, p := WritePosted(j, s, w, off, data);
    var start := [WriteCall(w, off, data), PostBlock(w)];
    WrittenOwner(j, s, w, off, data, p);
    more, t := StopsUnread(j, u, w, p);
    LeadsAppend(j, s, start, u, more, t);
    LeadsReach(j, es, start + more, t);
    assert es + start + more == es + (start + more);
    ShapeOf(j, t);
    if !t.aborted {
      KeptHeaders(u, t, w, p);
      LastOnTheWay(j, es + start + more, w, p, off, data, s.links[Pair(w, p)].headers,
                   WriteHeader(j.l, s.tasks[w].w, off));
    }
  }

  lemma KeptHeaders(s: Sys, t: Sys, w: nat, p: nat)
    requires HeadersKept(s, t, w, p)
    ensures Pair(w, p) in s.links && Pair(w, p) in t.links
    ensures t.links[Pair(w, p)].headers == s.links[Pair(w, p)].headers
  {
  }

  lemma WrittenOwner(j: Job, s: Sys, w: nat, off: nat, data: Bytes, p: nat)
    requires ValidJob(j) && JobInv(j, s) && WellShaped(j, s) && w < |s.tasks| && p < |s.pools|
    requires WriteHeader(j.l, s.tasks[w].w, off).dest == PoolRank(j, p)
    ensures PM.Owners(j.l, s.tasks[w].log + [PM.Wrote(off, data)])[off] == PoolRank(j, p)
    ensures IsWrite(WriteHeader(j.l, s.tasks[w].w, off)) && WriteHeader(j.l, s.tasks[w].w, off).offset == off
  {
    hide JobInv, LinkOk;
    LinkAt(j, s, w, 0);
    WriteTracks(j.l, s.tasks[w].w, s.tasks[w].log, off, data);
  }

  // ------------------------------------------------------------------------------
  // Whose writes are guaranteed
  // ------------------------------------------------------------------------------

  /** Once p has stopped nothing w wrote to it is still on its way. */
  ghost predicate Delivered(j: Job, es: seq<Event>, w: nat, p: nat)
    requires ValidJob(j) && w < j.l.starting
  {
    After(j, es).Some? && p < j.l.numOcore && After(j, es).value.pools[p].exited ==>
      var s := After(j, es).value;
      OnTheirWay(s.tasks[w], w, s.pools[p], p, s.links[Pair(w, p)]) == []
  }

  lemma MasterDelivered(j: Job, es: seq<Event>, p: nat)
    requires ValidJob(j)
    ensures Delivered(j, es, 0, p)
  {
    hide After, JobInv;
    if After(j, es).Some? && p < j.l.numOcore && After(j, es).value.pools[p].exited {
      LinkAt(j, After(j, es).value, 0, p);
    }
  }

  /** With nothing from the master on its way the first exit header is read first. */
  lemma StopsAtOnce(j: Job, s: Sys, w: nat) returns (moves: seq<Event>, t: Sys)
    requires ValidJob(j) && JobInv(j, s) && WellShaped(j, s) && !s.aborted && AllFinalizing(s) && s.exits == 0
    requires |s.pools| > 0 && |s.tasks| > 0 && s.links[Pair(0, 0)].headers == [] && s.pools[0].pending == None
    requires !s.pools[0].exited
    ensures Leads(j, s, moves, t) && !t.aborted && |t.pools| == |s.pools|
    ensures t.pools[0] == s.pools[0].(exited := true) && t.tasks == s.tasks
    ensures w != 0 && Pair(w, 0) in s.links ==> Pair(w, 0) in t.links && t.links[Pair(w, 0)] == s.links[Pair(w, 0)]
  {
    hide JobInv;
    var s1 := Next(j, s, PostExit);
    StepInv(j, s, PostExit);
    JobShape(j, s1);
    var e := TakeHeader(0, 0, []);
    t := Next(j, s1, e);
    OneMove(j, s, PostExit);
    OneMove(j, s1, e);
    moves := [PostExit] + [e];
    LeadsAppend(j, s, [PostExit], s1, [e], t);
  }

  /** The first write of a new job, by a worker other than the master. */
  lemma FirstWrite(j: Job, w: nat, b: Bytes) returns (u: Sys)
    requires ValidJob(j) && 0 < w < j.l.starting && |b| == j.block
    ensures Leads(j, Start(j), [WriteCall(w, 0, b), PostBlock(w)], u)
    ensures JobInv(j, u) && WellShaped(j, u) && !u.aborted && u.exits == 0 && u.pools == Start(j).pools
    ensures |u.tasks| == j.l.starting && Calm(u, |u.tasks|)
    ensures u.tasks[w].log == [PM.Wrote(0, b)] && Pair(0, 0) in u.links && u.links[Pair(0, 0)].headers == []
    ensures Pair(w, 0) in u.links && u.links[Pair(w, 0)] == Link([WriteNew(PoolRank(j, 0), 0)], [b], [])
  {
    hide JobInv;
    var s, e, f := Start(j), WriteCall(w, 0, b), PostBlock(w);
    StartInv(j);
    JobShape(j, s);
    var s1 := Next(j, s, e);
    StepInv(j, s, e);
    JobShape(j, s1);
    FirstHeader(j, w, b);
    u := Next(j, s1, f);
    StepInv(j, s1, f);
    JobShape(j, u);
    OneMove(j, s1, f);
    assert [e] + [f] == [e, f];
    LeadsCons(j, s, e, [f], u);
  }

  lemma FirstHeader(j: Job, w: nat, b: Bytes)
    requires ValidJob(j) && 0 < w < j.l.starting && |b| == j.block
    requires WellShaped(j, Start(j)) && Enabled(j, Start(j), WriteCall(w, 0, b))
    ensures WriteHeader(j.l, FRESH, 0) == WriteNew(PoolRank(j, 0), 0)
    ensures var u := Next(j, Start(j), WriteCall(w, 0, b));
      && !u.aborted && u.exits == 0 && u.pools == Start(j).pools && |u.tasks| == j.l.starting
      && (forall v :: 0 <= v < |u.tasks| && v != w ==> u.tasks[v] == Task(FRESH, Idle, []))
      && u.tasks[w].phase == Sending(0, b) && u.tasks[w].log == [PM.Wrote(0, b)]
      && Pair(0, 0) in u.links && u.links[Pair(0, 0)] == Link([], [], [])
      && Pair(w, 0) in u.links && u.links[Pair(w, 0)] == Link([WriteNew(PoolRank(j, 0), 0)], [], [])
  {
    assert Start(j).links[Pair(0, 0)] == Link([], [], []) && Start(j).links[Pair(w, 0)] == Link([], [], []);
  }

  /** For every job and every worker but the master there is a run in which a pool task stops
      while the worker's write, long since sent, is still unread. */
  lemma ExitMayOvertakeAWrite(j: Job, w: nat, b: Bytes) returns (es: seq<Event>)
    requires ValidJob(j) && 0 < w < j.l.starting && |b| == j.block
    ensures After(j, es).Some? && !After(j, es).value.aborted
    ensures var s := After(j, es).value;
      && s.pools[0].exited && s.tasks[w].phase == Finalizing && s.tasks[w].log == [PM.Wrote(0, b)]
      && SparseKey(w, 0) !in s.pools[0].store.smap && s.links[Pair(w, 0)].payloads == [b]
      && OnTheirWay(s.tasks[w], w, s.pools[0], 0, s.links[Pair(w, 0)]) == [Written(0, b)]
  {
    hide JobInv, WellShaped, Leads, Start, After, Calm, WriteOffsets, OnTheirWay;
    StartFacts(j);
    var u := FirstWrite(j, w, b);
    var first := [WriteCall(w, 0, b), PostBlock(w)];
    var more, t := StopsWithIt(j, u, w);
    LeadsAppend(j, Start(j), first, u, more, t);
    es := first + more;
    LeadsReach(j, [], es, t);
    assert [] + es == es;
    OneHeader(PoolRank(j, 0));
    OneOnTheWay(t.tasks[w], w, t.pools[0], 0, t.links[Pair(w, 0)], b);
  }

  lemma StartFacts(j: Job)
    requires ValidJob(j)
    ensures After(j, []) == Some(Start(j))
    ensures |Start(j).pools| > 0 && Start(j).pools[0] == Pool(Init(j.pools[0]), None, false)
  {
  }

  lemma OneHeader(r: nat)
    ensures WriteOffsets([WriteNew(r, 0)]) == [0]
  {
    WriteOffsetsPush([], WriteNew(r, 0));
    assert [] + [WriteNew(r, 0)] == [WriteNew(r, 0)] && [] + [0] == [0];
  }

  /** Everyone finalizes and pool task 0 reads the exit header. */
  lemma StopsWithIt(j: Job, s: Sys, w: nat) returns (moves: seq<Event>, t: Sys)
    requires ValidJob(j) && JobInv(j, s) && WellShaped(j, s) && !s.aborted && s.exits == 0 && Calm(s, |s.tasks|)
    requires 0 < w < |s.tasks| && |s.pools| > 0 && s.pools[0].pending == None && !s.pools[0].exited
    requires Pair(0, 0) in s.links && s.links[Pair(0, 0)].headers == [] && Pair(w, 0) in s.links
    ensures Leads(j, s, moves, t) && !t.aborted
    ensures |t.tasks| == |s.tasks| && t.tasks[w] == s.tasks[w].(phase := Finalizing)
    ensures |t.pools| == |s.pools| && t.pools[0] == s.pools[0].(exited := true)
    ensures Pair(w, 0) in t.links && t.links[Pair(w, 0)] == s.links[Pair(w, 0)]
  {
    hide JobInv, WellShaped, Leads, Calm;
    var before, u := AllFinalize(j, s, |s.tasks|);
    assert AllFinalizing(u);
    var end;
    end, t := StopsAtOnce(j, u, w);
    LeadsAppend(j, s, before, u, end, t);
    moves := before + end;
  }

  lemma OneOnTheWay(t: Task, w: nat, q: Pool, p: nat, k: Link, b: Bytes)
    requires t.phase == Finalizing && q.pending == None && k.payloads == [b] && WriteOffsets(k.headers) == [0]
    ensures OnTheirWay(t, w, q, p, k) == [Written(0, b)]
  {
    ZipPush([], [], 0, b);
    assert [] + [0] == [0] && [] + [b] == [b] && [b] + [] == [b] && [] + [Written(0, b)] == [Written(0, b)];
  }

  /** That all writes of a worker have been stored by a pool task that has stopped is
      guaranteed, in every run, exactly for the master. */
  lemma DeliveryGuaranteedExactlyForMaster(j: Job, w: nat)
    requires ValidJob(j) && w < j.l.starting
    ensures (forall es, p :: Delivered(j, es, w, p)) <==> w == 0
  {
    hide After, JobInv;
    if w == 0 {
      forall es, p ensures Delivered(j, es, w, p) { MasterDelivered(j, es, p); }
    } else {
      var es := ExitMayOvertakeAWrite(j, w, Zeros(j.block));
      assert !Delivered(j, es, w, 0);
    }
  }
}
