/** Which histories the workers of a job can have: exactly those of private maps, in any
    combination. And after which of them writes can still be lost. */
module OcoreHistories {
  import opened Wrappers
  import opened ScratchFile
  import opened Protocol
  import opened PoolSpec
  import opened PoolRuns
  import opened WorkerTask
  import opened OcoreSystem
  import opened OcoreInvariant
  import opened OcoreSteps
  import opened OcoreTheorems
  import opened OcoreLiveness
  import opened OcoreCalls
  import opened OcoreExit
  import opened OcoreChannels
  import PM = PrivateMap

  ghost predicate AllIdle(s: Sys) {
    forall v :: 0 <= v < |s.tasks| ==> s.tasks[v].phase == Idle
  }

  /** Where the last call of w that reached p was a write, a write of w is unread there. */
  ghost predicate LeftUnread(j: Job, s: Sys, w: nat, p: nat) {
    && w < |s.tasks| && p < |s.pools| && Pair(w, p) in s.links
    && (WroteLast(j.l, s.tasks[w].log, PoolRank(j, p)) ==> WriteOffsets(s.links[Pair(w, p)].headers) != [])
  }

  /** What a worker may be given back in state s, and blocks of the size all tasks share. */
  predicate MayCall(j: Job, s: Sys, w: nat, o: PM.Obs) {
    && w < |s.tasks| && w < |j.emptyOk|
    && PM.LegalCall(Zeros(j.block), j.emptyOk[w], PM.Contents(s.tasks[w].log), o)
    && (o.Wrote? ==> |o.data| == j.block)
  }

  /** From s the run makes this one call, whole, and leaves all other workers alone. */
  ghost predicate CallMade(j: Job, s: Sys, w: nat, o: PM.Obs, run: seq<Event>, t: Sys, p: nat)
    requires ValidJob(j)
  {
    && Leads(j, s, run, t) && JobInv(j, t) && WellShaped(j, t) && !t.aborted
    && AllIdle(t) && w < |s.tasks| == |t.tasks| && t.tasks == s.tasks[w := t.tasks[w]]
    && t.tasks[w].log == s.tasks[w].log + [o]
    && (LeftUnread(j, s, w, p) ==> LeftUnread(j, t, w, p))
  }

  lemma WriteMade(j: Job, s: Sys, w: nat, off: nat, data: Bytes, p: nat) returns (run: seq<Event>, t: Sys)
    requires ValidJob(j) && JobInv(j, s) && WellShaped(j, s) && !s.aborted && AllIdle(s) && w < |s.tasks|
    requires |data| == j.block
    ensures CallMade(j, s, w, PM.Wrote(off, data), run, t, p)
  {
    hide JobInv, Leads, WroteLast, WriteOffsets, PM.Owners, LinkOk;
    var q;
    t, q := WritePosted(j, s, w, off, data);
    run := [WriteCall(w, off, data), PostBlock(w)];
    WrittenOwner(j, s, w, off, data, q);
    WroteLastGrows(j.l, s.tasks[w].log, PM.Wrote(off, data), PoolRank(j, p));
    if p < |s.pools| {
      if p == q {
        WriteOffsetsPush(s.links[Pair(w, p)].headers, WriteHeader(j.l, s.tasks[w].w, off));
      } else {
        assert HeadersAside(s, t, w, p);
      }
    }
  }

  lemma BlankMade(j: Job, s: Sys, w: nat, off: nat, p: nat) returns (run: seq<Event>, t: Sys)
    requires ValidJob(j) && JobInv(j, s) && WellShaped(j, s) && !s.aborted && AllIdle(s) && w < |s.tasks|
    requires off !in s.tasks[w].w.rankMap && j.emptyOk[w]
    ensures CallMade(j, s, w, PM.Got(off, Zeros(j.block)), run, t, p)
  {
    hide JobInv, Leads, WroteLast, WriteOffsets, PM.Owners, LinkOk;
    var e := ReadCall(w, off);
    t := Next(j, s, e);
    run := [e];
    StepInv(j, s, e);
    JobShape(j, t);
    OneMove(j, s, e);
    LinkAt(j, s, w, 0);
    WroteLastGrows(j.l, s.tasks[w].log, PM.Got(off, Zeros(j.block)), PoolRank(j, p));
  }

  /** The call that returns o when it is a read or pop. */
  function Asking(w: nat, o: PM.Obs): Event {
    if o.Popped? then PopCall(w) else ReadCall(w, o.offset)
  }

  /** s1 is s with the request for o sent. */
  ghost predicate Asked(j: Job, s: Sys, w: nat, o: PM.Obs, s1: Sys) {
    && w < |s.tasks| == |s1.tasks| && |s1.pools| == |s.pools| && !s1.aborted
    && s1.tasks == s.tasks[w := s1.tasks[w]] && o.offset in s.tasks[w].w.rankMap
    && s1.tasks[w].phase.Waiting?
    && PoolRank(j, s1.tasks[w].phase.pool) == s.tasks[w].w.rankMap[o.offset]
    && s1.tasks[w] == s.tasks[w].(phase := Waiting(s1.tasks[w].phase.pool, o.offset, o.Popped?))
    && Elsewhere(s, s1, w, s1.tasks[w].phase.pool)
  }

  lemma RequestSent(j: Job, s: Sys, w: nat, o: PM.Obs)
    requires ValidJob(j) && JobInv(j, s) && WellShaped(j, s) && !s.aborted && AllIdle(s) && MayCall(j, s, w, o)
    requires !o.Wrote? && o.offset in s.tasks[w].w.rankMap
    ensures Enabled(j, s, Asking(w, o)) && Asked(j, s, w, o, Next(j, s, Asking(w, o)))
  {
    hide JobInv, LinkOk, PM.Owners, PM.Legal;
    LinkAt(j, s, w, 0);
  }

  lemma CallReturned(j: Job, s: Sys, w: nat, o: PM.Obs, s1: Sys, t: Sys, p: nat)
    requires ValidJob(j) && JobInv(j, s) && WellShaped(j, s) && AllIdle(s) && MayCall(j, s, w, o)
    requires !o.Wrote? && Asked(j, s, w, o, s1) && WellShaped(j, t)
    requires Aside(s1, t, w) && t.tasks[w] == Finished(s1.tasks[w]) && OnlyItsCall(s1, t, w)
    ensures AllIdle(t) && |t.tasks| == |s.tasks| && t.tasks == s.tasks[w := t.tasks[w]]
    ensures t.tasks[w].log == s.tasks[w].log + [o]
    ensures LeftUnread(j, s, w, p) ==> LeftUnread(j, t, w, p)
  {
    hide JobInv, LinkOk, PM.Owners, PM.Legal, WroteLast, WriteOffsets;
    LinkAt(j, s, w, 0);
    forall v | 0 <= v < |s.tasks| && v != w ensures t.tasks[v] == s.tasks[v] {
      assert TaskAside(s1, t, v);
    }
    WroteLastGrows(j.l, s.tasks[w].log, o, PoolRank(j, p));
    if p < |s.pools| && p != s1.tasks[w].phase.pool {
      assert HeadersAside(s, s1, w, p) && HeadersAside(s1, t, w, p);
    }
  }

  lemma ReadMade(j: Job, s: Sys, w: nat, o: PM.Obs, p: nat) returns (run: seq<Event>, t: Sys)
    requires ValidJob(j) && JobInv(j, s) && WellShaped(j, s) && !s.aborted && AllIdle(s) && MayCall(j, s, w, o)
    requires !o.Wrote? && o.offset in s.tasks[w].w.rankMap && AllCanOverflow(j)
    ensures CallMade(j, s, w, o, run, t, p)
  {
    hide JobInv, Leads, WroteLast, WriteOffsets, PM.Owners, LinkOk, AllIdle, MayCall, Next, Enabled, Aside, Finished,
         OnlyItsCall, FillsUp, WellShaped, AllCanOverflow, LeftUnread;
    RequestSent(j, s, w, o);
    var e := Asking(w, o);
    var s1 := Next(j, s, e);
    StepInv(j, s, e);
    JobShape(j, s1);
    var moves;
    moves, t := CallReturns(j, s1, w);
    if t.aborted { FullMeansNoOverflow(j, s1, moves); }
    LeadsCons(j, s, e, moves, t);
    run := [e] + moves;
    CallReturned(j, s, w, o, s1, t, p);
  }

  /** Any call a private map allows can be made, whole. */
  lemma LegalCallMade(j: Job, s: Sys, w: nat, o: PM.Obs, p: nat) returns (run: seq<Event>, t: Sys)
    requires ValidJob(j) && JobInv(j, s) && WellShaped(j, s) && !s.aborted && AllIdle(s) && MayCall(j, s, w, o)
    requires AllCanOverflow(j)
    ensures CallMade(j, s, w, o, run, t, p)
  {
    hide JobInv, CallMade, LinkOk, AllCanOverflow, PM.Legal, PM.Owners;
    LinkAt(j, s, w, 0);
    if o.Wrote? {
      run, t := WriteMade(j, s, w, o.offset, o.data, p);
    } else if o.offset in s.tasks[w].w.rankMap {
      run, t := ReadMade(j, s, w, o, p);
    } else {
      run, t := BlankMade(j, s, w, o.offset, p);
    }
  }

  // ------------------------------------------------------------------------------
  // Whole histories
  // ------------------------------------------------------------------------------

  /** Blocks of the one size of the job. */
  predicate FullWrites(j: Job, h: PM.History) {
    forall i :: 0 <= i < |h| && h[i].Wrote? ==> |h[i].data| == j.block
  }

  /** What a private map of full blocks can return. */
  predicate IsHistory(j: Job, w: nat, h: PM.History) {
    w < |j.emptyOk| && PM.Legal(Zeros(j.block), j.emptyOk[w], h) && FullWrites(j, h)
  }

  /** From s worker w, with an empty history so far, lives through h, the others stand by. */
  ghost predicate LivedThrough(j: Job, s: Sys, w: nat, h: PM.History, run: seq<Event>, t: Sys, p: nat)
    requires ValidJob(j)
  {
    && Leads(j, s, run, t) && JobInv(j, t) && WellShaped(j, t) && !t.aborted
    && AllIdle(t) && w < |s.tasks| == |t.tasks| && t.tasks == s.tasks[w := t.tasks[w]]
    && t.tasks[w].log == h
    && (LeftUnread(j, s, w, p) ==> LeftUnread(j, t, w, p))
  }

  lemma {:induction false} HistoryLived(j: Job, s: Sys, w: nat, h: PM.History, p: nat) returns (run: seq<Event>, t: Sys)
    requires ValidJob(j) && JobInv(j, s) && WellShaped(j, s) && !s.aborted && AllIdle(s)
    requires w < |s.tasks| && s.tasks[w].log == [] && IsHistory(j, w, h) && AllCanOverflow(j)
    ensures LivedThrough(j, s, w, h, run, t, p)
    decreases |h|
  {
    hide JobInv, WellShaped, Leads, AllIdle, AllCanOverflow, LeftUnread, PM.LegalCall, PM.Contents;
    if h == [] {
      run, t := [], s;
      LeadsNowhere(j, s);
    } else {
      var g, o := h[..|h| - 1], h[|h| - 1];
      var before, u := HistoryLived(j, s, w, g, p);
      var more;
      more, t := LegalCallMade(j, u, w, o, p);
      LeadsAppend(j, s, before, u, more, t);
      run := before + more;
      assert h == g + [o];
    }
  }

  lemma FullStep(j: Job, s: Sys, e: Event, w: nat)
    requires ValidJob(j) && WellShaped(j, s) && Enabled(j, s, e) && w < |s.tasks| && FullWrites(j, s.tasks[w].log)
    ensures w < |Next(j, s, e).tasks| && FullWrites(j, Next(j, s, e).tasks[w].log)
  {
    hide BeginStore, PullData, EndStore;
  }

  lemma {:induction false} RunIsFull(j: Job, es: seq<Event>, w: nat)
    requires ValidJob(j) && After(j, es).Some? && w < j.l.starting
    ensures FullWrites(j, After(j, es).value.tasks[w].log)
  {
    if es != [] {
      hide JobInv, Next, Enabled, FullWrites;
      var n := |es| - 1;
      RunIsFull(j, es[..n], w);
      FullStep(j, After(j, es[..n]).value, es[n], w);
    }
  }

  /** The reads of a history that found the offset unwritten. */
  function BlankReads(h: PM.History): nat {
    if h == [] then 0
    else
      var g, o := h[..|h| - 1], h[|h| - 1];
      BlankReads(g) + if o.Got? && o.offset !in PM.Contents(g) then 1 else 0
  }

  lemma BlankReadsGrow(h: PM.History, o: PM.Obs)
    ensures BlankReads(h + [o]) == BlankReads(h) + if o.Got? && o.offset !in PM.Contents(h) then 1 else 0
  {
    assert (h + [o])[..|h|] == h;
  }

  lemma BlankStep(j: Job, s: Sys, e: Event, w: nat)
    requires ValidJob(j) && JobInv(j, s) && WellShaped(j, s) && Enabled(j, s, e) && w < |s.tasks|
    requires s.tasks[w].w.emptyReads == BlankReads(s.tasks[w].log)
    ensures w < |Next(j, s, e).tasks|
    ensures Next(j, s, e).tasks[w].w.emptyReads == BlankReads(Next(j, s, e).tasks[w].log)
  {
    hide JobInv, LinkOk, BeginStore, PullData, EndStore, BlankReads, PM.Contents, PM.Owners, PM.Legal;
    LinkAt(j, s, w, 0);
    var h := s.tasks[w].log;
    match e
    case WriteCall(_, off, data) => BlankReadsGrow(h, PM.Wrote(off, data));
    case ReadCall(_, off) => BlankReadsGrow(h, PM.Got(off, Zeros(j.block)));
    case TakeReply(v) =>
      if v == w {
        var data := s.links[Pair(w, s.tasks[w].phase.pool)].replies[0];
        BlankReadsGrow(h, PM.Got(s.tasks[w].phase.offset, data));
        BlankReadsGrow(h, PM.Popped(s.tasks[w].phase.offset, data));
      }
    case _ =>
  }

  /** In every run a worker has counted as empty exactly its reads of offsets it did not hold. */
  lemma {:induction false} EmptyReadsCounted(j: Job, es: seq<Event>, w: nat)
    requires ValidJob(j) && After(j, es).Some? && w < j.l.starting
    ensures After(j, es).value.tasks[w].w.emptyReads == BlankReads(After(j, es).value.tasks[w].log)
  {
    if es != [] {
      hide JobInv, Next, Enabled, BlankReads;
      var n := |es| - 1;
      EmptyReadsCounted(j, es[..n], w);
      BlankStep(j, After(j, es[..n]).value, es[n], w);
    } else {
      assert BlankReads([]) == 0;
    }
  }

  /** In every run the calls each worker has completed, the write it is in included, are such
      a history. */
  lemma RunIsHistory(j: Job, es: seq<Event>, w: nat)
    requires ValidJob(j) && After(j, es).Some? && w < j.l.starting
    ensures IsHistory(j, w, After(j, es).value.tasks[w].log)
  {
    hide After, JobInv, LinkOk, FullWrites, PM.Legal, PM.Owners;
    RunIsFull(j, es, w);
    LinkAt(j, After(j, es).value, w, 0);
  }

  /** After es no worker is in a call, and these are their histories. */
  ghost predicate Lives(j: Job, es: seq<Event>, hs: seq<PM.History>)
    requires ValidJob(j)
  {
    && After(j, es).Some? && !After(j, es).value.aborted && AllIdle(After(j, es).value)
    && |hs| == j.l.starting && forall w :: 0 <= w < |hs| ==> After(j, es).value.tasks[w].log == hs[w]
  }

  /** s is a state in which the first n workers have lived through theirs and the others not
      begun. */
  ghost predicate FirstLived(j: Job, s: Sys, hs: seq<PM.History>, n: nat)
    requires ValidJob(j)
  {
    && JobInv(j, s) && WellShaped(j, s) && !s.aborted && AllIdle(s) && |s.tasks| == |hs| && n <= |hs|
    && forall w :: 0 <= w < |hs| ==> s.tasks[w].log == if w < n then hs[w] else []
  }

  lemma NobodyHasLived(j: Job, hs: seq<PM.History>)
    requires ValidJob(j) && |hs| == j.l.starting
    ensures FirstLived(j, Start(j), hs, 0)
  {
    StartInv(j);
    JobShape(j, Start(j));
  }

  lemma {:induction false} EachLives(j: Job, hs: seq<PM.History>, n: nat) returns (run: seq<Event>, t: Sys)
    requires ValidJob(j) && AllCanOverflow(j) && n <= |hs| == j.l.starting
    requires forall w :: 0 <= w < |hs| ==> IsHistory(j, w, hs[w])
    ensures Leads(j, Start(j), run, t) && FirstLived(j, t, hs, n)
  {
    hide JobInv, WellShaped, Leads, Start, AllIdle, AllCanOverflow, LeftUnread, IsHistory;
    if n == 0 {
      run, t := [], Start(j);
      LeadsNowhere(j, t);
      NobodyHasLived(j, hs);
    } else {
      var before, u := EachLives(j, hs, n - 1);
      var more;
      more, t := HistoryLived(j, u, n - 1, hs[n - 1], 0);
      LeadsAppend(j, Start(j), before, u, more, t);
      run := before + more;
    }
  }

  lemma HistoriesCanBeLived(j: Job, hs: seq<PM.History>) returns (es: seq<Event>)
    requires ValidJob(j) && AllCanOverflow(j) && |hs| == j.l.starting
    requires forall w :: 0 <= w < |hs| ==> IsHistory(j, w, hs[w])
    ensures Lives(j, es, hs)
  {
    hide JobInv, WellShaped, Leads, Start, After, AllIdle, AllCanOverflow, IsHistory;
    var t: Sys;
    es, t := EachLives(j, hs, |hs|);
    StartFacts(j);
    LeadsReach(j, [], es, t);
    assert [] + es == es;
  }

  /** Where every pool can overflow, the histories that the workers of a job can have together
      are exactly those of private maps, one for each: no history of one worker rules out one
      of another, and every answer a private map allows is given in some run. */
  lemma HistoriesAreExactly(j: Job, hs: seq<PM.History>)
    requires ValidJob(j) && AllCanOverflow(j) && |hs| == j.l.starting
    ensures (exists es :: Lives(j, es, hs)) <==> forall w :: 0 <= w < |hs| ==> IsHistory(j, w, hs[w])
  {
    hide JobInv, After, AllIdle, AllCanOverflow, IsHistory;
    if forall w :: 0 <= w < |hs| ==> IsHistory(j, w, hs[w]) {
      var es := HistoriesCanBeLived(j, hs);
    }
    if es :| Lives(j, es, hs) {
      forall w | 0 <= w < |hs| ensures IsHistory(j, w, hs[w]) { RunIsHistory(j, es, w); }
    }
  }

  // ------------------------------------------------------------------------------
  // After which histories a write can be lost
  // ------------------------------------------------------------------------------

  /** After es worker w is in no call and has this history, and the job can go on without any
      new call until p has stopped without its last writes. */
  ghost predicate Loses(j: Job, es: seq<Event>, w: nat, h: PM.History, p: nat)
    requires ValidJob(j) && w < j.l.starting && p < j.l.numOcore
  {
    && After(j, es).Some? && !After(j, es).value.aborted
    && After(j, es).value.tasks[w].phase == Idle && After(j, es).value.tasks[w].log == h
    && CanLose(j, es, w, p)
  }

  lemma LostWasWritten(j: Job, es: seq<Event>, w: nat, h: PM.History, p: nat)
    requires ValidJob(j) && 0 < w < j.l.starting && p < j.l.numOcore && Loses(j, es, w, h, p)
    ensures WroteLast(j.l, h, PoolRank(j, p))
  {
    hide JobInv, After, CanLose, WroteLast, WriteOffsets, CanFillUp;
    WritesLostExactlyWhenUnread(j, es, w, p);
    RunQuiet(j, es, w, p);
  }

  lemma NothingLeftAtStart(j: Job, w: nat, p: nat)
    requires ValidJob(j) && w < j.l.starting && p < j.l.numOcore
    ensures JobInv(j, Start(j)) && WellShaped(j, Start(j)) && !Start(j).aborted && AllIdle(Start(j))
    ensures |Start(j).tasks| == j.l.starting && Start(j).tasks[w].log == []
    ensures LeftUnread(j, Start(j), w, p)
  {
    StartInv(j);
    JobShape(j, Start(j));
  }

  lemma WrittenIsLost(j: Job, w: nat, h: PM.History, p: nat) returns (es: seq<Event>)
    requires ValidJob(j) && AllCanOverflow(j) && 0 < w < j.l.starting && p < j.l.numOcore && IsHistory(j, w, h)
    requires WroteLast(j.l, h, PoolRank(j, p))
    ensures Loses(j, es, w, h, p)
  {
    hide JobInv, WellShaped, Leads, Start, After, CanLose, WroteLast, WriteOffsets, CanFillUp, IsHistory,
         AllCanOverflow;
    NothingLeftAtStart(j, w, p);
    var t: Sys;
    es, t := HistoryLived(j, Start(j), w, h, p);
    StartFacts(j);
    LeadsReach(j, [], es, t);
    assert [] + es == es;
    WritesLostExactlyWhenUnread(j, es, w, p);
  }

  /** Where every pool can overflow, and for every history a worker other than the master may
      have: some run in which it has that history, and is in no call, can lose a write of it
      at a pool task exactly when the last of its calls that reached that pool task was a
      write. */
  lemma {:induction false} WritesLostExactlyWhenLast(j: Job, w: nat, h: PM.History, p: nat)
    requires ValidJob(j) && AllCanOverflow(j) && 0 < w < j.l.starting && p < j.l.numOcore && IsHistory(j, w, h)
    ensures (exists es :: Loses(j, es, w, h, p)) <==> WroteLast(j.l, h, PoolRank(j, p))
  {
    hide JobInv, After, CanLose, WroteLast, AllCanOverflow, IsHistory;
    if WroteLast(j.l, h, PoolRank(j, p)) {
      var es := WrittenIsLost(j, w, h, p);
    }
    if es :| Loses(j, es, w, h, p) {
      LostWasWritten(j, es, w, h, p);
    }
  }
}
