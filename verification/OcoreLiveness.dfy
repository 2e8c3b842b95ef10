/** Messages on their way can be moved only so often, and when none can be moved any more,
    no worker is inside a call. */
module OcoreLiveness {
  import opened Wrappers
  import opened ScratchFile
  import opened Protocol
  import opened PoolSpec
  import opened PoolRuns
  import opened WorkerTask
  import opened OcoreSystem
  import opened OcoreInvariant
  import opened OcoreSteps
  import opened OcoreTheorems

  // ---- how much is on its way ----

  function LinkWork(m: map<Pair, Link>, w: nat, p: nat): nat {
    if Pair(w, p) in m then 2 * |m[Pair(w, p)].headers| + |m[Pair(w, p)].payloads| + |m[Pair(w, p)].replies| else 0
  }

  function RowWork(m: map<Pair, Link>, w: nat, n: nat): nat {
    if n == 0 then 0 else RowWork(m, w, n - 1) + LinkWork(m, w, n - 1)
  }

  function LinksWork(m: map<Pair, Link>, rows: nat, n: nat): nat {
    if rows == 0 then 0 else LinksWork(m, rows - 1, n) + RowWork(m, rows - 1, n)
  }

  function TasksWork(ts: seq<Task>): nat {
    if ts == [] then 0 else TasksWork(ts[..|ts| - 1]) + if ts[|ts| - 1].phase.Sending? then 2 else 0
  }

  function PoolsWork(qs: seq<Pool>): nat {
    if qs == [] then 0 else PoolsWork(qs[..|qs| - 1]) + if qs[|qs| - 1].pending.Some? then 1 else 0
  }

  function Work(s: Sys): nat {
    LinksWork(s.links, |s.tasks|, |s.pools|) + TasksWork(s.tasks) + PoolsWork(s.pools)
  }

  lemma {:induction false} RowWorkSet(m: map<Pair, Link>, w: nat, n: nat, v: nat, p: nat, k: Link)
    ensures RowWork(m[Pair(v, p) := k], w, n) ==
            RowWork(m, w, n) + if v == w && p < n then LinkWork(m[Pair(v, p) := k], v, p) - LinkWork(m, v, p) else 0
  {
    if n > 0 { RowWorkSet(m, w, n - 1, v, p, k); }
  }

  lemma {:induction false} LinksWorkSet(m: map<Pair, Link>, rows: nat, n: nat, v: nat, p: nat, k: Link)
    requires p < n
    ensures LinksWork(m[Pair(v, p) := k], rows, n) ==
            LinksWork(m, rows, n) + if v < rows then LinkWork(m[Pair(v, p) := k], v, p) - LinkWork(m, v, p) else 0
  {
    if rows > 0 {
      LinksWorkSet(m, rows - 1, n, v, p, k);
      RowWorkSet(m, rows - 1, n, v, p, k);
    }
  }

  lemma {:induction false} TasksWorkSet(ts: seq<Task>, w: nat, t: Task)
    requires w < |ts|
    ensures TasksWork(ts[w := t]) ==
            TasksWork(ts) + (if t.phase.Sending? then 2 else 0) - (if ts[w].phase.Sending? then 2 else 0)
  {
    var n := |ts| - 1;
    if w < n {
      TasksWorkSet(ts[..n], w, t);
      assert ts[w := t][..n] == ts[..n][w := t];
    } else {
      assert ts[w := t][..n] == ts[..n];
    }
  }

  lemma {:induction false} PoolsWorkSet(qs: seq<Pool>, p: nat, q: Pool)
    requires p < |qs|
    ensures PoolsWork(qs[p := q]) ==
            PoolsWork(qs) + (if q.pending.Some? then 1 else 0) - (if qs[p].pending.Some? then 1 else 0)
  {
    var n := |qs| - 1;
    if p < n {
      PoolsWorkSet(qs[..n], p, q);
      assert qs[p := q][..n] == qs[..n][p := q];
    } else {
      assert qs[p := q][..n] == qs[..n];
    }
  }

  lemma SetTaskWork(s: Sys, w: nat, t: Task, p: nat, k: Link)
    requires w < |s.tasks| && p < |s.pools| && Pair(w, p) in s.links
    ensures var was := s.links[Pair(w, p)];
      Work(SetTask(s, w, t, p, k)) == Work(s)
        + (2 * |k.headers| + |k.payloads| + |k.replies|) - (2 * |was.headers| + |was.payloads| + |was.replies|)
        + (if t.phase.Sending? then 2 else 0) - (if s.tasks[w].phase.Sending? then 2 else 0)
  {
    LinksWorkSet(s.links, |s.tasks|, |s.pools|, w, p, k);
    TasksWorkSet(s.tasks, w, t);
  }

  lemma SetPoolWork(s: Sys, p: nat, q: Pool, w: nat, k: Link)
    requires w < |s.tasks| && p < |s.pools| && Pair(w, p) in s.links
    ensures var was := s.links[Pair(w, p)];
      Work(SetPool(s, p, q, w, k)) == Work(s)
        + (2 * |k.headers| + |k.payloads| + |k.replies|) - (2 * |was.headers| + |was.payloads| + |was.replies|)
        + (if q.pending.Some? then 1 else 0) - (if s.pools[p].pending.Some? then 1 else 0)
  {
    LinksWorkSet(s.links, |s.tasks|, |s.pools|, w, p, k);
    PoolsWorkSet(s.pools, p, q);
  }

  /** Moving a message brings every call closer to its end. */
  lemma InternalStepsShrinkWork(j: Job, s: Sys, e: Event)
    requires ValidJob(j) && JobInv(j, s) && WellShaped(j, s) && Enabled(j, s, e) && Internal(e)
    ensures Next(j, s, e).aborted || Work(Next(j, s, e)) < Work(s)
  {
    hide JobInv, Work;
    match e
    case PostBlock(w) =>
      var t := s.tasks[w];
      var k := s.links[Pair(w, t.phase.pool)];
      SetTaskWork(s, w, t.(phase := Idle), t.phase.pool, k.(payloads := k.payloads + [t.phase.data]));
    case TakeReply(w) =>
      var t := s.tasks[w];
      var k := s.links[Pair(w, t.phase.pool)];
      SetTaskWork(s, w, EndRead(t, k.replies[0]), t.phase.pool, k.(replies := k.replies[1..]));
    case TakeBlock(p) =>
      var q := s.pools[p];
      var key := q.pending.value;
      var k := s.links[Pair(key.rank, p)];
      assert InPool(q.store, key);
      SetPoolWork(s, p, Pool(EndStore(j.pools[p], q.store, key, k.payloads[0]), None, q.exited),
                  key.rank, k.(payloads := k.payloads[1..]));
    case TakeHeader(p, w, ks) => TakeHeaderWork(j, s, p, w, ks);
  }

  lemma TakeHeaderWork(j: Job, s: Sys, p: nat, w: nat, ks: seq<SparseKey>)
    requires ValidJob(j) && JobInv(j, s) && WellShaped(j, s) && Enabled(j, s, TakeHeader(p, w, ks))
    ensures Next(j, s, TakeHeader(p, w, ks)).aborted || Work(Next(j, s, TakeHeader(p, w, ks))) < Work(s)
  {
    hide JobInv, Work;
    var q, k := s.pools[p], s.links[Pair(w, p)];
    var h, k' := k.headers[0], k.(headers := k.headers[1..]);
    HeadKinds(j, s, w, p);
    if h.Exit? {
      SetPoolWork(s, p, q.(exited := true), w, k');
    } else {
      var key := SparseKey(w, h.offset);
      assert InPool(q.store, key);
      if IsWrite(h) {
        var b := BeginStore(j.pools[p], q.store, key, ks);
        if b.Begun? {
          SetPoolWork(s, p, Pool(b.state, Some(key), q.exited), w, k');
        }
      } else {
        var r := PullData(j.pools[p], q.store, key);
        if r.Pulled? {
          SetPoolWork(s, p, Pool(r.state, q.pending, q.exited), w, k'.(replies := k'.replies + [r.data]));
        }
      }
    }
  }

  /** The events of `moves`, each possible in turn, take s to t. */
  ghost predicate Leads(j: Job, s: Sys, moves: seq<Event>, t: Sys)
    requires ValidJob(j)
    decreases |moves|
  {
    if moves == [] then t == s
    else JobInv(j, s) && WellShaped(j, s) && Enabled(j, s, moves[0]) && Leads(j, Next(j, s, moves[0]), moves[1..], t)
  }

  ghost predicate AllInternal(moves: seq<Event>) {
    forall i :: 0 <= i < |moves| ==> Internal(moves[i])
  }

  /** However messages are moved, between two states there are at most as many moves as
      there was work on its way. */
  lemma {:induction false} MovesAreBounded(j: Job, s: Sys, moves: seq<Event>, t: Sys)
    requires ValidJob(j) && Leads(j, s, moves, t) && AllInternal(moves) && !t.aborted
    ensures |moves| + Work(t) <= Work(s)
    decreases |moves|
  {
    hide Work, JobInv;
    if moves != [] {
      assert !Next(j, s, moves[0]).aborted by {
        if moves[1..] != [] { assert Enabled(j, Next(j, s, moves[0]), moves[1..][0]); }
      }
      InternalStepsShrinkWork(j, s, moves[0]);
      MovesAreBounded(j, Next(j, s, moves[0]), moves[1..], t);
    }
  }

  /** ... and where none can be moved any more, every write, read and pop has returned. */
  lemma QuietJobHasNoCalls(j: Job, s: Sys)
    requires ValidJob(j) && JobInv(j, s) && WellShaped(j, s) && !s.aborted
    requires forall e :: Internal(e) ==> !Enabled(j, s, e)
    ensures forall w :: !Busy(s, w)
    ensures forall p :: 0 <= p < |s.pools| ==> s.pools[p].pending == None
  {
    if w :| Busy(s, w) {
      var e := BusyJobMoves(j, s, w);
    }
    if p :| 0 <= p < |s.pools| && s.pools[p].pending.Some? {
      var e := PendingMoves(j, s, p);
    }
  }
}
