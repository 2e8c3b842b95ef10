/** The timer object: each method updates the map of timers, the callgraph and the counter
    of begins in place, and is proved against the functions on values. Clock readings are
    arguments. */
module GrvyTimer {
  import opened Wrappers
  import opened TimerSpec
  import opened TimerRuns
  import opened TimerLaws
  import opened TimerSummary

  class GrvyTimerClass {
    var timerMap: map<Id, TimerData>
    var callgraph: seq<Id>
    var numBegins: int
    var finalized: bool
    var timerFinalize: real

    ghost function State(): TimerState
      reads this
    {
      TimerState(timerMap, numBegins, callgraph)
    }

    constructor (now: real)
      ensures State() == Construct(now) && !finalized && timerFinalize == -1.0
    {
      timerMap, callgraph, numBegins, finalized, timerFinalize := map[], [], 0, false, -1.0;
      new;
      BeginTimer(GLOBAL, now, now);
    }

    method PauseTimer(id: Id, now: real)
      requires id in timerMap
      modifies `timerMap
      ensures State() == TimerSpec.PauseTimer(old(State()), id, now)
    {
      var data := timerMap[id];
      var increment := now - data.stamp;
      timerMap := timerMap[id := data.(accumulated := data.accumulated + increment)];
    }

    method ResumeTimer(id: Id, now: real)
      requires id in timerMap
      modifies `timerMap
      ensures State() == TimerSpec.ResumeTimer(old(State()), id, now)
    {
      timerMap := timerMap[id := timerMap[id].(stamp := now)];
    }

    method BeginTimer(id: Id, now: real, pauseNow: real)
      requires numBegins >= 2 ==> HasTop(State())
      modifies `timerMap, `callgraph, `numBegins
      ensures State() == TimerSpec.BeginTimer(old(State()), id, now, pauseNow)
    {
      numBegins := numBegins + 1;
      if numBegins > 2 {
        PauseTimer(callgraph[|callgraph| - 1], pauseNow);
      }
      if Exceeds(numBegins, |callgraph|) {
        callgraph := callgraph + [id];
      }
      if id !in timerMap {
        timerMap := timerMap[id := TimerData(0.0, now, 0.0, now, 0.0, [], [])];
      } else {
        timerMap := timerMap[id := timerMap[id].(stamp := now, stampInc := now, accumulated := 0.0)];
      }
    }

    method EndTimer(id: Id, now: real, resumeNow: real, finalNow: real)
      requires !Rejected(State(), id) ==> CanResume(State())
      modifies `timerMap, `callgraph, `numBegins, `timerFinalize
      ensures State() == TimerSpec.EndTimer(old(State()), id, now, resumeNow)
      ensures timerFinalize == if id == GLOBAL then finalNow else old(timerFinalize)
    {
      if id in timerMap && !(|id.name| >= 2 && id.name[1] as int >= 128) {
        var data := timerMap[id];
        var increment := (now - data.stamp) + data.accumulated;
        var inclusiveIncrement := now - data.stampInc;
        data := data.(timing := data.timing + increment, stamp := -1.0, stats := data.stats + [increment]);
        data := data.(timingInc := data.timingInc + inclusiveIncrement, stampInc := -1.0,
                      statsInc := data.statsInc + [inclusiveIncrement]);
        timerMap := timerMap[id := data];
        if |callgraph| >= 1 {
          callgraph := callgraph[..|callgraph| - 1];
        }
        if numBegins > 2 {
          ResumeTimer(callgraph[|callgraph| - 1], resumeNow);
        }
        numBegins := numBegins - 1;
      }
      if id == GLOBAL {
        timerFinalize := finalNow;
      }
    }

    method Reset(now: real)
      modifies `timerMap, `callgraph, `numBegins
      ensures State() == TimerSpec.Reset(old(State()), now)
    {
      numBegins := 0;
      var rest := timerMap.Keys;
      while rest != {}
        invariant rest <= timerMap.Keys == old(timerMap).Keys
        invariant forall id :: id in timerMap ==>
          timerMap[id] == if id in rest then old(timerMap)[id] else Cleared(old(timerMap)[id])
        invariant numBegins == 0 && callgraph == old(callgraph)
        decreases |rest|
      {
        var id :| id in rest;
        timerMap := timerMap[id := timerMap[id].(timing := 0.0, timingInc := 0.0, stats := [], statsInc := [])];
        rest := rest - {id};
      }
      assert timerMap == map id | id in old(timerMap) :: Cleared(old(timerMap)[id]);
      BeginTimer(GLOBAL, now, now);
    }

    method Finalize(now: real, resumeNow: real, finalNow: real)
      requires !Rejected(State(), GLOBAL) ==> CanResume(State())
      modifies this
      ensures State() == TimerSpec.Finalize(old(State()), now, resumeNow) && finalized && timerFinalize == finalNow
      ensures timerMap.Keys == old(timerMap.Keys)
    {
      EndTimer(GLOBAL, now, resumeNow, finalNow);
      finalized := true;
    }

    method ElapsedSeconds(id: Id, exclusive: bool) returns (elapsed: real)
      ensures elapsed == TimerSpec.ElapsedSeconds(State(), id, exclusive)
    {
      elapsed := 0.0;
      if id in timerMap && !(timerMap[id].stamp > 0.0) {
        elapsed := if exclusive then timerMap[id].timing else timerMap[id].timingInc;
      }
    }

    /** The ids in the order in which an iterator visits them. */
    method Visit() returns (order: seq<Id>)
      ensures Distinct(order) && Known(timerMap, order) && forall id :: id in timerMap ==> id in order
      ensures Alphabetical(order)
    {
      order := [];
      var rest := timerMap.Keys;
      while rest != {}
        invariant rest <= timerMap.Keys && Distinct(order) && Alphabetical(order)
        invariant forall id :: id in order <==> id in timerMap && id !in rest
        invariant forall i, id :: 0 <= i < |order| && id in rest ==> Before(order[i].name, id.name)
        decreases |rest|
      {
        FirstExists(rest);
        var id :| IsFirst(rest, id);
        assert (order + [id])[..|order|] == order;
        order := order + [id];
        rest := rest - {id};
      }
    }

    /** Finalizes if that has not been done, and leaves every timer as it then was: the
        global one is changed for the printing and restored. */
    method Summarize(now: real, resumeNow: real, finalNow: real) returns (report: Report, order: seq<Id>)
      requires GLOBAL in timerMap && (!finalized && !Rejected(State(), GLOBAL) ==> CanResume(State()))
      modifies this
      ensures finalized
      ensures State() == if old(finalized) then old(State()) else TimerSpec.Finalize(old(State()), now, resumeNow)
      ensures Distinct(order) && Known(timerMap, order) && forall id :: id in timerMap ==> id in order
      ensures Alphabetical(order) && GLOBAL in timerMap && Reports(report, timerMap, order)
    {
      hide Reports, Printed, Rejected, TimerSpec.EndTimer, UserTime, Sorted, Distinct, Alphabetical;
      if !finalized {
        Finalize(now, resumeNow, finalNow);
        assert GLOBAL in timerMap.Keys;
      }
      ghost var before := timerMap;
      order := Visit();
      var total := timerMap[GLOBAL].timing;
      var sub := SubTime(order);
      timerMap := timerMap[GLOBAL := timerMap[GLOBAL].(timing := total - sub)];
      var list := SortByTime(before, order);
      report := Print(list, total, timerMap[GLOBAL].timing);
      PrintedReports(report, before, order);
      timerMap := timerMap[GLOBAL := timerMap[GLOBAL].(timing := timerMap[GLOBAL].timing + sub)];
      assert timerMap == before;
    }

    method SubTime(order: seq<Id>) returns (sub: real)
      requires Known(timerMap, order)
      ensures sub == UserTime(timerMap, order)
    {
      sub := 0.0;
      for i := 0 to |order|
        invariant sub == UserTime(timerMap, order[..i])
      {
        assert order[..i + 1][..i] == order[..i];
        if order[i] != GLOBAL {
          sub := sub + timerMap[order[i]].timing;
        }
      }
      assert order[..|order|] == order;
    }

    /** Only the global timer's entry may differ from when it was finalized. */
    method SortByTime(ghost before: map<Id, TimerData>, order: seq<Id>) returns (list: seq<Entry>)
      requires Known(timerMap, order) && Known(before, order)
      requires forall id :: id in order && id != GLOBAL ==> timerMap[id] == before[id]
      ensures list == Sorted(before, order)
    {
      list := [];
      for i := 0 to |order|
        invariant list == Sorted(before, order[..i])
      {
        assert order[..i + 1][..i] == order[..i];
        if order[i] != GLOBAL {
          list := Insert(list, order[i], timerMap[order[i]].timing);
        }
      }
      assert order[..|order|] == order;
    }

    static method Print(list: seq<Entry>, total: real, left: real) returns (report: Report)
      ensures Printed(report, list, total, left)
    {
      var lines, listed := PrintLines(list, total);
      var totalPercent, warned := None, false;
      if total != 0.0 {
        var sum := listed + 100.0 * left / total;
        PercentAdds(Total(list), left, total);
        PercentOfWhole(total, total - Total(list) - left);
        totalPercent, warned := Some(sum), sum - 100.0 > PERCENT_TOLERANCE || 100.0 - sum > PERCENT_TOLERANCE;
      }
      report := Report(lines, Line(GLOBAL, left, Percent(left, total)), total, totalPercent, warned);
    }

    static method PrintLines(list: seq<Entry>, total: real) returns (lines: seq<Line>, listed: real)
      ensures lines == Lines(list, total)
      ensures total != 0.0 ==> listed == 100.0 * Total(list) / total
    {
      lines, listed := [], 0.0;
      ghost var share := 0.0;
      for i := 0 to |list|
        invariant lines == Lines(list, total)[..i]
        invariant share + Total(list[i..]) == Total(list)
        invariant total != 0.0 ==> listed == 100.0 * share / total
      {
        var percent := Percent(list[i].seconds, total);
        if total != 0.0 {
          PercentAdds(share, list[i].seconds, total);
          listed := listed + 100.0 * list[i].seconds / total;
        }
        assert list[i..][1..] == list[i + 1..];
        share := share + list[i].seconds;
        lines := lines + [Line(list[i].id, list[i].seconds, percent)];
      }
    }
  }

  /** A report, a reset, one timer for d, and a second report: its total is zero, it has no
      percentages, and it leaves over minus the time of that timer. */
  method SecondReport(start: real, a: Id, d: real) returns (report: Report)
    requires a != GLOBAL && !Flagged(a)
    ensures report.total == 0.0 && report.totalPercent == None && report.unassigned.seconds == -d
  {
    hide TimerSpec.BeginTimer, TimerSpec.EndTimer, TimerSpec.Reset, Construct, Stacked, Reports, Exclusive, Inclusive,
         UserTime, Distinct;
    ghost var p0: seq<Event> := [];
    var timer := new GrvyTimerClass(start);
    assert timer.State() == After(start, p0);
    RunsOn(start, p0, Finish(start));
    StackFacts(After(start, p0), Open(p0));
    var first, visited := timer.Summarize(start, start, start);
    ghost var p1 := p0 + [Finish(start)];
    RunsOn(start, p1, Restart(start));
    timer.Reset(start);
    ghost var p2 := p1 + [Restart(start)];
    RunsOn(start, p2, Begin(a, start, start));
    timer.BeginTimer(a, start, start);
    ghost var p3 := p2 + [Begin(a, start, start)];
    RunsOn(start, p3, End(a, start + d, start + d));
    timer.EndTimer(a, start + d, start + d, start + d);
    ghost var es := p3 + [End(a, start + d, start + d)];
    ReportedAndResetRuns(start, a, d);
    assert es == ReportedAndReset(start, a, d) && timer.State() == After(start, es);
    StackFacts(After(start, es), Open(es));
    report, visited := timer.Summarize(start + d, start + d, start + d);
    ReportAddsUp(report, start, es, visited);
  }
}
