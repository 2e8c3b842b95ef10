/** Matched runs in which the program drops some of the ends: the stack keeps the timers it
    was never told had ended. */
module TimerDropped {
  import opened TimerSpec
  import opened TimerRuns
  import opened TimerLaws

  predicate Matched(es: seq<Event>) {
    es == [] || (Matched(Earlier(es)) && Matches(Open(Earlier(es)), Last(es)) && !Last(es).Restart?)
  }

  /** The ends of a run that are dropped. */
  function Dropped(es: seq<Event>): nat {
    if es == [] then 0 else Dropped(Earlier(es)) + if IsDropped(Last(es)) then 1 else 0
  }

  /** The stack and the counter agree, and exceed the open timers g by the dropped ends. */
  ghost predicate Kept(s: TimerState, g: seq<Id>, dropped: nat) {
    && s.numBegins == |s.callgraph| == |g| + dropped
    && (forall i :: 0 <= i < |s.callgraph| ==> s.callgraph[i] in s.timers)
    && (forall i :: 0 <= i < |g| ==> g[i] in s.timers)
    && (dropped == 0 ==> s.callgraph == g)
    && (forall i, k :: 0 <= i < k < |g| ==> g[i] != g[k])
    && (g != [] ==> g[0] == GLOBAL)
    && GLOBAL in s.timers
  }

  lemma KeptStep(s: TimerState, g: seq<Id>, dropped: nat, e: Event)
    requires Kept(s, g, dropped) && Matches(g, e) && !e.Restart?
    ensures Possible(s, e) && Kept(Apply(s, e), Moved(g, e), dropped + if IsDropped(e) then 1 else 0)
  {
    GlobalNotFlagged();
    if s.callgraph != [] { assert s.callgraph[|s.callgraph| - 1] in s.timers; }
    if |s.callgraph| >= 2 { assert s.callgraph[|s.callgraph| - 2] in s.timers; }
    if e.End? { assert g[|g| - 1] in s.timers; }
  }

  /** The state a matched run leads to, ends dropped or not. */
  ghost function AfterAny(start: real, es: seq<Event>): (s: TimerState)
    requires Matched(es)
    ensures Kept(s, Open(es), Dropped(es))
  {
    hide Kept, Apply;
    if es == [] then
      assert Kept(Construct(start), [GLOBAL], 0) by { ConstructKept(start); }
      Construct(start)
    else
      KeptStep(AfterAny(start, Earlier(es)), Open(Earlier(es)), Dropped(Earlier(es)), Last(es));
      Apply(AfterAny(start, Earlier(es)), Last(es))
  }

  lemma ConstructKept(start: real)
    ensures Kept(Construct(start), [GLOBAL], 0)
  {
  }

  /** Over every matched run the counter of begins and the stack exceed the open timers by
      one for each dropped end, so the stack is that of the open timers exactly when no end
      was dropped; and those are the runs on which every law of well-nested runs holds. */
  lemma {:induction false} DroppedEndsExactly(start: real, es: seq<Event>)
    requires Matched(es)
    ensures AfterAny(start, es).numBegins == |AfterAny(start, es).callgraph| == |Open(es)| + Dropped(es)
    ensures AfterAny(start, es).callgraph == Open(es) <==> Dropped(es) == 0
    ensures WellNested(es) <==> Dropped(es) == 0
    ensures WellNested(es) ==> AfterAny(start, es) == After(start, es)
    decreases |es|
  {
    if es != [] {
      hide Open, Apply, Kept, Stacked, Matches;
      DroppedEndsExactly(start, Earlier(es));
    }
  }

  lemma {:induction false} SilentAfterAny(start: real, es: seq<Event>, id: Id)
    requires Matched(es)
    ensures Silent(AfterAny(start, es), id)
  {
    if es != [] {
      hide Apply, Silent, Open, Kept;
      SilentAfterAny(start, Earlier(es), id);
      KeptStep(AfterAny(start, Earlier(es)), Open(Earlier(es)), Dropped(Earlier(es)), Last(es));
      SilentStep(AfterAny(start, Earlier(es)), Last(es), id);
    }
  }

  /** Over every matched run a timer whose ends are dropped reads zero and has no samples,
      however long it was open. */
  lemma {:induction false} DroppedTimersReadZero(start: real, es: seq<Event>, id: Id, exclusive: bool)
    requires Matched(es) && Flagged(id)
    ensures ElapsedSeconds(AfterAny(start, es), id, exclusive) == 0.0
    ensures Samples(AfterAny(start, es), id, exclusive) == []
  {
    hide AfterAny;
    SilentAfterAny(start, es, id);
  }

  /** The inclusive total of a timer whose own ends are taken, whatever becomes of others. */
  predicate Totals(s: TimerState, g: seq<Id>, now: real, id: Id, inc: real) {
    if id !in s.timers then id !in g && inc == 0.0
    else inc == s.timers[id].timingInc + if id in g then now - s.timers[id].stampInc else 0.0
  }

  lemma BeginTotals(s: TimerState, g: seq<Id>, dropped: nat, now: real, e: Event, id: Id, inc: real)
    requires Kept(s, g, dropped) && Matches(g, e) && e.Begin? && Possible(s, e) && Totals(s, g, now, id, inc)
    ensures Totals(Apply(s, e), Moved(g, e), e.at, id, inc + if id in g then e.at - now else 0.0)
  {
    assert id in g + [e.id] <==> id in g || id == e.id;
  }

  lemma EndTotals(s: TimerState, g: seq<Id>, dropped: nat, now: real, e: Event, id: Id, inc: real)
    requires Kept(s, g, dropped) && Matches(g, e) && e.End? && Possible(s, e)
    requires !Flagged(id) && Totals(s, g, now, id, inc)
    ensures Totals(Apply(s, e), Moved(g, e), e.at, id, inc + if id in g then e.at - now else 0.0)
  {
    assert g == Pop(g) + [Top(g)];
  }

  lemma FinishTotals(s: TimerState, g: seq<Id>, dropped: nat, now: real, e: Event, id: Id, inc: real)
    requires Kept(s, g, dropped) && Matches(g, e) && e.Finish? && Possible(s, e)
    requires !Flagged(id) && Totals(s, g, now, id, inc)
    ensures Totals(Apply(s, e), Moved(g, e), e.at, id, inc + if id in g then e.at - now else 0.0)
  {
    GlobalNotFlagged();
  }

  /** The last event of a matched run, one step at a time. */
  lemma LastMatched(start: real, es: seq<Event>)
    requires Matched(es) && es != []
    ensures Matched(Earlier(es)) && Matches(Open(Earlier(es)), Last(es)) && !Last(es).Restart?
    ensures Kept(AfterAny(start, Earlier(es)), Open(Earlier(es)), Dropped(Earlier(es)))
    ensures Possible(AfterAny(start, Earlier(es)), Last(es))
    ensures AfterAny(start, es) == Apply(AfterAny(start, Earlier(es)), Last(es))
    ensures Open(es) == Moved(Open(Earlier(es)), Last(es)) && Now(start, es) == Last(es).at
  {
    hide Apply, Kept, Matches, Moved, Possible;
    KeptStep(AfterAny(start, Earlier(es)), Open(Earlier(es)), Dropped(Earlier(es)), Last(es));
  }

  lemma {:induction false} TotalsHold(start: real, es: seq<Event>, id: Id)
    requires Matched(es) && !Flagged(id)
    ensures Totals(AfterAny(start, es), Open(es), Now(start, es), id, Inclusive(start, es, id))
    decreases |es|
  {
    if es != [] {
      hide Earlier, Last, AfterAny, Matched, Apply, Open, Kept, Totals, Inclusive, Possible, Matches, Moved, Now;
      LastMatched(start, es);
      LastInclusive(start, es, id);
      var p, e := Earlier(es), Last(es);
      TotalsHold(start, p, id);
      var s, g, now, inc := AfterAny(start, p), Open(p), Now(start, p), Inclusive(start, p, id);
      match e
      case Begin(_, _, _) => BeginTotals(s, g, Dropped(p), now, e, id, inc);
      case End(_, _, _) => EndTotals(s, g, Dropped(p), now, e, id, inc);
      case Finish(_) => FinishTotals(s, g, Dropped(p), now, e, id, inc);
      case Restart(_) =>
    }
  }

  /** Over every matched run the inclusive total of a closed timer is the time it was open,
      however many ends of others were dropped; it reads that, unless its stamp was set again
      after it ended, which makes it read zero as a timer still active. */
  lemma {:induction false} InclusiveTotal(start: real, es: seq<Event>, id: Id)
    requires Matched(es) && !Flagged(id) && id !in Open(es)
    ensures id in AfterAny(start, es).timers ==>
      var d := AfterAny(start, es).timers[id];
      && d.timingInc == Inclusive(start, es, id)
      && ElapsedSeconds(AfterAny(start, es), id, false) == if d.stamp > 0.0 then 0.0 else Inclusive(start, es, id)
    ensures id !in AfterAny(start, es).timers ==> Inclusive(start, es, id) == 0.0
  {
    hide AfterAny, Open;
    TotalsHold(start, es, id);
  }

  lemma MatchedGrows(start: real, es: seq<Event>, e: Event, id: Id)
    requires Matched(es) && Matches(Open(es), e) && !e.Restart?
    ensures var longer := es + [e];
      && Matched(longer) && Open(longer) == Moved(Open(es), e) && Now(start, longer) == e.at
      && Possible(AfterAny(start, es), e) && AfterAny(start, longer) == Apply(AfterAny(start, es), e)
      && Inclusive(start, longer, id) ==
         Inclusive(start, es, id) + if id in Open(es) then e.at - Now(start, es) else 0.0
  {
    hide Apply, Kept, Matches, Moved, Possible;
    assert Earlier(es + [e]) == es && Last(es + [e]) == e;
    LastMatched(start, es + [e]);
  }

  /** Timer a with one call of f inside it. */
  function OneInside(a: Id, t1: real, f: Id, t2: real, t3: real, t4: real): seq<Event> {
    [Begin(a, t1, t1)] + [Begin(f, t2, t2)] + [End(f, t3, t3)] + [End(a, t4, t4)]
  }

  lemma NothingBegun(start: real, id: Id)
    ensures Matched([]) && Open([]) == [GLOBAL] && AfterAny(start, []) == Construct(start)
    ensures Now(start, []) == start && Inclusive(start, [], id) == 0.0
  {
  }

  lemma BothBegun(start: real, a: Id, t1: real, f: Id, t2: real)
    requires a != GLOBAL && f != GLOBAL && a != f
    ensures var s := BeginTimer(Construct(start), a, t1, t1);
      && HasTop(s) && BeginTimer(s, f, t2, t2).callgraph == [GLOBAL, a, f]
      && BeginTimer(s, f, t2, t2).numBegins == 3 && a in BeginTimer(s, f, t2, t2).timers
  {
  }

  lemma DroppedEnd(s: TimerState, f: Id, at: real)
    requires Flagged(f)
    ensures EndTimer(s, f, at, at) == s
  {
  }

  lemma StampedByItself(s: TimerState, a: Id, f: Id, at: real, exclusive: bool)
    requires s.callgraph == [GLOBAL, a, f] && s.numBegins == 3 && a in s.timers && !Flagged(a) && at > 0.0
    ensures CanResume(s) && ElapsedSeconds(EndTimer(s, a, at, at), a, exclusive) == 0.0
  {
    assert Pop(s.callgraph) == [GLOBAL, a];
  }

  lemma InsideIsDropped(start: real, a: Id, t1: real, f: Id, t2: real, t3: real)
    requires a != GLOBAL && f != GLOBAL && a != f && Flagged(f)
    ensures var es := [Begin(a, t1, t1)] + [Begin(f, t2, t2)] + [End(f, t3, t3)];
      && Matched(es) && Open(es) == [GLOBAL, a] && Inclusive(start, es, a) == t3 - t1 && Now(start, es) == t3
      && AfterAny(start, es).callgraph == [GLOBAL, a, f] && AfterAny(start, es).numBegins == 3
      && a in AfterAny(start, es).timers
  {
    var p1 := [Begin(a, t1, t1)];
    var p2 := p1 + [Begin(f, t2, t2)];
    hide AfterAny, Inclusive, Now, Open, Matched, BeginTimer, EndTimer, Kept, Construct, Flagged, Possible, HasTop;
    NothingBegun(start, a);
    BothBegun(start, a, t1, f, t2);
    assert [] + p1 == p1;
    MatchedGrows(start, [], Begin(a, t1, t1), a);
    MatchedGrows(start, p1, Begin(f, t2, t2), a);
    MatchedGrows(start, p2, End(f, t3, t3), a);
    DroppedEnd(AfterAny(start, p2), f, t3);
  }

  /** The dropped end of f costs the timer around it, too: a is stamped anew by its own end
      and reads zero, whatever time it has added up. */
  lemma EnclosingReadsZero(start: real, a: Id, t1: real, f: Id, t2: real, t3: real, t4: real, exclusive: bool)
    requires a != GLOBAL && f != GLOBAL && a != f && !Flagged(a) && Flagged(f) && t4 > 0.0
    ensures var es := OneInside(a, t1, f, t2, t3, t4);
      && Matched(es) && Open(es) == [GLOBAL] && Inclusive(start, es, a) == t4 - t1
      && ElapsedSeconds(AfterAny(start, es), a, exclusive) == 0.0
  {
    hide AfterAny, Inclusive, Now, Open, Matched, EndTimer, Kept, ElapsedSeconds;
    var p := [Begin(a, t1, t1)] + [Begin(f, t2, t2)] + [End(f, t3, t3)];
    InsideIsDropped(start, a, t1, f, t2, t3);
    StampedByItself(AfterAny(start, p), a, f, t4, exclusive);
    MatchedGrows(start, p, End(a, t4, t4), a);
  }
}
