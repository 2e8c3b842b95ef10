/** Laws that tie the timers to one another: every instant is charged to exactly one timer,
    a call's own and inclusive times differ by what its children cost, and a restarted object
    gives the readings and samples of a new one, though a report may tell them apart. */
module TimerLaws {
  import opened TimerSpec
  import opened TimerRuns

  // ------------------------------------------------------------------------------
  // Every instant is charged to exactly one timer
  // ------------------------------------------------------------------------------

  predicate Distinct(ids: seq<Id>) {
    ids == [] || (ids[|ids| - 1] !in ids[..|ids| - 1] && Distinct(ids[..|ids| - 1]))
  }

  function ExclusiveSum(start: real, es: seq<Event>, ids: seq<Id>): real {
    if ids == [] then 0.0
    else ExclusiveSum(start, es, ids[..|ids| - 1]) + Exclusive(start, es, ids[|ids| - 1])
  }

  lemma {:induction false} SumStep(start: real, es: seq<Event>, ids: seq<Id>)
    requires es != [] && Distinct(ids)
    ensures ExclusiveSum(start, es, ids) ==
      if Last(es).Restart? then 0.0
      else ExclusiveSum(start, Earlier(es), ids) +
           if Open(Earlier(es)) != [] && Top(Open(Earlier(es))) in ids
           then Last(es).at - Now(start, Earlier(es)) else 0.0
  {
    hide Open;
    if ids != [] {
      var n := |ids| - 1;
      SumStep(start, es, ids[..n]);
      assert ids == ids[..n] + [ids[n]];
    }
  }

  lemma {:induction false} NothingYet(start: real, ids: seq<Id>)
    ensures ExclusiveSum(start, [], ids) == 0.0
  {
    if ids != [] { NothingYet(start, ids[..|ids| - 1]); }
  }

  /** The times all timers spent innermost add up to the time the global timer was open. */
  lemma {:induction false} ExclusiveTimesAddUp(start: real, es: seq<Event>, ids: seq<Id>)
    requires WellNested(es) && Distinct(ids) && forall id :: id in After(start, es).timers ==> id in ids
    ensures ExclusiveSum(start, es, ids) == Inclusive(start, es, GLOBAL)
  {
    if es == [] {
      NothingYet(start, ids);
    } else {
      hide After, Open, Inclusive, Apply, Possible, Stacked, WellNested, Fits, Moved;
      LastStep(start, es);
      var p := Earlier(es);
      var s, g := After(start, p), Open(p);
      StackedStep(s, g, Last(es));
      ExclusiveTimesAddUp(start, p, ids);
      SumStep(start, es, ids);
      LastInclusive(start, es, GLOBAL);
      StackFacts(s, g);
      assert g == [] ==> GLOBAL !in g;
    }
  }

  /** What the program adds up over all timers but the global one. */
  function UserTime(timers: map<Id, TimerData>, ids: seq<Id>): real
    requires forall id :: id in ids ==> id in timers
  {
    if ids == [] then 0.0
    else
      var last := ids[|ids| - 1];
      UserTime(timers, ids[..|ids| - 1]) + if last == GLOBAL then 0.0 else timers[last].timing
  }

  lemma DistinctLast(ids: seq<Id>)
    requires Distinct(ids) && ids != []
    ensures var p, last := ids[..|ids| - 1], ids[|ids| - 1];
      Distinct(p) && last !in p && last in ids && forall id :: id in ids <==> id in p || id == last
  {
    assert ids == ids[..|ids| - 1] + [ids[|ids| - 1]];
  }

  lemma ClosedTiming(start: real, es: seq<Event>, id: Id)
    requires WellNested(es) && Lagless(es) && id !in Open(es) && id in After(start, es).timers
    ensures After(start, es).timers[id].timing == Credit(start, es, id)
  {
    hide After, Credit, WellNested, Lagless, Open;
    ExcBooksHold(start, es, id);
  }

  /** At most the global timer is open. */
  lemma OnlyGlobalOpen(start: real, es: seq<Event>, id: Id)
    requires WellNested(es) && |Open(es)| <= 1
    ensures Open(es) == [] || Open(es) == [GLOBAL]
    ensures id != GLOBAL ==> id !in Open(es)
  {
    hide After, Open, WellNested;
    assert Stacked(After(start, es), Open(es));
  }

  lemma {:induction false} UserTimeIsExclusive(start: real, es: seq<Event>, ids: seq<Id>)
    requires WellNested(es) && Lagless(es) && |Open(es)| <= 1
    requires Distinct(ids) && forall id :: id in ids ==> id in After(start, es).timers
    ensures UserTime(After(start, es).timers, ids) ==
            ExclusiveSum(start, es, ids) - if GLOBAL in ids then Exclusive(start, es, GLOBAL) else 0.0
  {
    if ids != [] {
      hide After, Exclusive, Inclusive, WellNested, Lagless, Open, Stacked, Distinct;
      var n := |ids| - 1;
      DistinctLast(ids);
      UserTimeIsExclusive(start, es, ids[..n]);
      OnlyGlobalOpen(start, es, ids[n]);
      if ids[n] != GLOBAL { ClosedTiming(start, es, ids[n]); }
    }
  }

  lemma ResetRunning(s: TimerState, at: real)
    ensures GLOBAL in Reset(s, at).timers && Reset(s, at).timers[GLOBAL].timing == 0.0
  {
  }

  lemma RunningStep(s: TimerState, g: seq<Id>, e: Event)
    requires Stacked(s, g) && Fits(g, e) && Possible(s, e) && GLOBAL in Moved(g, e)
    requires GLOBAL in g ==> s.timers[GLOBAL].timing == 0.0
    ensures GLOBAL in Apply(s, e).timers && Apply(s, e).timers[GLOBAL].timing == 0.0
  {
    hide Stacked, BeginTimer, EndTimer, Reset;
    StackFacts(s, g);
    match e
    case Begin(next, at, pauseAt) => BeginRecord(s, g, next, at, pauseAt, GLOBAL);
    case End(_, at, resumeAt) =>
      StackEnds(s, g, GLOBAL);
      EndRecord(s, g, at, resumeAt, GLOBAL);
    case Restart(at) => ResetRunning(s, at);
  }

  /** Nothing is booked on the global timer while it runs. */
  lemma {:induction false} RunningGlobalShowsNothing(start: real, es: seq<Event>)
    requires WellNested(es) && GLOBAL in Open(es)
    ensures GLOBAL in After(start, es).timers && After(start, es).timers[GLOBAL].timing == 0.0
    decreases |es|
  {
    if es != [] {
      hide Earlier, Last, After, Open, WellNested, Apply, Possible, Stacked, Fits, Moved;
      LastStep(start, es);
      if GLOBAL in Open(Earlier(es)) { RunningGlobalShowsNothing(start, Earlier(es)); }
      RunningStep(After(start, Earlier(es)), Open(Earlier(es)), Last(es));
    }
  }

  /** Time does not run backwards from one call to the next. */
  predicate Monotone(start: real, es: seq<Event>) {
    es == [] || (Monotone(start, Earlier(es)) && Now(start, Earlier(es)) <= Last(es).at)
  }

  lemma {:induction false} ExclusiveNotNegative(start: real, es: seq<Event>, id: Id)
    requires Monotone(start, es)
    ensures Exclusive(start, es, id) >= 0.0
  {
    if es != [] { ExclusiveNotNegative(start, Earlier(es), id); }
  }

  /** With at most the global timer open, what it shows beyond the user timers: where it is
      closed, the time no user timer was open, and not negative; where it runs, that much less
      the whole time it has been open. */
  lemma UnassignedTime(start: real, es: seq<Event>, ids: seq<Id>)
    requires WellNested(es) && Lagless(es) && |Open(es)| <= 1
    requires Distinct(ids) && forall id :: id in ids <==> id in After(start, es).timers
    ensures GLOBAL in After(start, es).timers
    ensures After(start, es).timers[GLOBAL].timing - UserTime(After(start, es).timers, ids) ==
            Exclusive(start, es, GLOBAL) - if Open(es) == [] then 0.0 else Inclusive(start, es, GLOBAL)
    ensures Open(es) != [] ==> After(start, es).timers[GLOBAL].timing == 0.0
    ensures Monotone(start, es) ==> Exclusive(start, es, GLOBAL) >= 0.0
  {
    hide After, Open, WellNested, Inclusive, Exclusive, Stacked;
    StackFacts(After(start, es), Open(es));
    OnlyGlobalOpen(start, es, GLOBAL);
    UserTimeIsExclusive(start, es, ids);
    ExclusiveTimesAddUp(start, es, ids);
    if Open(es) == [] { ClosedTiming(start, es, GLOBAL); } else { RunningGlobalShowsNothing(start, es); }
    if Monotone(start, es) { ExclusiveNotNegative(start, es, GLOBAL); }
  }

  // ------------------------------------------------------------------------------
  // A call and its children
  // ------------------------------------------------------------------------------

  /** A completed call: its inclusive time, and how long after its begin and its end the
      clock was read again for the surrounding timer. */
  datatype Call = Call(inclusive: real, pauseLag: real, resumeLag: real)

  /** An open call and the direct children it has completed. */
  datatype Frame = Frame(begunAt: real, pauseLag: real, children: seq<Call>)

  function Cost(children: seq<Call>): real {
    if children == [] then 0.0
    else
      var c := children[|children| - 1];
      Cost(children[..|children| - 1]) + c.inclusive + c.resumeLag - c.pauseLag
  }

  function Framed(fr: seq<Frame>, e: Event): seq<Frame> {
    match e
    case Begin(_, at, pauseAt) => fr + [Frame(at, pauseAt - at, [])]
    case End(_, at, resumeAt) =>
      if |fr| < 2 then []
      else
        var child := fr[|fr| - 1];
        var parent := fr[|fr| - 2];
        var call := Call(at - child.begunAt, child.pauseLag, resumeAt - at);
        fr[..|fr| - 2] + [parent.(children := parent.children + [call])]
    case Finish(_) => []
    case Restart(at) => [Frame(at, 0.0, [])]
  }

  /** The open calls of a run, the innermost last. */
  function Frames(start: real, es: seq<Event>): seq<Frame> {
    if es == [] then [Frame(start, 0.0, [])] else Framed(Frames(start, Earlier(es)), Last(es))
  }

  /** What the record of the timer open at depth `i` says about its call. */
  predicate Level(s: TimerState, g: seq<Id>, fr: seq<Frame>, i: int)
    requires |fr| == |g| && 0 <= i < |g|
  {
    g[i] in s.timers &&
    var d := s.timers[g[i]];
    d.stampInc == fr[i].begunAt
    && d.accumulated + Cost(fr[i].children) + fr[i].begunAt ==
       if i == |g| - 1 then d.stamp else fr[i + 1].begunAt + fr[i + 1].pauseLag
  }

  predicate Levels(s: TimerState, g: seq<Id>, fr: seq<Frame>) {
    |fr| == |g| && forall i :: 1 <= i < |g| ==> Level(s, g, fr, i)
  }

  lemma CostGrows(children: seq<Call>, c: Call)
    ensures Cost(children + [c]) == Cost(children) + c.inclusive + c.resumeLag - c.pauseLag
  {
    assert (children + [c])[..|children|] == children;
  }

  lemma BeginLevels(s: TimerState, g: seq<Id>, fr: seq<Frame>, next: Id, at: real, pauseAt: real)
    requires Stacked(s, g) && g != [] && next !in g && HasTop(s) && Levels(s, g, fr)
    ensures Levels(BeginTimer(s, next, at, pauseAt), g + [next], fr + [Frame(at, pauseAt - at, [])])
  {
    var t, h, fr' := BeginTimer(s, next, at, pauseAt), g + [next], fr + [Frame(at, pauseAt - at, [])];
    forall i | 1 <= i < |h| ensures Level(t, h, fr', i) {
      hide BeginTimer;
      BeginRecord(s, g, next, at, pauseAt, h[i]);
      if i < |g| {
        assert h[i] == g[i] && fr'[i] == fr[i] && Level(s, g, fr, i);
        assert i != |g| - 1 ==> fr'[i + 1] == fr[i + 1];
      }
    }
  }

  lemma BelowTop(s: TimerState, g: seq<Id>, i: int)
    requires Stacked(s, g) && 0 <= i < |g| - 1
    ensures Pop(g)[i] == g[i] && g[i] in s.timers && g[i] != Top(g)
    ensures g[i] == Top(Pop(g)) <==> i == |g| - 2
  {
  }

  lemma EndLevel(s: TimerState, g: seq<Id>, fr: seq<Frame>, at: real, resumeAt: real, i: int)
    requires Stacked(s, g) && CanResume(s) && |fr| == |g| && 1 <= i < |g| - 1 && !Flagged(Top(g))
    requires Level(s, g, fr, i) && Level(s, g, fr, i + 1)
    ensures Level(EndTimer(s, Top(g), at, resumeAt), Pop(g), Framed(fr, End(Top(g), at, resumeAt)), i)
  {
    hide Stacked, EndTimer, Cost, CanResume;
    var n := |g| - 2;
    CostGrows(fr[n].children, Call(at - fr[n + 1].begunAt, fr[n + 1].pauseLag, resumeAt - at));
    EndRecord(s, g, at, resumeAt, g[i]);
    BelowTop(s, g, i);
  }

  lemma EndLevels(s: TimerState, g: seq<Id>, fr: seq<Frame>, at: real, resumeAt: real)
    requires Stacked(s, g) && |g| >= 2 && CanResume(s) && !Flagged(Top(g)) && Levels(s, g, fr)
    ensures Levels(EndTimer(s, Top(g), at, resumeAt), Pop(g), Framed(fr, End(Top(g), at, resumeAt)))
  {
    hide Stacked, EndTimer, Level, CanResume;
    forall i | 1 <= i < |g| - 1
      ensures Level(EndTimer(s, Top(g), at, resumeAt), Pop(g), Framed(fr, End(Top(g), at, resumeAt)), i)
    {
      EndLevel(s, g, fr, at, resumeAt, i);
    }
  }

  lemma LevelsStep(s: TimerState, g: seq<Id>, fr: seq<Frame>, e: Event)
    requires Stacked(s, g) && Fits(g, e) && Possible(s, e) && Levels(s, g, fr)
    ensures Levels(Apply(s, e), Moved(g, e), Framed(fr, e))
  {
    hide Stacked, BeginTimer, EndTimer, Reset;
    StackFacts(s, g);
    match e
    case Begin(next, at, pauseAt) => BeginLevels(s, g, fr, next, at, pauseAt);
    case End(_, at, resumeAt) => EndLevels(s, g, fr, at, resumeAt);
    case Finish(at) =>
    case Restart(at) =>
  }

  lemma {:induction false} LevelsHold(start: real, es: seq<Event>)
    requires WellNested(es)
    ensures Levels(After(start, es), Open(es), Frames(start, es))
  {
    if es != [] {
      hide After, Open, Apply, Possible, Stacked, WellNested, Fits, Moved, Levels, Framed;
      LastStep(start, es);
      LevelsHold(start, Earlier(es));
      LevelsStep(After(start, Earlier(es)), Open(Earlier(es)), Frames(start, Earlier(es)), Last(es));
    }
  }

  /** The samples a completed user call records: its inclusive one is its length, and that
      is its exclusive one plus, for each direct child, the child's inclusive time and
      resume lag less its pause lag. */
  lemma CompletedCall(start: real, es: seq<Event>, id: Id, at: real, resumeAt: real)
      returns (exclusive: real, inclusive: real)
    requires WellNested(es + [End(id, at, resumeAt)])
    ensures WellNested(es) && Frames(start, es) != []
    ensures var call := Frames(start, es)[|Frames(start, es)| - 1];
      inclusive == at - call.begunAt && inclusive == exclusive + Cost(call.children)
    ensures var s, t := After(start, es), After(start, es + [End(id, at, resumeAt)]);
      && id in s.timers && id in t.timers
      && t.timers[id].stats == s.timers[id].stats + [exclusive]
      && t.timers[id].statsInc == s.timers[id].statsInc + [inclusive]
      && Samples(t, id, true) == Samples(s, id, true) + [exclusive]
      && Samples(t, id, false) == Samples(s, id, false) + [inclusive]
      && t.timers[id].timing == s.timers[id].timing + exclusive
      && t.timers[id].timingInc == s.timers[id].timingInc + inclusive
  {
    hide After, Open, WellNested, Frames, Stacked, EndTimer, Cost;
    var whole := es + [End(id, at, resumeAt)];
    assert Earlier(whole) == es && Last(whole) == End(id, at, resumeAt);
    LastStep(start, whole);
    LevelsHold(start, es);
    var s, g := After(start, es), Open(es);
    StackFacts(s, g);
    assert Level(s, g, Frames(start, es), |g| - 1);
    EndRecord(s, g, at, resumeAt, id);
    var d := s.timers[id];
    exclusive, inclusive := (at - d.stamp) + d.accumulated, at - d.stampInc;
  }

  function InclusiveSum(children: seq<Call>): real {
    if children == [] then 0.0
    else InclusiveSum(children[..|children| - 1]) + children[|children| - 1].inclusive
  }

  predicate NoLags(fr: seq<Frame>) {
    forall f :: f in fr ==> f.pauseLag == 0.0 && NoCallLags(f.children)
  }

  predicate NoCallLags(children: seq<Call>) {
    forall c :: c in children ==> c.pauseLag == 0.0 && c.resumeLag == 0.0
  }

  lemma {:induction false} CostWithoutLags(children: seq<Call>)
    requires NoCallLags(children)
    ensures Cost(children) == InclusiveSum(children)
  {
    if children != [] {
      var n := |children| - 1;
      assert children[n] in children;
      assert forall c :: c in children[..n] ==> c in children;
      CostWithoutLags(children[..n]);
    }
  }

  lemma NoLagsStep(fr: seq<Frame>, e: Event)
    requires NoLags(fr) && NoLag(e)
    ensures NoLags(Framed(fr, e))
  {
    if e.End? && |fr| >= 2 {
      assert fr[|fr| - 1] in fr && fr[|fr| - 2] in fr;
    }
  }

  lemma {:induction false} LaglessFrames(start: real, es: seq<Event>)
    requires Lagless(es)
    ensures NoLags(Frames(start, es))
  {
    if es != [] {
      hide NoLags, NoLag, Framed;
      LaglessFrames(start, Earlier(es));
      NoLagsStep(Frames(start, Earlier(es)), Last(es));
    } else {
      assert NoCallLags([]);
    }
  }

  /** With one clock reading per call, what a user call costs is its own time and the
      inclusive times of its direct children, exactly. */
  lemma CompletedCallConserves(start: real, es: seq<Event>, id: Id, at: real) returns (exclusive: real, inclusive: real)
    requires WellNested(es + [End(id, at, at)]) && Lagless(es)
    ensures WellNested(es) && Frames(start, es) != []
    ensures inclusive == exclusive + InclusiveSum(Frames(start, es)[|Frames(start, es)| - 1].children)
    ensures var s, t := After(start, es), After(start, es + [End(id, at, at)]);
      && id in s.timers && id in t.timers
      && t.timers[id].stats == s.timers[id].stats + [exclusive]
      && t.timers[id].statsInc == s.timers[id].statsInc + [inclusive]
  {
    hide After, Open, WellNested, Frames, Stacked, Cost, InclusiveSum, Lagless;
    exclusive, inclusive := CompletedCall(start, es, id, at, at);
    LaglessFrames(start, es);
    var fr := Frames(start, es);
    assert fr[|fr| - 1] in fr;
    CostWithoutLags(fr[|fr| - 1].children);
  }

  // ------------------------------------------------------------------------------
  // Samples and totals
  // ------------------------------------------------------------------------------

  function Sum(xs: seq<real>): real {
    if xs == [] then 0.0 else Sum(xs[..|xs| - 1]) + xs[|xs| - 1]
  }

  lemma SumGrows(xs: seq<real>, x: real)
    ensures Sum(xs + [x]) == Sum(xs) + x
  {
    assert (xs + [x])[..|xs|] == xs;
  }

  /** How often a timer was ended since the last restart. */
  function Ends(es: seq<Event>, id: Id): nat {
    if es == [] then 0
    else if Last(es).Restart? then 0
    else Ends(Earlier(es), id) +
         if (Last(es).End? && Last(es).id == id) || (Last(es).Finish? && id == GLOBAL) then 1 else 0
  }

  predicate Sampled(s: TimerState, id: Id, n: nat) {
    if id !in s.timers then n == 0
    else
      var d := s.timers[id];
      |d.stats| == |d.statsInc| == n && Sum(d.stats) == d.timing && Sum(d.statsInc) == d.timingInc
  }

  lemma EndSampled(s: TimerState, g: seq<Id>, at: real, resumeAt: real, id: Id, n: nat)
    requires Stacked(s, g) && g != [] && CanResume(s) && !Flagged(Top(g)) && Sampled(s, id, n)
    ensures Sampled(EndTimer(s, Top(g), at, resumeAt), id, n + if id == Top(g) then 1 else 0)
  {
    hide Stacked, EndTimer;
    EndStacked(s, g, at, resumeAt);
    StackEnds(s, g, Top(g));
    if id in s.timers {
      EndRecord(s, g, at, resumeAt, id);
      var d := s.timers[id];
      SumGrows(d.stats, (at - d.stamp) + d.accumulated);
      SumGrows(d.statsInc, at - d.stampInc);
    } else {
      assert Top(g) in g;
    }
  }

  lemma SampledStep(s: TimerState, g: seq<Id>, e: Event, id: Id, n: nat)
    requires Stacked(s, g) && Fits(g, e) && Possible(s, e) && Sampled(s, id, n)
    ensures Sampled(Apply(s, e), id,
                    if e.Restart? then 0
                    else n + if (e.End? && e.id == id) || (e.Finish? && id == GLOBAL) then 1 else 0)
  {
    hide Stacked, BeginTimer, EndTimer, Sampled, Reset;
    StackFacts(s, g);
    match e
    case Begin(next, at, pauseAt) =>
      BeginRecord(s, g, next, at, pauseAt, id);
      BegunSampled(s, Apply(s, e), id, n);
    case End(_, at, resumeAt) => EndSampled(s, g, at, resumeAt, id, n);
    case Finish(at) => EndSampled(s, g, at, at, id, n);
    case Restart(at) => ResetSampled(s, at, id);
  }

  lemma BegunSampled(s: TimerState, t: TimerState, id: Id, n: nat)
    requires Sampled(s, id, n)
    requires id !in t.timers ==> id !in s.timers
    requires id in t.timers ==>
      var d := t.timers[id];
      if id in s.timers
      then d == s.timers[id].(stamp := d.stamp, stampInc := d.stampInc, accumulated := d.accumulated)
      else d.timing == 0.0 && d.timingInc == 0.0 && d.stats == [] && d.statsInc == []
    ensures Sampled(t, id, n)
  {
  }

  lemma ResetSampled(s: TimerState, at: real, id: Id)
    ensures Sampled(Reset(s, at), id, 0)
  {
  }

  lemma {:induction false} SampledHolds(start: real, es: seq<Event>, id: Id)
    requires WellNested(es)
    ensures Sampled(After(start, es), id, Ends(es, id))
    decreases |es|
  {
    if es != [] {
      hide After, Open, WellNested, Apply, Possible, Stacked, Sampled, Fits, Moved;
      LastStep(start, es);
      SampledHolds(start, Earlier(es), id);
      SampledStep(After(start, Earlier(es)), Open(Earlier(es)), Last(es), id, Ends(Earlier(es), id));
    }
  }

  /** In every well-nested run the samples recorded of a timer are one for each of its ends
      since the last reset, and add up to its totals. */
  lemma {:induction false} SamplesAddUp(start: real, es: seq<Event>, id: Id)
    requires WellNested(es)
    ensures var s := After(start, es);
      && |Samples(s, id, true)| == |Samples(s, id, false)| == Ends(es, id)
      && (id in s.timers ==> Sum(Samples(s, id, true)) == s.timers[id].timing
                             && Sum(Samples(s, id, false)) == s.timers[id].timingInc)
  {
    hide After, WellNested, Ends;
    SampledHolds(start, es, id);
  }

  // ------------------------------------------------------------------------------
  // A restarted object and a new one
  // ------------------------------------------------------------------------------

  /** The timers of `t` read the same in `s`; what else `s` knows has been cleared. */
  predicate Same(s: TimerState, t: TimerState, id: Id) {
    if id in t.timers then id in s.timers && s.timers[id] == t.timers[id]
    else id in s.timers ==> Blank(s.timers[id])
  }

  predicate Blank(d: TimerData) {
    d == Cleared(d)
  }

  ghost predicate LikeNew(s: TimerState, t: TimerState) {
    s.callgraph == t.callgraph && s.numBegins == t.numBegins && forall id :: Same(s, t, id)
  }

  lemma ResetIsLikeNew(s: TimerState, g: seq<Id>, at: real)
    requires Stacked(s, g) && |g| <= 1
    ensures LikeNew(Reset(s, at), Construct(at))
  {
    assert |g| == 1 ==> g == [GLOBAL];
    forall id ensures Same(Reset(s, at), Construct(at), id) {}
  }

  lemma BeginLikeNew(s: TimerState, t: TimerState, g: seq<Id>, next: Id, at: real, pauseAt: real)
    requires Stacked(s, g) && Stacked(t, g) && g != [] && next !in g && HasTop(s) && HasTop(t) && LikeNew(s, t)
    ensures forall id :: Same(BeginTimer(s, next, at, pauseAt), BeginTimer(t, next, at, pauseAt), id)
  {
    forall id ensures Same(BeginTimer(s, next, at, pauseAt), BeginTimer(t, next, at, pauseAt), id) {
      hide BeginTimer, Stacked;
      BeginRecord(s, g, next, at, pauseAt, id);
      BeginRecord(t, g, next, at, pauseAt, id);
      assert Same(s, t, id) && Same(s, t, next);
      StackEnds(t, g, id);
    }
  }

  lemma EndLikeNew(s: TimerState, t: TimerState, g: seq<Id>, at: real, resumeAt: real)
    requires Stacked(s, g) && Stacked(t, g) && g != [] && CanResume(s) && CanResume(t) && LikeNew(s, t)
    requires !Flagged(Top(g))
    ensures forall id :: Same(EndTimer(s, Top(g), at, resumeAt), EndTimer(t, Top(g), at, resumeAt), id)
  {
    forall id ensures Same(EndTimer(s, Top(g), at, resumeAt), EndTimer(t, Top(g), at, resumeAt), id) {
      hide EndTimer, Stacked;
      EndStacked(s, g, at, resumeAt);
      EndStacked(t, g, at, resumeAt);
      if id in s.timers { EndRecord(s, g, at, resumeAt, id); }
      if id in t.timers { EndRecord(t, g, at, resumeAt, id); }
      assert Same(s, t, id);
      StackEnds(t, g, id);
    }
  }

  lemma ResetLikeNew(s: TimerState, t: TimerState, g: seq<Id>, at: real)
    requires Stacked(s, g) && Stacked(t, g) && |g| <= 1 && LikeNew(s, t)
    ensures forall id :: Same(Reset(s, at), Reset(t, at), id)
  {
    assert |g| == 1 ==> g == [GLOBAL];
    forall id ensures Same(Reset(s, at), Reset(t, at), id) {
      assert Same(s, t, id);
    }
  }

  lemma StepLikeNew(s: TimerState, t: TimerState, g: seq<Id>, e: Event)
    requires Stacked(s, g) && Stacked(t, g) && Fits(g, e) && Possible(s, e) && Possible(t, e) && LikeNew(s, t)
    ensures LikeNew(Apply(s, e), Apply(t, e))
  {
    hide Stacked, BeginTimer, EndTimer, Reset, Same;
    StackFacts(s, g);
    StackFacts(t, g);
    StackedStep(s, g, e);
    StackedStep(t, g, e);
    StackFacts(Apply(s, e), Moved(g, e));
    StackFacts(Apply(t, e), Moved(g, e));
    match e
    case Begin(next, at, pauseAt) => BeginLikeNew(s, t, g, next, at, pauseAt);
    case End(_, at, resumeAt) => EndLikeNew(s, t, g, at, resumeAt);
    case Finish(at) => EndLikeNew(s, t, g, at, at);
    case Restart(at) => ResetLikeNew(s, t, g, at);
  }

  lemma Longer(es: seq<Event>, e: Event)
    requires WellNested(es) && Fits(Open(es), e)
    ensures WellNested(es + [e]) && Open(es + [e]) == Moved(Open(es), e)
  {
    assert Earlier(es + [e]) == es;
  }

  lemma SplitLast(b: seq<Event>, es: seq<Event>)
    requires es != []
    ensures Earlier(b + es) == b + Earlier(es) && Last(b + es) == Last(es)
    ensures b + es == (b + Earlier(es)) + [Last(es)]
  {
  }

  lemma {:induction false} RunLikeNew(start: real, b: seq<Event>, at: real, es: seq<Event>)
    requires WellNested(b) && Open(b) == [GLOBAL] && LikeNew(After(start, b), Construct(at)) && WellNested(es)
    ensures WellNested(b + es) && Open(b + es) == Open(es) && LikeNew(After(start, b + es), After(at, es))
  {
    if es == [] {
      assert b + es == b;
    } else {
      hide Stacked, Apply, Possible, LikeNew, Moved, Fits, Open, WellNested, After, Earlier, Last;
      var p, e := Earlier(es), Last(es);
      LastStep(at, es);
      RunLikeNew(start, b, at, p);
      SplitLast(b, es);
      Longer(b + p, e);
      LastStep(start, b + es);
      StepLikeNew(After(start, b + p), After(at, p), Open(p), e);
    }
  }

  /** After a reset with at most the global timer open, every later run gives the same
      readings and the same recorded samples as on a new object. */
  lemma ResetIsForgetful(start: real, before: seq<Event>, at: real, es: seq<Event>, id: Id, exclusive: bool)
    requires WellNested(before) && |Open(before)| <= 1 && WellNested(es)
    ensures WellNested(before + [Restart(at)] + es)
    ensures var s := After(start, before + [Restart(at)] + es);
      && ElapsedSeconds(s, id, exclusive) == ElapsedSeconds(After(at, es), id, exclusive)
      && Samples(s, id, exclusive) == Samples(After(at, es), id, exclusive)
      && s.callgraph == After(at, es).callgraph && s.numBegins == After(at, es).numBegins
  {
    hide After, WellNested, Open;
    var b := before + [Restart(at)];
    Longer(before, Restart(at));
    LastStep(start, b);
    assert Earlier(b) == before;
    ResetIsLikeNew(After(start, before), Open(before), at);
    RunLikeNew(start, b, at, es);
    assert Same(After(start, before + [Restart(at)] + es), After(at, es), id);
  }

  /** A reset with user timers open leaves them on the stack and running, with their totals
      cleared, while the counter says that only the global timer is. */
  lemma ResetWithOpenTimers(start: real, es: seq<Event>, at: real)
    requires WellNested(es) && |Open(es)| >= 2
    ensures var s, g, t := After(start, es), Open(es), Reset(After(start, es), at);
      && t.callgraph == g && t.numBegins == 1
      && forall i :: 1 <= i < |g| ==> g[i] in s.timers && g[i] in t.timers
                                      && t.timers[g[i]] == s.timers[g[i]].(timing := 0.0, timingInc := 0.0,
                                                                           stats := [], statsInc := [])
  {
    hide After, Open, WellNested;
    assert Stacked(After(start, es), Open(es));
    var g := Open(es);
    forall i | 1 <= i < |g| ensures g[i] != GLOBAL {
      assert g[0] == GLOBAL && g[0] != g[i];
    }
  }

  // ------------------------------------------------------------------------------
  // An end without a begin
  // ------------------------------------------------------------------------------

  /** The timers a run has ever begun. */
  predicate Begun(es: seq<Event>, id: Id) {
    id == GLOBAL || exists i :: 0 <= i < |es| && es[i].Begin? && es[i].id == id
  }

  lemma StepKnows(s: TimerState, g: seq<Id>, e: Event, id: Id)
    requires Stacked(s, g) && Fits(g, e) && Possible(s, e)
    ensures id in Apply(s, e).timers <==> id in s.timers || (e.Begin? && e.id == id)
  {
    hide Stacked, BeginTimer, EndTimer;
    StackFacts(s, g);
    match e
    case Begin(next, at, pauseAt) => BeginRecord(s, g, next, at, pauseAt, id);
    case End(_, at, resumeAt) => EndStacked(s, g, at, resumeAt);
    case Finish(at) => EndStacked(s, g, at, at);
    case Restart(at) => ResetStacked(s, g, at);
  }

  lemma BegunGrows(es: seq<Event>, id: Id)
    requires es != []
    ensures Begun(es, id) <==> Begun(Earlier(es), id) || (Last(es).Begin? && Last(es).id == id)
  {
    var n := |es| - 1;
    var p := Earlier(es);
    assert es[n] == Last(es);
    if Begun(p, id) && id != GLOBAL {
      var i :| 0 <= i < n && p[i].Begin? && p[i].id == id;
      assert es[i].id == id;
    }
    if Begun(es, id) && id != GLOBAL {
      var i :| 0 <= i < |es| && es[i].Begin? && es[i].id == id;
      assert i < n ==> p[i].id == id;
    }
  }

  lemma {:induction false} KnownIsBegun(start: real, es: seq<Event>, id: Id)
    requires WellNested(es)
    ensures id in After(start, es).timers <==> Begun(es, id)
    decreases |es|
  {
    if es != [] {
      hide Begun, Earlier, Last, After, Open, WellNested, Apply, Possible, Stacked, Fits, Moved;
      LastStep(start, es);
      KnownIsBegun(start, Earlier(es), id);
      StepKnows(After(start, Earlier(es)), Open(Earlier(es)), Last(es), id);
      BegunGrows(es, id);
    }
  }

  /** In any state an end is ignored exactly when the timer is unknown or its name looks
      negative. */
  lemma EndIgnoredExactlyWhen(s: TimerState, id: Id, at: real, resumeAt: real)
    requires CanResume(s)
    ensures EndTimer(s, id, at, resumeAt) == s <==> Rejected(s, id)
    ensures !Rejected(s, id) && s.timers[id].stamp == -1.0 && (s.numBegins > 2 ==> Top(Pop(s.callgraph)) != id) ==>
      EndTimer(s, id, at, resumeAt).timers[id].timing == s.timers[id].timing + at + 1.0 + s.timers[id].accumulated
  {
    if !Rejected(s, id) {
      assert |EndTimer(s, id, at, resumeAt).timers[id].stats| == |s.timers[id].stats| + 1;
    }
  }

  /** After any well-nested run, an end of a timer that is not open is ignored, as it was
      meant to be, exactly when the run never began that timer or the second character of
      its name is negative. */
  lemma UnmatchedEndIgnoredExactlyWhen(start: real, es: seq<Event>, id: Id, at: real, resumeAt: real)
    requires WellNested(es) && id !in Open(es)
    ensures CanResume(After(start, es))
    ensures EndTimer(After(start, es), id, at, resumeAt) == After(start, es) <==>
            !Begun(es, id) || (|id.name| >= 2 && id.name[1] as int >= 128)
  {
    hide After, Open, WellNested, Stacked;
    UnmatchedCanResume(After(start, es), Open(es));
    KnownIsBegun(start, es, id);
    EndIgnoredExactlyWhen(After(start, es), id, at, resumeAt);
  }

  lemma UnmatchedCanResume(s: TimerState, g: seq<Id>)
    requires Stacked(s, g)
    ensures CanResume(s)
  {
    if |g| > 2 { assert g[|g| - 2] in s.timers; }
  }

  /** What an end of id, not among the open timers g, makes of s: the timer gains the raw
      clock reading, one second and what its last call had gathered while paused; the
      innermost open timer is taken off the stack in its place, still running; the one below
      is restarted though nothing ended. */
  predicate EndedUnbegun(s: TimerState, g: seq<Id>, id: Id, at: real, resumeAt: real, t: TimerState)
    requires id in s.timers
  {
    var d := s.timers[id];
    && t.callgraph == (if g == [] then [] else Pop(g)) && t.numBegins == |g| - 1
    && id in t.timers && t.timers[id].timing == d.timing + at + 1.0 + d.accumulated
    && t.timers[id].timingInc == d.timingInc + at + 1.0
    && (forall x :: x in g && !(|g| > 2 && x == Top(Pop(g))) ==>
          x in s.timers && x in t.timers && t.timers[x] == s.timers[x])
    && (|g| > 2 ==>
          var below := Top(Pop(g));
          below in s.timers && below in t.timers && t.timers[below] == s.timers[below].(stamp := resumeAt))
  }

  lemma UnmatchedRecord(s: TimerState, g: seq<Id>, now: real, id: Id, inc: real, at: real, resumeAt: real)
    requires Stacked(s, g) && CanResume(s) && id !in g && !Rejected(s, id) && IncBooks(s, g, now, id, inc)
    ensures EndedUnbegun(s, g, id, at, resumeAt, EndTimer(s, id, at, resumeAt))
  {
    assert |g| > 2 ==> g[|g| - 2] in g;
  }

  /** Where such an end is not ignored. */
  lemma UnmatchedEnd(start: real, es: seq<Event>, id: Id, at: real, resumeAt: real)
    requires WellNested(es) && id !in Open(es) && Begun(es, id) && !Flagged(id)
    ensures CanResume(After(start, es)) && id in After(start, es).timers
    ensures EndedUnbegun(After(start, es), Open(es), id, at, resumeAt, EndTimer(After(start, es), id, at, resumeAt))
  {
    hide After, Open, WellNested, Stacked, EndTimer, EndedUnbegun;
    UnmatchedCanResume(After(start, es), Open(es));
    KnownIsBegun(start, es, id);
    IncBooksHold(start, es, id);
    UnmatchedRecord(After(start, es), Open(es), Now(start, es), id, Inclusive(start, es, id), at, resumeAt);
  }

  /** Begin, end and end again: the stack is empty and the counter zero with the global timer
      running, and the timer shows the whole second clock reading. */
  lemma SecondEnd(start: real, id: Id, a: real, b: real, c: real)
    requires id != GLOBAL && !Flagged(id)
    ensures var es := [Begin(id, a, a), End(id, b, b)];
      && WellNested(es) && CanResume(After(start, es)) && id in After(start, es).timers
      && var t := EndTimer(After(start, es), id, c, c);
         && t.callgraph == [] && t.numBegins == 0
         && GLOBAL in t.timers && t.timers[GLOBAL].stamp == start
         && id in t.timers && t.timers[id].timing == (b - a) + c + 1.0
  {
    var one, two := Begin(id, a, a), End(id, b, b);
    var es := [one, two];
    Longer([], one);
    Longer([one], two);
    assert [] + [one] == [one] && [one] + [two] == es;
    assert Open([]) == [GLOBAL] && Open([one]) == [GLOBAL, id] && Open(es) == [GLOBAL];
    assert es[0].id == id;
    UnmatchedEnd(start, es, id, c, c);
    assert Earlier(es) == [one] && Earlier([one]) == [];
    LastStep(start, es);
    LastStep(start, [one]);
  }

  lemma EndOnEmptyStack(s: TimerState, id: Id, at: real)
    requires s.callgraph == [] && s.numBegins <= 0 && id in s.timers && !Flagged(id)
    ensures CanResume(s)
    ensures var t := EndTimer(s, id, at, at); t.callgraph == [] && t.numBegins == s.numBegins - 1 && id in t.timers
  {
  }

  /** Each end more takes the counter further below zero. As it is compared with the size of
      the stack as an unsigned number, the next timer begun is not put on the stack when the
      counter comes up to zero, and is when it stays negative. */
  lemma CounterWraps(start: real, id: Id, at: real, next: Id)
    requires id != GLOBAL && !Flagged(id)
    ensures var es := [Begin(id, at, at), End(id, at, at)];
      && WellNested(es) && CanResume(After(start, es))
      && var two := EndTimer(After(start, es), id, at, at);
         two.callgraph == [] && two.numBegins == 0 && CanResume(two)
         && var three := EndTimer(two, id, at, at);
            three.numBegins == -1 && BeginTimer(three, next, at, at).callgraph == [] && CanResume(three)
            && var four := EndTimer(three, id, at, at);
               four.numBegins == -2 && BeginTimer(four, next, at, at).callgraph == [next]
  {
    hide After, WellNested, EndTimer, Flagged, Rejected;
    SecondEnd(start, id, at, at, at);
    var two := EndTimer(After(start, [Begin(id, at, at), End(id, at, at)]), id, at, at);
    EndOnEmptyStack(two, id, at);
    EndOnEmptyStack(EndTimer(two, id, at, at), id, at);
  }

  // ------------------------------------------------------------------------------
  // An end that is dropped
  // ------------------------------------------------------------------------------

  /** A timer whose ends are dropped shows nothing. */
  predicate Silent(s: TimerState, id: Id) {
    Flagged(id) && id in s.timers ==>
      var d := s.timers[id];
      d.timing == 0.0 && d.timingInc == 0.0 && d.stats == [] && d.statsInc == []
  }

  /** No call at all changes that. */
  lemma SilentStep(s: TimerState, e: Event, id: Id)
    requires Possible(s, e) && Silent(s, id)
    ensures Silent(Apply(s, e), id)
  {
  }

  lemma {:induction false} SilentAfter(start: real, es: seq<Event>, id: Id)
    requires WellNested(es)
    ensures Silent(After(start, es), id)
    decreases |es|
  {
    if es != [] {
      hide After, Open, WellNested, Stacked, Apply, Possible, Silent, Fits, Moved;
      LastStep(start, es);
      SilentAfter(start, Earlier(es), id);
      SilentStep(After(start, Earlier(es)), Last(es), id);
    }
  }

  /** The same test drops ends that do match: after any well-nested run a begin and its end
      restore the stack exactly when the second character of the name is not negative.
      Otherwise the end changes nothing, and the timer stays open on the stack and reads
      zero. */
  lemma {:induction false} MatchedEndTakenExactlyWhen(start: real, es: seq<Event>, id: Id, at: real, pauseAt: real,
                                                      endAt: real, resumeAt: real)
    requires WellNested(es) && Open(es) != [] && id !in Open(es)
    ensures HasTop(After(start, es)) && CanResume(BeginTimer(After(start, es), id, at, pauseAt))
    ensures var t := BeginTimer(After(start, es), id, at, pauseAt);
      && (EndTimer(t, id, endAt, resumeAt).callgraph == Open(es) <==> |id.name| < 2 || id.name[1] as int < 128)
      && (EndTimer(t, id, endAt, resumeAt).numBegins == |Open(es)| <==> |id.name| < 2 || id.name[1] as int < 128)
      && (Flagged(id) ==> EndTimer(t, id, endAt, resumeAt) == t && t.callgraph == Open(es) + [id])
      && (Flagged(id) ==> ElapsedSeconds(t, id, true) == 0.0 && ElapsedSeconds(t, id, false) == 0.0)
  {
    hide After, WellNested, Open, Stacked, BeginTimer;
    var s, g := After(start, es), Open(es);
    StackFacts(s, g);
    BeginRecord(s, g, id, at, pauseAt, id);
    BeginShape(s, g, id, at, pauseAt);
    SilentAfter(start, es, id);
    assert Pop(g + [id]) == g;
  }

  lemma BeginShape(s: TimerState, g: seq<Id>, id: Id, at: real, pauseAt: real)
    requires Stacked(s, g) && g != [] && id !in g && HasTop(s)
    ensures var t := BeginTimer(s, id, at, pauseAt);
      t.callgraph == g + [id] && t.numBegins == |g| + 1 && CanResume(t)
  {
    assert g[|g| - 1] in s.timers;
  }
}
