/** Whole runs of the nested timers against what they are for: a timer's exclusive time is
    the time it was innermost, its inclusive time the time it was open at all. */
module TimerRuns {
  import opened TimerSpec

  /** One call with its clock readings. Begin reads the clock for itself and, when it pauses
      a surrounding timer, again for that one; End likewise when it resumes one. */
  datatype Event =
    | Begin(id: Id, at: real, pauseAt: real)
    | End(id: Id, at: real, resumeAt: real)
    | Finish(at: real) // Finalize
    | Restart(at: real) // Reset

  /** The open timers, innermost last, after one more call. */
  function Moved(g: seq<Id>, e: Event): seq<Id> {
    match e
    case Begin(id, _, _) => g + [id]
    case End(_, _, _) => if g == [] then [] else Pop(g)
    case Finish(_) => []
    case Restart(_) => [GLOBAL]
  }

  /** Begins and ends match, no timer is begun while open, the global timer is open
      throughout, and it alone is when the run is finished or restarted. */
  predicate Matches(g: seq<Id>, e: Event) {
    match e
    case Begin(id, _, _) => g != [] && id !in g
    case End(id, _, _) => |g| >= 2 && id == Top(g)
    case Finish(_) => g == [GLOBAL]
    case Restart(_) => |g| <= 1
  }

  /** An end that the program drops, as it does when the second character of the name is
      negative. */
  predicate IsDropped(e: Event) {
    e.End? && Flagged(e.id)
  }

  predicate Fits(g: seq<Id>, e: Event) {
    Matches(g, e) && !IsDropped(e)
  }

  function Earlier(es: seq<Event>): (r: seq<Event>)
    requires es != []
    ensures |r| == |es| - 1
  {
    es[..|es| - 1]
  }

  function Last(es: seq<Event>): Event
    requires es != []
  {
    es[|es| - 1]
  }

  function Open(es: seq<Event>): seq<Id> {
    if es == [] then [GLOBAL] else Moved(Open(Earlier(es)), Last(es))
  }

  predicate WellNested(es: seq<Event>) {
    es == [] || (WellNested(Earlier(es)) && Fits(Open(Earlier(es)), Last(es)))
  }

  function Apply(s: TimerState, e: Event): TimerState
    requires Possible(s, e)
  {
    match e
    case Begin(id, at, pauseAt) => BeginTimer(s, id, at, pauseAt)
    case End(id, at, resumeAt) => EndTimer(s, id, at, resumeAt)
    case Finish(at) => Finalize(s, at, at)
    case Restart(at) => Reset(s, at)
  }

  predicate Possible(s: TimerState, e: Event) {
    match e
    case Begin(_, _, _) => s.numBegins >= 2 ==> HasTop(s)
    case End(id, _, _) => !Rejected(s, id) ==> CanResume(s)
    case Finish(_) => !Rejected(s, GLOBAL) ==> CanResume(s)
    case Restart(_) => true
  }

  /** The counter of active begins is the depth of the stack, and the stack holds exactly
      the open timers, the global one at the bottom. */
  ghost predicate Stacked(s: TimerState, g: seq<Id>) {
    && s.callgraph == g && s.numBegins == |g|
    && (forall i :: 0 <= i < |g| ==> g[i] in s.timers)
    && (forall i, k :: 0 <= i < k < |g| ==> g[i] != g[k])
    && (g != [] ==> g[0] == GLOBAL)
    && GLOBAL in s.timers
  }

  lemma GlobalNotFlagged()
    ensures !Flagged(GLOBAL)
  {
    assert GLOBAL.name[1] == 'R';
  }

  lemma StackFacts(s: TimerState, g: seq<Id>)
    requires Stacked(s, g)
    ensures s.callgraph == g && s.numBegins == |g| && GLOBAL in s.timers
    ensures g != [] ==> HasTop(s) && CanResume(s) && GLOBAL in g
    ensures !Flagged(GLOBAL)
  {
    GlobalNotFlagged();
    if g != [] {
      assert g[0] == GLOBAL;
      assert g[|g| - 1] in s.timers;
      if |g| >= 2 { assert g[|g| - 2] in s.timers; }
    }
  }

  lemma BeginStacked(s: TimerState, g: seq<Id>, id: Id, at: real, pauseAt: real)
    requires Stacked(s, g) && g != [] && id !in g
    ensures HasTop(s) && Stacked(BeginTimer(s, id, at, pauseAt), g + [id])
    ensures s.timers.Keys <= BeginTimer(s, id, at, pauseAt).timers.Keys
  {
    assert g[|g| - 1] in s.timers;
  }

  lemma EndStacked(s: TimerState, g: seq<Id>, at: real, resumeAt: real)
    requires Stacked(s, g) && g != [] && CanResume(s) && !Flagged(Top(g))
    ensures Stacked(EndTimer(s, Top(g), at, resumeAt), Pop(g))
    ensures s.timers.Keys == EndTimer(s, Top(g), at, resumeAt).timers.Keys
  {
    assert g[|g| - 1] in s.timers;
    if |g| >= 2 { assert g[|g| - 2] in s.timers; }
  }

  lemma ResetStacked(s: TimerState, g: seq<Id>, at: real)
    requires Stacked(s, g) && |g| <= 1
    ensures Stacked(Reset(s, at), [GLOBAL]) && s.timers.Keys == Reset(s, at).timers.Keys
  {
    assert |g| == 1 ==> g == [GLOBAL];
  }

  lemma StackedStep(s: TimerState, g: seq<Id>, e: Event)
    requires Stacked(s, g) && Fits(g, e)
    ensures Possible(s, e) && Stacked(Apply(s, e), Moved(g, e))
    ensures s.timers.Keys <= Apply(s, e).timers.Keys
  {
    hide Stacked, BeginTimer, EndTimer, Reset;
    StackFacts(s, g);
    match e
    case Begin(id, at, pauseAt) => BeginStacked(s, g, id, at, pauseAt);
    case End(id, at, resumeAt) => EndStacked(s, g, at, resumeAt);
    case Finish(at) => EndStacked(s, g, at, at);
    case Restart(at) => ResetStacked(s, g, at);
  }

  lemma ConstructStacked(start: real)
    ensures Stacked(Construct(start), [GLOBAL])
  {
  }

  /** The state a well-nested run leads to from a newly constructed timer object. */
  ghost function After(start: real, es: seq<Event>): (s: TimerState)
    requires WellNested(es)
    ensures Stacked(s, Open(es))
  {
    hide Stacked, Apply;
    if es == [] then
      ConstructStacked(start);
      Construct(start)
    else
      StackedStep(After(start, Earlier(es)), Open(Earlier(es)), Last(es));
      Apply(After(start, Earlier(es)), Last(es))
  }

  // ------------------------------------------------------------------------------
  // The time a timer is innermost, and the time it is open
  // ------------------------------------------------------------------------------

  function Now(start: real, es: seq<Event>): real {
    if es == [] then start else Last(es).at
  }

  predicate Innermost(g: seq<Id>, id: Id) {
    g != [] && Top(g) == id
  }

  /** The summed length, since the last restart, of the intervals between events during
      which the timer was the innermost open one. */
  function Exclusive(start: real, es: seq<Event>, id: Id): real {
    if es == [] || Last(es).Restart? then 0.0
    else
      Exclusive(start, Earlier(es), id) +
      if Innermost(Open(Earlier(es)), id) then Now(start, es) - Now(start, Earlier(es)) else 0.0
  }

  /** ... during which it was open at all. */
  function Inclusive(start: real, es: seq<Event>, id: Id): real {
    if es == [] || Last(es).Restart? then 0.0
    else
      Inclusive(start, Earlier(es), id) +
      if id in Open(Earlier(es)) then Now(start, es) - Now(start, Earlier(es)) else 0.0
  }

  /** One clock reading per call. */
  predicate NoLag(e: Event) {
    (e.Begin? ==> e.pauseAt == e.at) && (e.End? ==> e.resumeAt == e.at)
  }

  predicate Lagless(es: seq<Event>) {
    es == [] || (Lagless(Earlier(es)) && NoLag(Last(es)))
  }

  /** What the four quantities of a timer say about its inclusive time so far. */
  predicate IncBooks(s: TimerState, g: seq<Id>, now: real, id: Id, inc: real) {
    if id !in s.timers then id !in g && inc == 0.0
    else
      var d := s.timers[id];
      inc == d.timingInc + (if id in g then now - d.stampInc else 0.0)
      && (id !in g ==> d.stamp == -1.0 && d.stampInc == -1.0)
  }

  /** ... and about its exclusive time. The global timer is never paused: what it adds up
      is the time it was open. */
  predicate ExcBooks(s: TimerState, g: seq<Id>, now: real, id: Id, exc: real) {
    if id !in s.timers then id !in g && exc == 0.0
    else
      var d := s.timers[id];
      exc == d.timing + if id !in g then 0.0
                        else if id == GLOBAL || Innermost(g, id) then d.accumulated + (now - d.stamp)
                        else d.accumulated
  }

  predicate Gathers(g: seq<Id>, id: Id) {
    g != [] && (id == GLOBAL || Innermost(g, id))
  }

  /** What a begin does to each timer's record. */
  lemma BeginRecord(s: TimerState, g: seq<Id>, next: Id, at: real, pauseAt: real, id: Id)
    requires Stacked(s, g) && g != [] && next !in g && HasTop(s)
    ensures var t := BeginTimer(s, next, at, pauseAt);
      && (id in t.timers <==> id in s.timers || id == next)
      && next in t.timers
      && (id in s.timers && id != next ==>
            t.timers[id] == if |g| >= 2 && id == Top(g)
                            then s.timers[id].(accumulated := s.timers[id].accumulated + (pauseAt - s.timers[id].stamp))
                            else s.timers[id])
      && t.timers[next] == (if next in s.timers then s.timers[next].(stamp := at, stampInc := at, accumulated := 0.0)
                            else TimerData(0.0, at, 0.0, at, 0.0, [], []))
  {
    assert g[|g| - 1] in s.timers;
  }

  /** ... and an end of the innermost one. */
  lemma EndRecord(s: TimerState, g: seq<Id>, at: real, resumeAt: real, id: Id)
    requires Stacked(s, g) && g != [] && id in s.timers && CanResume(s) && !Flagged(Top(g))
    ensures var t := EndTimer(s, Top(g), at, resumeAt);
      id in t.timers && t.timers[id] == if id == Top(g) then CloseTimer(s.timers[id], at)
                                        else if |g| > 2 && id == Top(Pop(g)) then s.timers[id].(stamp := resumeAt)
                                        else s.timers[id]
  {
    assert g[|g| - 1] in s.timers;
    if |g| > 2 { assert g[|g| - 2] != g[|g| - 1]; }
  }

  /** The bottom is the global timer and the top is not below itself. */
  lemma StackEnds(s: TimerState, g: seq<Id>, id: Id)
    requires Stacked(s, g) && g != []
    ensures |g| > 1 ==> Top(g) != GLOBAL && Top(Pop(g)) in Pop(g) && Top(Pop(g)) != Top(g)
    ensures |g| > 2 ==> Top(Pop(g)) != GLOBAL
    ensures |g| == 2 ==> Top(Pop(g)) == GLOBAL
    ensures |g| == 1 ==> Top(g) == GLOBAL
    ensures id in g ==> id in s.timers
    ensures id in Pop(g) <==> id in g && id != Top(g)
  {
    assert g[0] == GLOBAL && g == Pop(g) + [Top(g)];
    if |g| > 1 { assert Top(Pop(g)) == g[|g| - 2]; }
  }

  /** What the second clock reading of a call adds to a timer's exclusive time: it is paused
      later than the begun one starts, or resumed later than the ended one stops. */
  function Lag(g: seq<Id>, e: Event, id: Id): real {
    match e
    case Begin(_, at, pauseAt) => if |g| >= 2 && id == Top(g) then pauseAt - at else 0.0
    case End(_, at, resumeAt) => if |g| > 2 && id == Top(Pop(g)) then at - resumeAt else 0.0
    case Finish(_) => 0.0
    case Restart(_) => 0.0
  }

  /** ... over a run, since its last restart. */
  function Lags(es: seq<Event>, id: Id): real {
    if es == [] || Last(es).Restart? then 0.0 else Lags(Earlier(es), id) + Lag(Open(Earlier(es)), Last(es), id)
  }

  lemma BeginBooks(s: TimerState, g: seq<Id>, now: real, next: Id, at: real, pauseAt: real, id: Id, exc: real)
    requires Stacked(s, g) && g != [] && next !in g && HasTop(s)
    requires ExcBooks(s, g, now, id, exc)
    ensures ExcBooks(BeginTimer(s, next, at, pauseAt), g + [next], at, id,
                     exc + (if Gathers(g, id) then at - now else 0.0) + Lag(g, Begin(next, at, pauseAt), id))
  {
    hide Stacked, BeginTimer;
    BeginRecord(s, g, next, at, pauseAt, id);
    StackEnds(s, g, id);
    StackFacts(s, g);
    assert Top(g + [next]) == next && (id in g + [next] <==> id in g || id == next);
  }

  lemma EndBooks(s: TimerState, g: seq<Id>, now: real, at: real, resumeAt: real, id: Id, exc: real)
    requires Stacked(s, g) && g != [] && ExcBooks(s, g, now, id, exc) && CanResume(s) && !Flagged(Top(g))
    ensures ExcBooks(EndTimer(s, Top(g), at, resumeAt), Pop(g), at, id,
                     exc + (if Gathers(g, id) then at - now else 0.0) + Lag(g, End(Top(g), at, resumeAt), id))
  {
    hide Stacked, EndTimer;
    StackEnds(s, g, id);
    StackFacts(s, g);
    EndStacked(s, g, at, resumeAt);
    if id in s.timers { EndRecord(s, g, at, resumeAt, id); }
  }

  lemma RestartBooks(s: TimerState, g: seq<Id>, now: real, at: real, id: Id, inc: real)
    requires Stacked(s, g) && |g| <= 1 && IncBooks(s, g, now, id, inc)
    ensures ExcBooks(Reset(s, at), [GLOBAL], at, id, 0.0) && IncBooks(Reset(s, at), [GLOBAL], at, id, 0.0)
  {
    assert |g| == 1 ==> g == [GLOBAL];
  }

  lemma BeginIncBooks(s: TimerState, g: seq<Id>, now: real, next: Id, at: real, pauseAt: real, id: Id, inc: real)
    requires Stacked(s, g) && g != [] && next !in g && HasTop(s) && IncBooks(s, g, now, id, inc)
    ensures IncBooks(BeginTimer(s, next, at, pauseAt), g + [next], at, id, inc + if id in g then at - now else 0.0)
  {
    hide Stacked, BeginTimer;
    BeginRecord(s, g, next, at, pauseAt, id);
    StackEnds(s, g, id);
    assert id in g + [next] <==> id in g || id == next;
  }

  lemma EndIncBooks(s: TimerState, g: seq<Id>, now: real, at: real, resumeAt: real, id: Id, inc: real)
    requires Stacked(s, g) && g != [] && IncBooks(s, g, now, id, inc) && CanResume(s) && !Flagged(Top(g))
    ensures IncBooks(EndTimer(s, Top(g), at, resumeAt), Pop(g), at, id, inc + if id in g then at - now else 0.0)
  {
    hide Stacked, EndTimer;
    StackEnds(s, g, id);
    EndStacked(s, g, at, resumeAt);
    if id in s.timers { EndRecord(s, g, at, resumeAt, id); }
  }

  lemma IncStep(s: TimerState, g: seq<Id>, now: real, e: Event, id: Id, inc: real)
    requires Stacked(s, g) && Fits(g, e) && Possible(s, e) && IncBooks(s, g, now, id, inc)
    ensures IncBooks(Apply(s, e), Moved(g, e), e.at, id,
                     if e.Restart? then 0.0 else inc + if id in g then e.at - now else 0.0)
  {
    hide Stacked, BeginTimer, EndTimer, Reset, IncBooks;
    StackFacts(s, g);
    match e
    case Begin(next, at, pauseAt) => BeginIncBooks(s, g, now, next, at, pauseAt, id, inc);
    case End(_, at, resumeAt) => EndIncBooks(s, g, now, at, resumeAt, id, inc);
    case Finish(at) => EndIncBooks(s, g, now, at, at, id, inc);
    case Restart(at) => RestartBooks(s, g, now, at, id, inc);
  }

  lemma ExcStep(s: TimerState, g: seq<Id>, now: real, e: Event, id: Id, exc: real, inc: real)
    requires Stacked(s, g) && Fits(g, e) && Possible(s, e)
    requires ExcBooks(s, g, now, id, exc) && IncBooks(s, g, now, id, inc)
    ensures ExcBooks(Apply(s, e), Moved(g, e), e.at, id,
                     if e.Restart? then 0.0 else exc + (if Gathers(g, id) then e.at - now else 0.0) + Lag(g, e, id))
  {
    hide Stacked, BeginTimer, EndTimer, Reset, IncBooks, ExcBooks, Gathers;
    StackFacts(s, g);
    match e
    case Begin(next, at, pauseAt) => BeginBooks(s, g, now, next, at, pauseAt, id, exc);
    case End(_, at, resumeAt) => EndBooks(s, g, now, at, resumeAt, id, exc);
    case Finish(at) => EndBooks(s, g, now, at, at, id, exc);
    case Restart(at) => RestartBooks(s, g, now, at, id, inc);
  }

  /** What the program adds up under an id: for the global timer the time it is open. */
  function Credit(start: real, es: seq<Event>, id: Id): real {
    if id == GLOBAL then Inclusive(start, es, id) else Exclusive(start, es, id)
  }

  /** The last event of a run, one step at a time. */
  lemma LastStep(start: real, es: seq<Event>)
    requires WellNested(es) && es != []
    ensures WellNested(Earlier(es)) && Fits(Open(Earlier(es)), Last(es))
    ensures Stacked(After(start, Earlier(es)), Open(Earlier(es)))
    ensures Possible(After(start, Earlier(es)), Last(es))
    ensures After(start, es) == Apply(After(start, Earlier(es)), Last(es))
    ensures Open(es) == Moved(Open(Earlier(es)), Last(es)) && Now(start, es) == Last(es).at
    ensures Lagless(es) ==> Lagless(Earlier(es)) && NoLag(Last(es))
  {
    hide Stacked, Apply, Fits, Moved, NoLag;
    StackedStep(After(start, Earlier(es)), Open(Earlier(es)), Last(es));
  }

  lemma LastInclusive(start: real, es: seq<Event>, id: Id)
    requires es != []
    ensures Inclusive(start, es, id) ==
      if Last(es).Restart? then 0.0
      else Inclusive(start, Earlier(es), id) +
           if id in Open(Earlier(es)) then Last(es).at - Now(start, Earlier(es)) else 0.0
  {
    hide Open;
  }

  lemma LastCredit(start: real, es: seq<Event>, id: Id)
    requires es != [] && (Open(Earlier(es)) != [] ==> GLOBAL in Open(Earlier(es)))
    ensures Credit(start, es, id) ==
      if Last(es).Restart? then 0.0
      else Credit(start, Earlier(es), id) +
           if Gathers(Open(Earlier(es)), id) then Last(es).at - Now(start, Earlier(es)) else 0.0
  {
    hide Open, Inclusive;
    LastInclusive(start, es, id);
  }

  lemma {:induction false} IncBooksHold(start: real, es: seq<Event>, id: Id)
    requires WellNested(es)
    ensures IncBooks(After(start, es), Open(es), Now(start, es), id, Inclusive(start, es, id))
    decreases |es|
  {
    if es != [] {
      hide Earlier, Last, After, Open, Inclusive, WellNested, Apply, Possible, Stacked, IncBooks, Fits, Moved, Now;
      LastStep(start, es);
      LastInclusive(start, es, id);
      var p := Earlier(es);
      IncBooksHold(start, p, id);
      IncStep(After(start, p), Open(p), Now(start, p), Last(es), id, Inclusive(start, p, id));
    }
  }

  /** What the program adds up, the lags of its clock readings included. */
  function Booked(start: real, es: seq<Event>, id: Id): real {
    Credit(start, es, id) + Lags(es, id)
  }

  lemma LastBooked(start: real, es: seq<Event>, id: Id)
    requires es != [] && (Open(Earlier(es)) != [] ==> GLOBAL in Open(Earlier(es)))
    ensures Booked(start, es, id) ==
      if Last(es).Restart? then 0.0
      else Booked(start, Earlier(es), id)
           + (if Gathers(Open(Earlier(es)), id) then Last(es).at - Now(start, Earlier(es)) else 0.0)
           + Lag(Open(Earlier(es)), Last(es), id)
  {
    hide Open, Credit, Lag, Gathers;
    LastCredit(start, es, id);
  }

  ghost predicate BooksAt(start: real, es: seq<Event>, id: Id)
    requires WellNested(es)
  {
    ExcBooks(After(start, es), Open(es), Now(start, es), id, Booked(start, es, id))
  }

  lemma BooksStep(start: real, es: seq<Event>, id: Id)
    requires WellNested(es) && es != [] && WellNested(Earlier(es)) && BooksAt(start, Earlier(es), id)
    ensures BooksAt(start, es, id)
  {
    hide Earlier, Last, After, Open, Inclusive, Booked, WellNested, Apply, Possible, Stacked, IncBooks, ExcBooks, Fits,
         Moved, Now, Gathers, Lag;
    LastStep(start, es);
    var p := Earlier(es);
    StackFacts(After(start, p), Open(p));
    LastBooked(start, es, id);
    IncBooksHold(start, p, id);
    ExcStep(After(start, p), Open(p), Now(start, p), Last(es), id, Booked(start, p, id), Inclusive(start, p, id));
  }

  /** The books hold for every well-nested run. */
  lemma {:induction false} BooksHold(start: real, es: seq<Event>, id: Id)
    requires WellNested(es)
    ensures BooksAt(start, es, id)
    decreases |es|
  {
    if es != [] {
      hide After, Booked, Open, BooksAt;
      BooksHold(start, Earlier(es), id);
      BooksStep(start, es, id);
    }
  }

  lemma {:induction false} LaglessHasNoLags(es: seq<Event>, id: Id)
    requires Lagless(es)
    ensures Lags(es, id) == 0.0
    decreases |es|
  {
    if es != [] { LaglessHasNoLags(Earlier(es), id); }
  }

  lemma ExcBooksHold(start: real, es: seq<Event>, id: Id)
    requires WellNested(es) && Lagless(es)
    ensures ExcBooks(After(start, es), Open(es), Now(start, es), id, Credit(start, es, id))
  {
    hide After, Open, Credit, Lags, Lagless, ExcBooks;
    BooksHold(start, es, id);
    LaglessHasNoLags(es, id);
  }

  /** In every well-nested run the inclusive reading of a closed timer is the time it was
      open ... */
  lemma InclusiveReading(start: real, es: seq<Event>, id: Id)
    requires WellNested(es) && id !in Open(es)
    ensures ElapsedSeconds(After(start, es), id, false) == Inclusive(start, es, id)
  {
    hide After;
    IncBooksHold(start, es, id);
  }

  /** ... and the exclusive reading of a closed user timer is the time it was innermost, but
      for the lags of the second clock readings: each pause of it adds the time from the begin
      to the pause, each resumption takes off the time from the end to the resumption. With
      one clock reading per call it is the time it was innermost. The global timer, never
      paused, reads the time it was open. */
  lemma ExclusiveReading(start: real, es: seq<Event>, id: Id)
    requires WellNested(es) && id !in Open(es)
    ensures ElapsedSeconds(After(start, es), id, true) ==
            (if id == GLOBAL then Inclusive(start, es, id) else Exclusive(start, es, id)) + Lags(es, id)
    ensures Lagless(es) || id == GLOBAL ==> Lags(es, id) == 0.0
  {
    hide After;
    IncBooksHold(start, es, id);
    BooksHold(start, es, id);
    if Lagless(es) { LaglessHasNoLags(es, id); }
    if id == GLOBAL { GlobalHasNoLags(start, es); }
  }

  lemma {:induction false} GlobalHasNoLags(start: real, es: seq<Event>)
    requires WellNested(es)
    ensures Lags(es, GLOBAL) == 0.0
    decreases |es|
  {
    if es != [] {
      hide After, Open, Stacked, Fits, Moved, Apply, Possible;
      LastStep(start, es);
      GlobalHasNoLags(start, Earlier(es));
      if Open(Earlier(es)) != [] { StackEnds(After(start, Earlier(es)), Open(Earlier(es)), GLOBAL); }
    }
  }

  // ------------------------------------------------------------------------------
  // Timers that are active
  // ------------------------------------------------------------------------------

  /** Every clock reading that is kept as a timestamp is positive. */
  predicate Positive(start: real, es: seq<Event>) {
    if es == [] then start > 0.0
    else Positive(start, Earlier(es)) && Last(es).at > 0.0 && (Last(es).End? ==> Last(es).resumeAt > 0.0)
  }

  predicate Stamped(s: TimerState, g: seq<Id>, id: Id) {
    id in g ==> id in s.timers && s.timers[id].stamp > 0.0
  }

  lemma ResetStamps(s: TimerState, at: real)
    requires at > 0.0
    ensures Stamped(Reset(s, at), [GLOBAL], GLOBAL)
  {
  }

  lemma StampedStep(s: TimerState, g: seq<Id>, e: Event, id: Id)
    requires Stacked(s, g) && Fits(g, e) && Possible(s, e) && Stamped(s, g, id)
    requires e.at > 0.0 && (e.End? ==> e.resumeAt > 0.0)
    ensures Stamped(Apply(s, e), Moved(g, e), id)
  {
    hide Stacked, BeginTimer, EndTimer, Reset;
    StackFacts(s, g);
    match e
    case Begin(next, at, pauseAt) =>
      BeginRecord(s, g, next, at, pauseAt, id);
      assert id in g + [next] <==> id in g || id == next;
    case End(_, at, resumeAt) =>
      StackEnds(s, g, id);
      if id in g { EndRecord(s, g, at, resumeAt, id); }
    case Finish(_) =>
    case Restart(at) => ResetStamps(s, at);
  }

  lemma {:induction false} OpenIsStamped(start: real, es: seq<Event>, id: Id)
    requires WellNested(es) && Positive(start, es)
    ensures Stamped(After(start, es), Open(es), id)
    decreases |es|
  {
    if es != [] {
      hide Earlier, Last, After, Open, WellNested, Apply, Possible, Stacked, Stamped, Fits, Moved;
      LastStep(start, es);
      OpenIsStamped(start, Earlier(es), id);
      StampedStep(After(start, Earlier(es)), Open(Earlier(es)), Last(es), id);
    }
  }

  /** In every well-nested run with positive clock readings a timer reads the time it was
      charged with exactly when it is closed, and zero while it is open, however often it was
      begun and ended before. */
  lemma {:induction false} ReadingExactly(start: real, es: seq<Event>, id: Id)
    requires WellNested(es) && Positive(start, es)
    ensures ElapsedSeconds(After(start, es), id, false) == if id in Open(es) then 0.0 else Inclusive(start, es, id)
    ensures ElapsedSeconds(After(start, es), id, true) == if id in Open(es) then 0.0 else Booked(start, es, id)
  {
    hide After, Open, Inclusive, Lags, WellNested, Positive;
    if id in Open(es) {
      OpenIsStamped(start, es, id);
    } else {
      InclusiveReading(start, es, id);
      ExclusiveReading(start, es, id);
    }
  }

  /** A clock reading of zero or less does not mark a timer as active: just begun, the timer
      reads zero for a positive reading, and otherwise what it read before. */
  lemma {:induction false} BegunReads(start: real, es: seq<Event>, id: Id, at: real, pauseAt: real, exclusive: bool)
    requires WellNested(es) && Open(es) != [] && id !in Open(es)
    ensures HasTop(After(start, es))
    ensures ElapsedSeconds(BeginTimer(After(start, es), id, at, pauseAt), id, exclusive) ==
            if at > 0.0 then 0.0 else ElapsedSeconds(After(start, es), id, exclusive)
  {
    hide After, Open, Inclusive, WellNested, BeginTimer, Stacked;
    StackFacts(After(start, es), Open(es));
    BeginRecord(After(start, es), Open(es), id, at, pauseAt, id);
    IncBooksHold(start, es, id);
  }
}
