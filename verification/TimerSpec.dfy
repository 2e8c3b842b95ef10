/** The nested timers as values: per timer the four running quantities and the recorded
    samples, and for all timers the stack of open ones. Clock readings are arguments, one
    for every place where the program reads the clock. */
module TimerSpec {

  datatype Id = Id(name: string)

  /** The catch-all timer begun on construction. */
  const GLOBAL := Id("GRVY_Unassigned")

  /** `timing` and `timingInc` are accumulated time, `stamp` and `stampInc` the latest
      timestamps (-1 once ended), `accumulated` what the current call had gathered when it
      was last paused, `stats` and `statsInc` the recorded samples. */
  datatype TimerData = TimerData(timing: real, stamp: real, timingInc: real, stampInc: real, accumulated: real,
                                 stats: seq<real>, statsInc: seq<real>)

  datatype TimerState = TimerState(timers: map<Id, TimerData>, numBegins: int, callgraph: seq<Id>)

  const EMPTY := TimerState(map[], 0, [])

  function Top(g: seq<Id>): Id
    requires g != []
  {
    g[|g| - 1]
  }

  function Pop(g: seq<Id>): seq<Id>
    requires g != []
  {
    g[..|g| - 1]
  }

  function PauseTimer(s: TimerState, id: Id, now: real): TimerState
    requires id in s.timers
  {
    var d := s.timers[id];
    s.(timers := s.timers[id := d.(accumulated := d.accumulated + (now - d.stamp))])
  }

  function ResumeTimer(s: TimerState, id: Id, now: real): TimerState
    requires id in s.timers
  {
    s.(timers := s.timers[id := s.timers[id].(stamp := now)])
  }

  /** A surrounding timer has to be there when one is paused or resumed. */
  predicate HasTop(s: TimerState) {
    s.callgraph != [] && Top(s.callgraph) in s.timers
  }

  /** The counter is compared with the size as an unsigned number. */
  predicate Exceeds(n: int, size: nat) {
    n < 0 || n > size
  }

  function BeginTimer(s: TimerState, id: Id, now: real, pauseNow: real): TimerState
    requires s.numBegins >= 2 ==> HasTop(s)
  {
    var n := s.numBegins + 1;
    var s1 := if n > 2 then PauseTimer(s, Top(s.callgraph), pauseNow) else s;
    var graph := if Exceeds(n, |s.callgraph|) then s.callgraph + [id] else s.callgraph;
    var d := if id in s1.timers then s1.timers[id].(stamp := now, stampInc := now, accumulated := 0.0)
             else TimerData(0.0, now, 0.0, now, 0.0, [], []);
    TimerState(s1.timers[id := d], n, graph)
  }

  function CloseTimer(d: TimerData, now: real): TimerData {
    var increment := (now - d.stamp) + d.accumulated;
    var incrementInc := now - d.stampInc;
    d.(timing := d.timing + increment, stamp := -1.0, stats := d.stats + [increment],
       timingInc := d.timingInc + incrementInc, stampInc := -1.0, statsInc := d.statsInc + [incrementInc])
  }

  /** The test meant to catch an end without a begin looks at the second character of the
      name, as a signed char, and not at the timestamp. */
  predicate Flagged(id: Id) {
    |id.name| >= 2 && id.name[1] as int >= 128
  }

  /** An end that is reported and otherwise ignored. */
  predicate Rejected(s: TimerState, id: Id) {
    id !in s.timers || Flagged(id)
  }

  /** A surrounding timer has to be there below the ended one when one is resumed. */
  predicate CanResume(s: TimerState) {
    s.numBegins > 2 ==> |s.callgraph| >= 2 && Top(Pop(s.callgraph)) in s.timers
  }

  function EndTimer(s: TimerState, id: Id, now: real, resumeNow: real): TimerState
    requires !Rejected(s, id) ==> CanResume(s)
  {
    if Rejected(s, id) then s
    else
      var s1 := s.(timers := s.timers[id := CloseTimer(s.timers[id], now)],
                   callgraph := if s.callgraph != [] then Pop(s.callgraph) else []);
      var s2 := if s.numBegins > 2 then ResumeTimer(s1, Top(s1.callgraph), resumeNow) else s1;
      s2.(numBegins := s.numBegins - 1)
  }

  function Cleared(d: TimerData): TimerData {
    d.(timing := 0.0, timingInc := 0.0, stats := [], statsInc := [])
  }

  /** The stack itself is not touched: with at most the global timer open, beginning that
      timer again leaves just it. */
  function Reset(s: TimerState, now: real): TimerState {
    var s1 := s.(timers := map id | id in s.timers :: Cleared(s.timers[id]), numBegins := 0);
    BeginTimer(s1, GLOBAL, now, now)
  }

  function Finalize(s: TimerState, now: real, resumeNow: real): TimerState
    requires !Rejected(s, GLOBAL) ==> CanResume(s)
  {
    EndTimer(s, GLOBAL, now, resumeNow)
  }

  /** A new timer object: the global timer runs. */
  function Construct(now: real): TimerState {
    BeginTimer(EMPTY, GLOBAL, now, now)
  }

  /** Zero, after a message, for a timer that is unknown or still active. */
  function ElapsedSeconds(s: TimerState, id: Id, exclusive: bool): real {
    if id !in s.timers then 0.0
    else if s.timers[id].stamp > 0.0 then 0.0
    else if exclusive then s.timers[id].timing
    else s.timers[id].timingInc
  }

  function Samples(s: TimerState, id: Id, exclusive: bool): seq<real> {
    if id !in s.timers then []
    else if exclusive then s.timers[id].stats
    else s.timers[id].statsInc
  }
}
