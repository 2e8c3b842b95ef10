/** The report: user timers by descending exclusive time, then what is left of the global
    one. A sorted map keyed by the time alone gives timers of equal time one line. */
module TimerSummary {
  import opened Wrappers
  import opened TimerSpec
  import opened TimerRuns
  import opened TimerLaws

  datatype Entry = Entry(seconds: real, id: Id)

  datatype Line = Line(id: Id, seconds: real, percent: Option<real>)

  datatype Report = Report(lines: seq<Line>, unassigned: Line, total: real, totalPercent: Option<real>, warned: bool)

  const PERCENT_TOLERANCE := 0.001

  /** The order of the sorted map. */
  predicate HighLow(a: real, b: real) {
    a - b > 0.0
  }

  /** The order of the map of timers: names by their characters, as unsigned numbers. */
  predicate Before(a: string, b: string) {
    b != "" && (a == "" || a[0] < b[0] || (a[0] == b[0] && Before(a[1..], b[1..])))
  }

  predicate Alphabetical(ids: seq<Id>) {
    forall i, k :: 0 <= i < k < |ids| ==> Before(ids[i].name, ids[k].name)
  }

  lemma {:induction false} BeforeOnce(a: string, b: string)
    ensures Before(a, b) ==> !Before(b, a) && a != b
  {
    if a != "" && b != "" { BeforeOnce(a[1..], b[1..]); }
  }

  lemma {:induction false} BeforeOrAfter(a: string, b: string)
    ensures a == b || Before(a, b) || Before(b, a)
  {
    if a != "" && b != "" && a[0] == b[0] {
      BeforeOrAfter(a[1..], b[1..]);
      assert a == [a[0]] + a[1..] && b == [b[0]] + b[1..];
    }
  }

  lemma {:induction false} BeforeThen(a: string, b: string, c: string)
    requires Before(a, b) && Before(b, c)
    ensures Before(a, c)
  {
    if a != "" && a[0] == b[0] == c[0] { BeforeThen(a[1..], b[1..], c[1..]); }
  }

  predicate IsFirst(ids: set<Id>, first: Id) {
    first in ids && forall id :: id in ids ==> id == first || Before(first.name, id.name)
  }

  lemma {:induction false} FirstExists(ids: set<Id>)
    requires ids != {}
    ensures exists first :: IsFirst(ids, first)
    decreases |ids|
  {
    var id :| id in ids;
    if ids == {id} {
      assert IsFirst(ids, id);
    } else {
      FirstExists(ids - {id});
      var m :| IsFirst(ids - {id}, m);
      BeforeOrAfter(id.name, m.name);
      if Before(id.name, m.name) {
        forall x | x in ids && x != id && x != m ensures Before(id.name, x.name) {
          BeforeThen(id.name, m.name, x.name);
        }
        assert IsFirst(ids, id);
      } else {
        assert IsFirst(ids, m);
      }
    }
  }

  /** Assignment into the sorted map, kept as the sequence its iterator visits: the name of
      an equivalent key is overwritten. */
  function Insert(list: seq<Entry>, id: Id, t: real): seq<Entry> {
    if list == [] then [Entry(t, id)]
    else if HighLow(list[0].seconds, t) then [list[0]] + Insert(list[1..], id, t)
    else if HighLow(t, list[0].seconds) then [Entry(t, id)] + list
    else [list[0].(id := id)] + list[1..]
  }

  predicate Known(timers: map<Id, TimerData>, ids: seq<Id>) {
    forall id :: id in ids ==> id in timers
  }

  function Sorted(timers: map<Id, TimerData>, ids: seq<Id>): seq<Entry>
    requires Known(timers, ids)
  {
    if ids == [] then []
    else
      var last := ids[|ids| - 1];
      var list := Sorted(timers, ids[..|ids| - 1]);
      if last == GLOBAL then list else Insert(list, last, timers[last].timing)
  }

  predicate Descending(list: seq<Entry>) {
    forall i, k :: 0 <= i < k < |list| ==> list[i].seconds > list[k].seconds
  }

  predicate Lists(list: seq<Entry>, t: real) {
    exists e :: e in list && e.seconds == t
  }

  function Total(list: seq<Entry>): real {
    if list == [] then 0.0 else list[0].seconds + Total(list[1..])
  }

  /** Which lines an assignment leaves. */
  lemma {:induction false} InsertMembers(list: seq<Entry>, id: Id, t: real, e: Entry)
    requires Descending(list)
    ensures e in Insert(list, id, t) <==> e == Entry(t, id) || (e in list && e.seconds != t)
  {
    if list != [] {
      assert list == [list[0]] + list[1..];
      if list[0].seconds > t { InsertMembers(list[1..], id, t, e); }
    }
  }

  lemma {:induction false} InsertDescending(list: seq<Entry>, id: Id, t: real)
    requires Descending(list)
    ensures Descending(Insert(list, id, t))
    ensures list != [] ==> Insert(list, id, t)[0].seconds == if list[0].seconds >= t then list[0].seconds else t
  {
    if list != [] && list[0].seconds > t { InsertDescending(list[1..], id, t); }
  }

  lemma {:induction false} InsertTotal(list: seq<Entry>, id: Id, t: real)
    requires Descending(list)
    ensures Total(Insert(list, id, t)) == Total(list) + if Lists(list, t) then 0.0 else t
  {
    if list != [] {
      ListsHead(list, t);
      if list[0].seconds > t {
        InsertTotal(list[1..], id, t);
        assert Insert(list, id, t)[1..] == Insert(list[1..], id, t);
      } else if list[0].seconds < t {
        assert Insert(list, id, t)[1..] == list;
      } else {
        assert Insert(list, id, t)[1..] == list[1..];
      }
    }
  }

  lemma ListsHead(list: seq<Entry>, t: real)
    requires Descending(list) && list != []
    ensures Lists(list, t) <==> list[0].seconds == t || Lists(list[1..], t)
    ensures list[0].seconds < t ==> !Lists(list, t)
  {
    if Lists(list, t) {
      var e :| e in list && e.seconds == t;
      assert list == [list[0]] + list[1..];
      assert e == list[0] || e in list[1..];
    }
  }

  /** The last timer, in the order visited, that has this time. */
  predicate Shown(timers: map<Id, TimerData>, ids: seq<Id>, e: Entry)
    requires Known(timers, ids)
  {
    exists k :: 0 <= k < |ids| && ids[k] == e.id && e.id != GLOBAL && timers[e.id].timing == e.seconds
                && NotAfter(timers, ids, k, e.seconds)
  }

  predicate NotAfter(timers: map<Id, TimerData>, ids: seq<Id>, k: int, t: real)
    requires Known(timers, ids) && 0 <= k < |ids|
  {
    forall j :: k < j < |ids| ==> ids[j] == GLOBAL || timers[ids[j]].timing != t
  }

  predicate Seen(timers: map<Id, TimerData>, ids: seq<Id>, t: real)
    requires Known(timers, ids)
  {
    exists k :: 0 <= k < |ids| && ids[k] != GLOBAL && timers[ids[k]].timing == t
  }

  lemma ShownGrows(timers: map<Id, TimerData>, ids: seq<Id>, last: Id, e: Entry)
    requires Known(timers, ids + [last])
    ensures Shown(timers, ids + [last], e) <==>
            if last == GLOBAL then Shown(timers, ids, e)
            else e == Entry(timers[last].timing, last) || (Shown(timers, ids, e) && e.seconds != timers[last].timing)
  {
    var longer := ids + [last];
    assert longer[|ids|] == last;
    if Shown(timers, ids, e) && (last == GLOBAL || e.seconds != timers[last].timing) {
      var k :| 0 <= k < |ids| && ids[k] == e.id && NotAfter(timers, ids, k, e.seconds);
      assert longer[k] == e.id && NotAfter(timers, longer, k, e.seconds);
    }
    if e == Entry(timers[last].timing, last) && last != GLOBAL {
      assert NotAfter(timers, longer, |ids|, e.seconds);
    }
    if Shown(timers, longer, e) {
      var k :| 0 <= k < |longer| && longer[k] == e.id && timers[e.id].timing == e.seconds
               && NotAfter(timers, longer, k, e.seconds);
      if k < |ids| {
        assert ids[k] == e.id && forall j :: k < j < |ids| ==> ids[j] == longer[j];
        assert NotAfter(timers, ids, k, e.seconds);
      }
    }
  }

  lemma {:induction false} SeenIsShown(timers: map<Id, TimerData>, ids: seq<Id>, t: real)
    requires Known(timers, ids)
    ensures Seen(timers, ids, t) <==> exists e :: Shown(timers, ids, e) && e.seconds == t
  {
    if ids != [] {
      var n := |ids| - 1;
      var p := ids[..n];
      assert ids == p + [ids[n]];
      SeenIsShown(timers, p, t);
      if Seen(timers, ids, t) {
        if ids[n] != GLOBAL && timers[ids[n]].timing == t {
          ShownGrows(timers, p, ids[n], Entry(t, ids[n]));
        } else {
          var k :| 0 <= k < |ids| && ids[k] != GLOBAL && timers[ids[k]].timing == t;
          assert k < n && p[k] == ids[k];
          var e :| Shown(timers, p, e) && e.seconds == t;
          ShownGrows(timers, p, ids[n], e);
        }
      }
    }
  }

  /** The list is strictly descending, with exactly one line for each time that some user
      timer has, under the name of the last such timer. */
  lemma {:induction false} ListIsOnePerTime(timers: map<Id, TimerData>, ids: seq<Id>)
    requires Known(timers, ids)
    ensures Descending(Sorted(timers, ids))
    ensures forall e :: e in Sorted(timers, ids) <==> Shown(timers, ids, e)
  {
    if ids != [] {
      hide Descending, Shown;
      var n := |ids| - 1;
      ListIsOnePerTime(timers, ids[..n]);
      assert ids == ids[..n] + [ids[n]];
      var list := Sorted(timers, ids[..n]);
      if ids[n] != GLOBAL { InsertDescending(list, ids[n], timers[ids[n]].timing); }
      forall e ensures e in Sorted(timers, ids) <==> Shown(timers, ids, e) {
        if ids[n] != GLOBAL { InsertMembers(list, ids[n], timers[ids[n]].timing, e); }
        ShownGrows(timers, ids[..n], ids[n], e);
      }
    } else {
      forall e ensures !Shown(timers, ids, e) {}
    }
  }

  /** The times of the timers that lost their line to another of the same time. */
  function Merged(timers: map<Id, TimerData>, ids: seq<Id>): real
    requires Known(timers, ids)
  {
    if ids == [] then 0.0
    else
      var last := ids[|ids| - 1];
      Merged(timers, ids[..|ids| - 1]) +
      if last != GLOBAL && Seen(timers, ids[..|ids| - 1], timers[last].timing) then timers[last].timing else 0.0
  }

  lemma {:induction false} ListedTime(timers: map<Id, TimerData>, ids: seq<Id>)
    requires Known(timers, ids)
    ensures Total(Sorted(timers, ids)) == UserTime(timers, ids) - Merged(timers, ids)
  {
    if ids != [] {
      hide Descending, Shown, Seen, Total, Insert;
      var n := |ids| - 1;
      var p := ids[..n];
      ListedTime(timers, p);
      ListIsOnePerTime(timers, p);
      if ids[n] != GLOBAL {
        var t := timers[ids[n]].timing;
        InsertTotal(Sorted(timers, p), ids[n], t);
        SeenIsShown(timers, p, t);
      }
    }
  }

  predicate PairwiseDistinctTimes(timers: map<Id, TimerData>, ids: seq<Id>)
    requires Known(timers, ids)
  {
    forall i, k :: 0 <= i < k < |ids| && ids[i] != GLOBAL && ids[k] != GLOBAL ==>
      timers[ids[i]].timing != timers[ids[k]].timing
  }

  predicate PositiveTimes(timers: map<Id, TimerData>, ids: seq<Id>)
    requires Known(timers, ids)
  {
    forall id :: id in ids && id != GLOBAL ==> timers[id].timing > 0.0
  }

  lemma DistinctTimesGrow(timers: map<Id, TimerData>, ids: seq<Id>, last: Id)
    requires Known(timers, ids + [last]) && Known(timers, ids) && last in timers
    ensures PairwiseDistinctTimes(timers, ids + [last]) <==>
            PairwiseDistinctTimes(timers, ids) && (last == GLOBAL || !Seen(timers, ids, timers[last].timing))
  {
    var longer := ids + [last];
    assert longer[|ids|] == last && forall i :: 0 <= i < |ids| ==> longer[i] == ids[i];
  }

  lemma PositiveTimesGrow(timers: map<Id, TimerData>, ids: seq<Id>, last: Id)
    requires Known(timers, ids + [last]) && Known(timers, ids) && last in timers
    ensures PositiveTimes(timers, ids + [last]) <==>
            PositiveTimes(timers, ids) && (last == GLOBAL || timers[last].timing > 0.0)
  {
    assert last in ids + [last] && forall id :: id in ids ==> id in ids + [last];
  }

  /** Nothing is merged when no two times are equal, and, among positive times, only then. */
  lemma {:induction false} MergedExactly(timers: map<Id, TimerData>, ids: seq<Id>)
    requires Known(timers, ids)
    ensures PairwiseDistinctTimes(timers, ids) ==> Merged(timers, ids) == 0.0
    ensures PositiveTimes(timers, ids) ==> Merged(timers, ids) >= 0.0
    ensures PositiveTimes(timers, ids) && Merged(timers, ids) == 0.0 ==> PairwiseDistinctTimes(timers, ids)
  {
    if ids != [] {
      hide PairwiseDistinctTimes, PositiveTimes, Seen;
      var n := |ids| - 1;
      assert ids == ids[..n] + [ids[n]] && ids[n] in ids;
      MergedExactly(timers, ids[..n]);
      DistinctTimesGrow(timers, ids[..n], ids[n]);
      PositiveTimesGrow(timers, ids[..n], ids[n]);
    }
  }

  function Percent(x: real, total: real): Option<real> {
    if total == 0.0 then None else Some(100.0 * x / total)
  }

  function Lines(list: seq<Entry>, total: real): seq<Line> {
    seq(|list|, i requires 0 <= i < |list| => Line(list[i].id, list[i].seconds, Percent(list[i].seconds, total)))
  }

  lemma PercentAdds(a: real, b: real, total: real)
    requires total != 0.0
    ensures 100.0 * a / total + 100.0 * b / total == 100.0 * (a + b) / total
  {
  }

  lemma PercentOfWhole(total: real, part: real)
    requires total != 0.0
    ensures 100.0 * (total - part) / total == 100.0 - 100.0 * part / total
  {
    PercentAdds(total - part, part, total);
    assert 100.0 * total / total == 100.0;
  }

  /** The report of a set of timers visited in some order. */
  predicate Reports(report: Report, timers: map<Id, TimerData>, ids: seq<Id>)
    requires Known(timers, ids) && GLOBAL in timers
  {
    var total := timers[GLOBAL].timing;
    var rest := total - UserTime(timers, ids);
    && report.total == total
    && report.lines == Lines(Sorted(timers, ids), total)
    && report.unassigned == Line(GLOBAL, rest, Percent(rest, total))
    && report.totalPercent == (if total == 0.0 then None else Some(100.0 - 100.0 * Merged(timers, ids) / total))
    && (report.warned <==> total != 0.0 && Away(100.0 * Merged(timers, ids) / total))
  }

  /** A report of these lines and this rest: the percentages are short of 100 by what both
      leave out. */
  predicate Printed(report: Report, list: seq<Entry>, total: real, left: real) {
    var missing := total - Total(list) - left;
    && report.lines == Lines(list, total) && report.total == total
    && report.unassigned == Line(GLOBAL, left, Percent(left, total))
    && report.totalPercent == (if total == 0.0 then None else Some(100.0 - 100.0 * missing / total))
    && (report.warned <==> total != 0.0 && Away(100.0 * missing / total))
  }

  lemma PrintedReports(report: Report, timers: map<Id, TimerData>, ids: seq<Id>)
    requires Known(timers, ids) && GLOBAL in timers
    requires var total := timers[GLOBAL].timing;
      Printed(report, Sorted(timers, ids), total, total - UserTime(timers, ids))
    ensures Reports(report, timers, ids)
  {
    ListedTime(timers, ids);
  }

  predicate Away(x: real) {
    x > PERCENT_TOLERANCE || -x > PERCENT_TOLERANCE
  }

  // ------------------------------------------------------------------------------
  // What the lines show
  // ------------------------------------------------------------------------------

  /** The line shows which part of the total its time is, in percent. */
  predicate ShowsShare(line: Line, total: real) {
    line.percent.Some? && line.percent.value * total == 100.0 * line.seconds
  }

  /** The percentages printed, added up. */
  function PercentSum(lines: seq<Line>): real {
    if lines == [] then 0.0
    else
      var last := lines[|lines| - 1];
      PercentSum(lines[..|lines| - 1]) + match last.percent case None => 0.0 case Some(x) => x
  }

  lemma PercentIsShare(x: real, total: real)
    requires total != 0.0
    ensures Percent(x, total).Some? && Percent(x, total).value * total == 100.0 * x
  {
  }

  lemma {:induction false} SharesAddUp(lines: seq<Line>, time: real, total: real)
    requires total != 0.0 && time == SecondsOf(lines) && forall i :: 0 <= i < |lines| ==> ShowsShare(lines[i], total)
    ensures PercentSum(lines) * total == 100.0 * time
  {
    if lines != [] {
      var n := |lines| - 1;
      SharesAddUp(lines[..n], SecondsOf(lines[..n]), total);
      assert ShowsShare(lines[n], total);
    }
  }

  function SecondsOf(lines: seq<Line>): real {
    if lines == [] then 0.0 else SecondsOf(lines[..|lines| - 1]) + lines[|lines| - 1].seconds
  }

  lemma {:induction false} TotalGrows(list: seq<Entry>, e: Entry)
    ensures Total(list + [e]) == Total(list) + e.seconds
  {
    if list != [] {
      assert (list + [e])[1..] == list[1..] + [e];
      TotalGrows(list[1..], e);
    }
  }

  lemma {:induction false} LinesTotal(list: seq<Entry>, total: real)
    ensures SecondsOf(Lines(list, total)) == Total(list)
  {
    if list != [] {
      var n := |list| - 1;
      assert Lines(list, total)[..n] == Lines(list[..n], total) && list == list[..n] + [list[n]];
      LinesTotal(list[..n], total);
      TotalGrows(list[..n], list[n]);
    }
  }

  lemma SameQuotient(x: real, y: real, total: real)
    requires total != 0.0 && x * total == y * total
    ensures x == y
  {
    assert (x - y) * total == 0.0;
  }

  lemma ShareOfRest(total: real, part: real)
    requires total != 0.0
    ensures (100.0 - 100.0 * part / total) * total == 100.0 * (total - part)
  {
    assert 100.0 * part / total * total == 100.0 * part;
  }

  /** Every report: each line, the one of what is left over included, shows its own share of the
      total, and the percentage printed for the total is the sum of those. The warning is given
      when that differs from 100 by more than 0.001. With a total of zero there are none. */
  lemma SharesArePrinted(report: Report, timers: map<Id, TimerData>, ids: seq<Id>)
    requires Known(timers, ids) && GLOBAL in timers && Reports(report, timers, ids)
    ensures report.unassigned.id.name == "GRVY_Unassigned"
    ensures report.total != 0.0 ==>
      && (forall i :: 0 <= i < |report.lines| ==> ShowsShare(report.lines[i], report.total))
      && ShowsShare(report.unassigned, report.total)
      && report.totalPercent == Some(PercentSum(report.lines) + report.unassigned.percent.value)
      && (report.warned <==> report.totalPercent.value > 100.001 || report.totalPercent.value < 99.999)
    ensures report.total == 0.0 ==>
      && (forall i :: 0 <= i < |report.lines| ==> report.lines[i].percent == None)
      && report.unassigned.percent == None && report.totalPercent == None && !report.warned
  {
    hide Sorted, UserTime, Merged, Total, SecondsOf, PercentSum;
    var total, list := report.total, Sorted(timers, ids);
    if total != 0.0 {
      hide Percent;
      forall i | 0 <= i < |list| ensures ShowsShare(report.lines[i], total) { PercentIsShare(list[i].seconds, total); }
      PercentIsShare(report.unassigned.seconds, total);
      LinesTotal(list, total);
      SharesAddUp(report.lines, Total(list), total);
      ListedTime(timers, ids);
      var printed := PercentSum(report.lines) + report.unassigned.percent.value;
      ShareOfRest(total, Merged(timers, ids));
      assert printed * total == 100.0 * Total(list) + 100.0 * report.unassigned.seconds;
      SameQuotient(printed, report.totalPercent.value, total);
    }
  }

  /** No user timer in ids with the time of this entry comes later in the alphabet. */
  predicate LastOfItsTime(timers: map<Id, TimerData>, e: Entry) {
    && e.id in timers && e.id != GLOBAL && timers[e.id].timing == e.seconds
    && forall id :: id in timers && id != GLOBAL && id != e.id && timers[id].timing == e.seconds ==>
         Before(id.name, e.id.name)
  }

  lemma ShownIsLast(timers: map<Id, TimerData>, ids: seq<Id>, e: Entry)
    requires Known(timers, ids) && Alphabetical(ids) && forall id :: id in timers ==> id in ids
    ensures Shown(timers, ids, e) <==> LastOfItsTime(timers, e)
  {
    if Shown(timers, ids, e) {
      var k :| 0 <= k < |ids| && ids[k] == e.id && timers[e.id].timing == e.seconds
               && NotAfter(timers, ids, k, e.seconds);
      forall id | id in timers && id != GLOBAL && id != e.id && timers[id].timing == e.seconds
        ensures Before(id.name, e.id.name)
      {
        var j :| 0 <= j < |ids| && ids[j] == id;
      }
    }
    if LastOfItsTime(timers, e) {
      var k :| 0 <= k < |ids| && ids[k] == e.id;
      forall j | k < j < |ids| ensures ids[j] == GLOBAL || timers[ids[j]].timing != e.seconds {
        BeforeOnce(ids[k].name, ids[j].name);
      }
      assert NotAfter(timers, ids, k, e.seconds);
    }
  }

  /** The lines of a report descend strictly in time. There is one for each time that some user
      timer has, with that time, and with the name that comes last in the alphabet among the
      timers that have it. So the i-th line has the i-th largest of these times. */
  lemma LinesAreRanked(report: Report, timers: map<Id, TimerData>, ids: seq<Id>)
    requires Known(timers, ids) && GLOBAL in timers && Reports(report, timers, ids)
    requires Alphabetical(ids) && forall id :: id in timers ==> id in ids
    ensures forall i, k :: 0 <= i < k < |report.lines| ==> report.lines[i].seconds > report.lines[k].seconds
    ensures forall i :: 0 <= i < |report.lines| ==>
      LastOfItsTime(timers, Entry(report.lines[i].seconds, report.lines[i].id))
    ensures forall id :: id in timers && id != GLOBAL ==>
      exists i :: 0 <= i < |report.lines| && report.lines[i].seconds == timers[id].timing
  {
    hide Shown, Sorted, UserTime, Merged, LastOfItsTime, Percent, Alphabetical;
    var list := Sorted(timers, ids);
    ListIsOnePerTime(timers, ids);
    forall i | 0 <= i < |list| ensures LastOfItsTime(timers, list[i]) {
      assert list[i] in list;
      ShownIsLast(timers, ids, list[i]);
    }
    forall id | id in timers && id != GLOBAL
      ensures exists i :: 0 <= i < |report.lines| && report.lines[i].seconds == timers[id].timing
    {
      var k :| 0 <= k < |ids| && ids[k] == id;
      assert Seen(timers, ids, timers[id].timing);
      SeenIsShown(timers, ids, timers[id].timing);
      var e :| Shown(timers, ids, e) && e.seconds == timers[id].timing;
      var i :| 0 <= i < |list| && list[i] == e;
      assert report.lines[i].seconds == timers[id].timing;
    }
  }

  // ------------------------------------------------------------------------------
  // A report after a run
  // ------------------------------------------------------------------------------

  /** The report of any well-nested run with one clock reading per call and at most the
      global timer open. The percentages fall short of 100 by the share of the merged timers,
      so they sum to 100 exactly when that is nothing, and the warning about overlapping
      timers is given for that share alone. What is left over is the time no user timer was
      open exactly when the global timer is closed, or has been open for no time; where it
      runs, the total is zero and what is left over is minus the time of the user timers. */
  lemma ReportAddsUp(report: Report, start: real, es: seq<Event>, ids: seq<Id>)
    requires WellNested(es) && Lagless(es) && |Open(es)| <= 1
    requires Distinct(ids) && forall id :: id in ids <==> id in After(start, es).timers
    requires Known(After(start, es).timers, ids) && GLOBAL in After(start, es).timers
    requires Reports(report, After(start, es).timers, ids)
    ensures report.unassigned.seconds == Exclusive(start, es, GLOBAL) <==>
            Open(es) == [] || Inclusive(start, es, GLOBAL) == 0.0
    ensures Open(es) == [] && Monotone(start, es) ==> report.unassigned.seconds >= 0.0
    ensures Open(es) != [] ==>
      && report.total == 0.0 && report.totalPercent == None
      && report.unassigned.seconds == Exclusive(start, es, GLOBAL) - Inclusive(start, es, GLOBAL)
      && report.unassigned.seconds == -UserTime(After(start, es).timers, ids)
    ensures var timers := After(start, es).timers;
      report.total != 0.0 ==>
        && report.unassigned.percent.Some?
        && report.totalPercent == Some(PercentSum(report.lines) + report.unassigned.percent.value)
        && (report.totalPercent == Some(100.0) <==> Merged(timers, ids) == 0.0)
        && (PairwiseDistinctTimes(timers, ids) ==> report.totalPercent == Some(100.0) && !report.warned)
        && (PositiveTimes(timers, ids) && report.totalPercent == Some(100.0) ==> PairwiseDistinctTimes(timers, ids))
  {
    hide After, WellNested, Lagless, Open, Exclusive, Inclusive, UserTime, Merged, PairwiseDistinctTimes, PositiveTimes;
    UnassignedTime(start, es, ids);
    var timers := After(start, es).timers;
    MergedExactly(timers, ids);
    SharesArePrinted(report, timers, ids);
    if report.total != 0.0 { NoShare(Merged(timers, ids), report.total); }
  }

  lemma NoShare(part: real, total: real)
    requires total != 0.0
    ensures 100.0 * part / total == 0.0 <==> part == 0.0
  {
    assert 100.0 * part / total * total == 100.0 * part;
  }

  // ------------------------------------------------------------------------------
  // A report after a restart
  // ------------------------------------------------------------------------------

  /** Whether the object has been finalized, a first report included; a reset forgets the
      times but not that. */
  predicate Finalized(es: seq<Event>) {
    es != [] && (Last(es).Finish? || Finalized(Earlier(es)))
  }

  /** What a report shows: it finalizes an object that never was. */
  function Summarized(es: seq<Event>, at: real): seq<Event> {
    if Finalized(es) then es else es + [Finish(at)]
  }

  /** The object was finalized before its last reset and not since. */
  predicate Stale(es: seq<Event>) {
    es != [] &&
    match Last(es)
    case Finish(_) => false
    case Restart(_) => Finalized(Earlier(es))
    case Begin(_, _, _) => Stale(Earlier(es))
    case End(_, _, _) => Stale(Earlier(es))
  }

  lemma {:induction false} StaleMeansRunning(es: seq<Event>)
    requires WellNested(es)
    ensures Stale(es) <==> Finalized(es) && Open(es) != []
    ensures !Finalized(es) ==> Open(es) != []
    decreases |es|
  {
    if es != [] { StaleMeansRunning(Earlier(es)); }
  }

  lemma RunGrows(start: real, es: seq<Event>, e: Event, id: Id)
    requires WellNested(es) && Lagless(es) && Fits(Open(es), e) && NoLag(e) && !e.Restart?
    ensures var longer := es + [e];
      && WellNested(longer) && Lagless(longer) && Open(longer) == Moved(Open(es), e) && Now(start, longer) == e.at
      && Exclusive(start, longer, id) ==
         Exclusive(start, es, id) + (if Innermost(Open(es), id) then e.at - Now(start, es) else 0.0)
      && Inclusive(start, longer, id) ==
         Inclusive(start, es, id) + if id in Open(es) then e.at - Now(start, es) else 0.0
  {
    assert Earlier(es + [e]) == es;
  }

  lemma EmptyRun(start: real, id: Id)
    ensures WellNested([]) && Lagless([]) && Open([]) == [GLOBAL] && Now(start, []) == start
    ensures Exclusive(start, [], id) == 0.0 && Inclusive(start, [], id) == 0.0
  {
  }

  lemma SummarizedRuns(start: real, es: seq<Event>, at: real)
    requires WellNested(es) && Lagless(es) && |Open(es)| <= 1
    ensures var fs := Summarized(es, at);
      && WellNested(fs) && Lagless(fs) && |Open(fs)| <= 1 && (Open(fs) != [] <==> Stale(es)) && (Stale(es) ==> fs == es)
  {
    hide After, Open, WellNested, Lagless, Finalized, Stale;
    StaleMeansRunning(es);
    if !Finalized(es) {
      OnlyGlobalOpen(start, es, GLOBAL);
      RunGrows(start, es, Finish(at), GLOBAL);
    }
  }

  /** When a report is called for, with at most the global timer open, what it shows as left
      over is right exactly unless the object was finalized, or reported on, before its last
      reset and not finalized since, and time has passed since then. */
  lemma ReportRightExactlyWhen(report: Report, start: real, es: seq<Event>, at: real, ids: seq<Id>)
    requires WellNested(es) && Lagless(es) && |Open(es)| <= 1 && WellNested(Summarized(es, at))
    requires var timers := After(start, Summarized(es, at)).timers;
      && Distinct(ids) && (forall id :: id in ids <==> id in timers)
      && Known(timers, ids) && GLOBAL in timers && Reports(report, timers, ids)
    ensures report.unassigned.seconds == Exclusive(start, Summarized(es, at), GLOBAL) <==>
            !Stale(es) || Inclusive(start, es, GLOBAL) == 0.0
    ensures Stale(es) ==> report.total == 0.0 && report.totalPercent == None
  {
    hide After, Open, WellNested, Lagless, Finalized, Stale, Summarized, Reports, Exclusive, Inclusive;
    SummarizedRuns(start, es, at);
    ReportAddsUp(report, start, Summarized(es, at), ids);
  }

  /** Report, reset, one timer for d: the run in which that goes wrong. */
  function ReportedAndReset(start: real, a: Id, d: real): seq<Event> {
    [Finish(start)] + [Restart(start)] + [Begin(a, start, start)] + [End(a, start + d, start + d)]
  }

  lemma RunsOn(start: real, es: seq<Event>, e: Event)
    requires WellNested(es) && Fits(Open(es), e)
    ensures WellNested(es + [e]) && Open(es + [e]) == Moved(Open(es), e)
    ensures Possible(After(start, es), e) && After(start, es + [e]) == Apply(After(start, es), e)
    ensures Lagless(es) && NoLag(e) ==> Lagless(es + [e])
  {
    hide Stacked, Apply, Possible, Moved, Fits, NoLag;
    assert Earlier(es + [e]) == es && Last(es + [e]) == e;
    StackedStep(After(start, es), Open(es), e);
  }

  lemma RestartEmpties(start: real, es: seq<Event>, e: Event)
    requires WellNested(es) && Lagless(es) && Fits(Open(es), e) && e.Restart?
    ensures var longer := es + [e];
      && WellNested(longer) && Lagless(longer) && Open(longer) == [GLOBAL] && Now(start, longer) == e.at
      && Exclusive(start, longer, GLOBAL) == 0.0 && Inclusive(start, longer, GLOBAL) == 0.0
      && (Finalized(es) ==> Stale(longer))
  {
    assert Earlier(es + [e]) == es;
  }

  lemma StaleGrows(es: seq<Event>, e: Event)
    requires Stale(es) && (e.Begin? || e.End?)
    ensures Stale(es + [e])
  {
    assert Earlier(es + [e]) == es;
  }

  lemma ReportedAndResetRuns(start: real, a: Id, d: real)
    requires a != GLOBAL && !Flagged(a)
    ensures var es := ReportedAndReset(start, a, d);
      && WellNested(es) && Lagless(es) && Open(es) == [GLOBAL] && Stale(es)
      && Exclusive(start, es, GLOBAL) == 0.0 && Inclusive(start, es, GLOBAL) == d
  {
    var p1 := [Finish(start)];
    var p2 := p1 + [Restart(start)];
    var p3 := p2 + [Begin(a, start, start)];
    assert [] + p1 == p1 && Finalized(p1);
    hide After, Exclusive, Inclusive, WellNested, Lagless, Open, Now, Finalized, Stale;
    EmptyRun(start, GLOBAL);
    RunGrows(start, [], Finish(start), GLOBAL);
    RestartEmpties(start, p1, Restart(start));
    RunGrows(start, p2, Begin(a, start, start), GLOBAL);
    RunGrows(start, p3, End(a, start + d, start + d), GLOBAL);
    StaleGrows(p2, Begin(a, start, start));
    StaleGrows(p3, End(a, start + d, start + d));
  }

  // ------------------------------------------------------------------------------
  // Two timers of equal time
  // ------------------------------------------------------------------------------

  /** Two user timers, one after the other, each running for d. */
  function OneAfterTheOther(start: real, a: Id, b: Id, d: real): seq<Event> {
    [Begin(a, start, start)] + [End(a, start + d, start + d)] + [Begin(b, start + d, start + d)]
    + [End(b, start + 2.0 * d, start + 2.0 * d)] + [Finish(start + 2.0 * d)]
  }

  lemma BothEnded(start: real, a: Id, b: Id, d: real, id: Id)
    requires a != b && a != GLOBAL && b != GLOBAL && !Flagged(a) && !Flagged(b)
    ensures var es := OneAfterTheOther(start, a, b, d)[..4];
      && WellNested(es) && Lagless(es) && Open(es) == [GLOBAL] && Now(start, es) == start + 2.0 * d
      && Exclusive(start, es, id) == (if id == a || id == b then d else 0.0)
      && (id == GLOBAL ==> Inclusive(start, es, id) == 2.0 * d)
  {
    var p1 := [Begin(a, start, start)];
    var p2 := p1 + [End(a, start + d, start + d)];
    var p3 := p2 + [Begin(b, start + d, start + d)];
    var p4 := p3 + [End(b, start + 2.0 * d, start + 2.0 * d)];
    assert OneAfterTheOther(start, a, b, d)[..4] == p4 && [] + p1 == p1;
    hide OneAfterTheOther, Exclusive, Inclusive, WellNested, Lagless, Open, Now;
    EmptyRun(start, id);
    RunGrows(start, [], Begin(a, start, start), id);
    RunGrows(start, p1, End(a, start + d, start + d), id);
    RunGrows(start, p2, Begin(b, start + d, start + d), id);
    RunGrows(start, p3, End(b, start + 2.0 * d, start + 2.0 * d), id);
  }

  lemma OneAfterTheOtherRuns(start: real, a: Id, b: Id, d: real, id: Id)
    requires a != b && a != GLOBAL && b != GLOBAL && !Flagged(a) && !Flagged(b)
    ensures var es := OneAfterTheOther(start, a, b, d);
      && WellNested(es) && Lagless(es) && Open(es) == []
      && Exclusive(start, es, id) == (if id == a || id == b then d else 0.0)
      && (id == GLOBAL ==> Inclusive(start, es, id) == 2.0 * d)
  {
    var es := OneAfterTheOther(start, a, b, d);
    assert es == es[..4] + [Finish(start + 2.0 * d)];
    hide OneAfterTheOther, Exclusive, Inclusive, WellNested, Lagless, Open, Now;
    BothEnded(start, a, b, d, id);
    RunGrows(start, es[..4], Finish(start + 2.0 * d), id);
  }

  lemma FirstTwoDiffer(list: seq<Entry>)
    requires Descending(list) && |list| > 1
    ensures list[0] in list && list[1] in list && list[0].seconds != list[1].seconds
  {
  }

  lemma AllEqualListedOnce(list: seq<Entry>, d: real)
    requires Descending(list) && list != [] && forall e :: e in list ==> e.seconds == d
    ensures Total(list) == d && |list| == 1
  {
    if |list| > 1 { FirstTwoDiffer(list); }
    assert list[0] in list && list[1..] == [];
  }

  lemma ShownIsUser(start: real, a: Id, b: Id, d: real, ids: seq<Id>, e: Entry)
    requires a != b && a != GLOBAL && b != GLOBAL && !Flagged(a) && !Flagged(b)
    requires WellNested(OneAfterTheOther(start, a, b, d))
    requires Known(After(start, OneAfterTheOther(start, a, b, d)).timers, ids)
    requires Shown(After(start, OneAfterTheOther(start, a, b, d)).timers, ids, e)
    ensures e.seconds == d
  {
    var es := OneAfterTheOther(start, a, b, d);
    assert forall i :: 0 <= i < |es| && es[i].Begin? ==> es[i].id == a || es[i].id == b;
    hide After, WellNested, Lagless, Open, Exclusive, Inclusive, OneAfterTheOther, Stacked;
    OneAfterTheOtherRuns(start, a, b, d, e.id);
    ExcBooksHold(start, es, e.id);
    KnownIsBegun(start, es, e.id);
  }

  lemma FirstIsShown(start: real, a: Id, b: Id, d: real, ids: seq<Id>) returns (e: Entry)
    requires a != b && a != GLOBAL && b != GLOBAL && !Flagged(a) && !Flagged(b)
    requires WellNested(OneAfterTheOther(start, a, b, d))
    requires var timers := After(start, OneAfterTheOther(start, a, b, d)).timers;
      Known(timers, ids) && forall id :: id in timers ==> id in ids
    ensures Shown(After(start, OneAfterTheOther(start, a, b, d)).timers, ids, e)
  {
    var es := OneAfterTheOther(start, a, b, d);
    assert es[0].id == a && Begun(es, a);
    hide After, WellNested, Lagless, Open, Exclusive, Inclusive, OneAfterTheOther, Shown, Begun, Stacked;
    KnownIsBegun(start, es, a);
    OneAfterTheOtherRuns(start, a, b, d, a);
    ExcBooksHold(start, es, a);
    var timers := After(start, es).timers;
    assert Seen(timers, ids, timers[a].timing) by {
      var k :| 0 <= k < |ids| && ids[k] == a;
    }
    SeenIsShown(timers, ids, timers[a].timing);
    e :| Shown(timers, ids, e) && e.seconds == timers[a].timing;
  }

  lemma EqualTimesListedOnce(start: real, a: Id, b: Id, d: real, ids: seq<Id>)
    requires a != b && a != GLOBAL && b != GLOBAL && !Flagged(a) && !Flagged(b)
    requires WellNested(OneAfterTheOther(start, a, b, d))
    requires var timers := After(start, OneAfterTheOther(start, a, b, d)).timers;
      Known(timers, ids) && forall id :: id in timers ==> id in ids
    ensures var list := Sorted(After(start, OneAfterTheOther(start, a, b, d)).timers, ids);
      Total(list) == d && |list| == 1
  {
    hide After, WellNested, OneAfterTheOther, Sorted, Shown, Total;
    var timers := After(start, OneAfterTheOther(start, a, b, d)).timers;
    ListIsOnePerTime(timers, ids);
    var e := FirstIsShown(start, a, b, d, ids);
    forall x | x in Sorted(timers, ids) ensures x.seconds == d { ShownIsUser(start, a, b, d, ids, x); }
    AllEqualListedOnce(Sorted(timers, ids), d);
  }

  /** They never overlap and account for all of the time, and still half of it is missing
      from the report and the warning about overlap is given. */
  lemma EqualTimesWarn(report: Report, start: real, a: Id, b: Id, d: real, ids: seq<Id>)
    requires a != b && a != GLOBAL && b != GLOBAL && !Flagged(a) && !Flagged(b) && d > 0.0
    requires WellNested(OneAfterTheOther(start, a, b, d))
    requires var timers := After(start, OneAfterTheOther(start, a, b, d)).timers;
      && Distinct(ids) && (forall id :: id in ids <==> id in timers)
      && Known(timers, ids) && GLOBAL in timers && Reports(report, timers, ids)
    ensures report.totalPercent == Some(50.0) && report.warned && |report.lines| == 1
    ensures report.total == 2.0 * d && report.unassigned.seconds == 0.0
  {
    hide After, WellNested, Lagless, Open, Exclusive, Inclusive, OneAfterTheOther, UserTime, Merged, Sorted, Distinct,
         Stacked, Total;
    var es := OneAfterTheOther(start, a, b, d);
    OneAfterTheOtherRuns(start, a, b, d, GLOBAL);
    UnassignedTime(start, es, ids);
    ExcBooksHold(start, es, GLOBAL);
    ListedTime(After(start, es).timers, ids);
    EqualTimesListedOnce(start, a, b, d, ids);
    Half(d);
  }

  lemma Half(d: real)
    requires d != 0.0
    ensures 100.0 * d / (2.0 * d) == 50.0
  {
  }
}
