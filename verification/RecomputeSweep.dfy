/**
 Recomputing days: each recompute reads the events of one employee's window and the overtime
 stored for the days before, runs the engine, and replaces one row and its anomalies.
 */
module RecomputeSweep {
  import opened Options
  import opened ShiftWindows
  import opened Punches
  import opened DailyRecord
  import opened DailyColumns

  type Employee = nat
  type Key = (Employee, Date)

  /** The minute columns of a row, with entry, exit, rest day and leave. */
  datatype Columns = Columns(work: int, overtime: int, late: int, early: int, restDayWorked: bool,
                             entryAt: Option<int>, exitAt: Option<int>, leaveId: Option<nat>)

  datatype Table = Table(records: map<Key, Columns>, anomalies: map<Key, seq<Anomaly>>)

  /** What stays fixed during a sweep: events, settings, leaves, the calendar. */
  datatype World = World(
    events: set<Event>,
    departments: map<Employee, Department>,   // of the active employees
    rules: Rules,
    zone: Zone,
    leaves: Key -> Option<nat>,
    yearStart: Date -> Date)

  function ColumnsOf(out: Output): Columns {
    Columns(out.work, out.overtime, out.late, out.early, out.restDayWorked, out.entryAt, out.exitAt, out.leaveId)
  }

  function Monday(date: Date): Date { date - Weekday(date) }

  // -------------------------------------------------------------------- queries

  predicate Own(e: Event, employee: Employee, w: Window) { e.employee == Some(employee) && InWindow(e, w.start, w.end) }

  /** Unknown faces come along only from devices the employee used in the same window. */
  predicate Selected(events: set<Event>, employee: Employee, w: Window, e: Event) {
    || Own(e, employee, w)
    || (e.employee.None? && e.isUnknown && InWindow(e, w.start, w.end)
        && exists own :: own in events && Own(own, employee, w) && own.device == e.device)
  }

  function FetchedEvents(events: set<Event>, employee: Employee, w: Window): set<Event> {
    set e | e in events && Selected(events, employee, w, e)
  }

  /** `SUM(overtime_minutes)` over `[from, to)`. */
  function SumOvertime(records: map<Key, Columns>, employee: Employee, from: Date, to: Date): int
    decreases to - from
  {
    if from >= to then 0 else
    SumOvertime(records, employee, from, to - 1)
    + (if (employee, to - 1) in records then records[(employee, to - 1)].overtime else 0)
  }

  function InputFor(w: World, employee: Employee, date: Date, events: seq<Event>, records: map<Key, Columns>): EngineInput
    requires employee in w.departments
  {
    EngineInput(events, w.departments[employee], w.rules, w.leaves((employee, date)), date, w.zone,
                SumOvertime(records, employee, Monday(date), date),
                SumOvertime(records, employee, w.yearStart(date), date),
                (employee, date) in records)
  }

  function WindowFor(w: World, employee: Employee, date: Date): Window
    requires employee in w.departments
  {
    ShiftWindow(date, w.departments[employee], w.rules, w.zone)
  }

  /** An answer to the event query: its rows in whatever order the database returns them. */
  ghost predicate Answers(w: World, employee: Employee, date: Date, rows: seq<Event>) {
    employee in w.departments ==> SetOf(rows) == FetchedEvents(w.events, employee, WindowFor(w, employee, date))
  }

  ghost function ARow(events: set<Event>): (rows: seq<Event>)
    ensures SetOf(rows) == events
  {
    if events == {} then [] else
    var e :| e in events;
    assert events == {e} + (events - {e});
    [e] + ARow(events - {e})
  }

  /** The record of a day as a function of the fixed world and the sums read from the table. */
  ghost function DayRecord(w: World, employee: Employee, date: Date, records: map<Key, Columns>): Output
    requires employee in w.departments
  {
    Record(InputFor(w, employee, date, ARow(FetchedEvents(w.events, employee, WindowFor(w, employee, date))), records))
  }

  ghost function Recomputed(w: World, t: Table, key: Key): Table {
    if key.0 !in w.departments then t else
    var out := DayRecord(w, key.0, key.1, t.records);
    Table(t.records[key := ColumnsOf(out)], t.anomalies[key := out.anomalies])
  }

  class DailyRecords {
    var records: map<Key, Columns>
    var anomalies: map<Key, seq<Anomaly>>

    constructor ()
      ensures Contents() == Table(map[], map[])
    {
      records, anomalies := map[], map[];
    }

    ghost function Contents(): Table
      reads this
    {
      Table(records, anomalies)
    }

    /** `lands` says whether the write transaction committed. */
    method RecomputeForDay(w: World, employee: Employee, date: Date, rows: seq<Event>, lands: bool) returns (ok: bool)
      requires Answers(w, employee, date, rows)
      modifies this
      ensures ok == (employee !in w.departments || lands)
      ensures Contents() == if lands then Recomputed(w, old(Contents()), (employee, date)) else old(Contents())
    {
      if employee !in w.departments { return true; }
      var events: seq<Event> := [];
      for i := 0 to |rows|
        invariant events == rows[..i]
      {
        events := events + [rows[i]];
      }
      var input := InputFor(w, employee, date, events, records);
      var out := ComputeDailyRecord(input);
      AnyAnswer(w, employee, date, rows, records);
      if !lands { return false; }
      UpsertRow(employee, date, out);
      ok := true;
    }

    method UpsertRow(employee: Employee, date: Date, out: Output)
      modifies this
      ensures records == old(records)[(employee, date) := ColumnsOf(out)]
      ensures anomalies == old(anomalies)[(employee, date) := out.anomalies]
    {
      records := records[(employee, date) := ColumnsOf(out)];
      anomalies := anomalies[(employee, date) := []];
      for i := 0 to |out.anomalies|
        invariant records == old(records)[(employee, date) := ColumnsOf(out)]
        invariant anomalies == old(anomalies)[(employee, date) := out.anomalies[..i]]
      {
        assert out.anomalies[..i + 1] == out.anomalies[..i] + [out.anomalies[i]];
        anomalies := anomalies[(employee, date) := anomalies[(employee, date)] + [out.anomalies[i]]];
      }
      assert out.anomalies[..|out.anomalies|] == out.anomalies;
    }
  }

  lemma AnyAnswer(w: World, employee: Employee, date: Date, rows: seq<Event>, records: map<Key, Columns>)
    requires Answers(w, employee, date, rows) && employee in w.departments
    ensures Record(InputFor(w, employee, date, rows[..|rows|], records)) == DayRecord(w, employee, date, records)
  {
    var canonical := ARow(FetchedEvents(w.events, employee, WindowFor(w, employee, date)));
    assert rows[..|rows|] == rows;
    assert forall e :: e in rows <==> e in SetOf(rows);
    assert forall e :: e in canonical <==> e in SetOf(canonical);
    RecordIgnoresOrderAndCopies(InputFor(w, employee, date, canonical, records), rows);
  }

  // -------------------------------------------------- sweeps do not disturb minutes

  /** The minute columns of a day, whatever the table holds. */
  ghost function FixedColumns(w: World, key: Key): Columns
    requires key.0 in w.departments
  {
    ColumnsOf(DayRecord(w, key.0, key.1, map[]))
  }

  lemma ColumnsIgnoreSums(input: EngineInput, weekly: int, annual: int, prior: bool)
    ensures ColumnsOf(Record(input.(weeklyOtSoFar := weekly, annualOtSoFar := annual, priorRecordExisted := prior)))
         == ColumnsOf(Record(input))
  {
    hide Pairing;
    hide OvertimeCaps;
    hide ShiftWindow;
    hide TimesOf;
    hide UnknownIn;
  }

  lemma ColumnsAreFixed(w: World, key: Key, records: map<Key, Columns>)
    requires key.0 in w.departments
    ensures ColumnsOf(DayRecord(w, key.0, key.1, records)) == FixedColumns(w, key)
  {
    var rows := ARow(FetchedEvents(w.events, key.0, WindowFor(w, key.0, key.1)));
    var input := InputFor(w, key.0, key.1, rows, records);
    var bare := InputFor(w, key.0, key.1, rows, map[]);
    hide Record;
    ColumnsIgnoreSums(bare, input.weeklyOtSoFar, input.annualOtSoFar, input.priorRecordExisted);
    assert input == bare.(weeklyOtSoFar := input.weeklyOtSoFar, annualOtSoFar := input.annualOtSoFar,
                          priorRecordExisted := input.priorRecordExisted);
  }

  ghost function Swept(w: World, t: Table, keys: seq<Key>): Table {
    if keys == [] then t else Recomputed(w, Swept(w, t, keys[..|keys| - 1]), keys[|keys| - 1])
  }

  /** After any sweep, a day it covers has the fixed columns and any other day what it had. */
  lemma {:induction false} SweepMeans(w: World, t: Table, keys: seq<Key>, key: Key)
    ensures var swept := Swept(w, t, keys).records;
      if key in keys && key.0 in w.departments then key in swept && swept[key] == FixedColumns(w, key)
      else (key in swept <==> key in t.records) && (key in swept ==> swept[key] == t.records[key])
  {
    if keys != [] {
      var before, last := keys[..|keys| - 1], keys[|keys| - 1];
      assert keys == before + [last];
      SweepMeans(w, t, before, key);
      if last.0 in w.departments { ColumnsAreFixed(w, last, Swept(w, t, before).records); }
      hide DayRecord;
    }
  }

  /** Two sweeps over the same days, in any orders and with any repetitions, store the same minutes. */
  lemma SweepIgnoresOrderAndRepetition(w: World, t: Table, a: seq<Key>, b: seq<Key>)
    requires forall key :: key in a <==> key in b
    ensures Swept(w, t, a).records == Swept(w, t, b).records
  {
    var left, right := Swept(w, t, a).records, Swept(w, t, b).records;
    forall key: Key ensures (key in left <==> key in right) && (key in left ==> left[key] == right[key]) {
      SweepMeans(w, t, a, key);
      SweepMeans(w, t, b, key);
    }
    assert left.Keys == right.Keys;
  }

  // --------------------------------------------------------- the weekly cap

  ghost function OvertimeOn(w: World, employee: Employee, date: Date): int
    requires employee in w.departments
  {
    FixedColumns(w, (employee, date)).overtime
  }

  /** Overtime of `days` days from `from` on, as the engine computes it. */
  ghost function FixedOvertime(w: World, employee: Employee, from: Date, days: nat): int
    requires employee in w.departments
  {
    if days == 0 then 0 else FixedOvertime(w, employee, from, days - 1) + OvertimeOn(w, employee, from + days - 1)
  }

  /** The days `from`, `from + 1`, ... in ascending order. */
  function Ascending(employee: Employee, from: Date, days: nat): (r: seq<Key>)
    ensures |r| == days && forall i :: 0 <= i < days ==> r[i] == (employee, from + i)
  {
    seq(days, i requires 0 <= i < days => (employee, from + i))
  }

  // --------------------------------------------------- what a recompute reads

  /** The input of a recompute, with the rows of some answer. */
  ghost function DayInput(w: World, key: Key, records: map<Key, Columns>): EngineInput
    requires key.0 in w.departments
  {
    InputFor(w, key.0, key.1, ARow(FetchedEvents(w.events, key.0, WindowFor(w, key.0, key.1))), records)
  }

  /** The row and anomalies stored are the record of that input, whose settings are those of the
      employee and the day, and whose sums run from the week's Monday and from the first day of the
      year through the day before; day 4 after the epoch was a Monday. */
  lemma RecomputedIs(w: World, t: Table, key: Key)
    requires key.0 in w.departments
    ensures var input, after, date := DayInput(w, key, t.records), Recomputed(w, t, key), key.1;
      && after == Table(t.records[key := ColumnsOf(Record(input))], t.anomalies[key := Record(input).anomalies])
      && input.dept == w.departments[key.0] && input.rules == w.rules && input.leave == w.leaves(key)
      && input.anchor == date && input.zone == w.zone
      && (input.priorRecordExisted <==> key in t.records)
      && input.weeklyOtSoFar == SumOvertime(t.records, key.0, Monday(date), date)
      && input.annualOtSoFar == SumOvertime(t.records, key.0, w.yearStart(date), date)
      && Monday(date) <= date < Monday(date) + 7 && (Monday(date) - 4) % 7 == 0
  {
    hide Record;
    hide FetchedEvents;
    hide SumOvertime;
  }

  /** A badge of this employee was held at a reader of this direction at `at`, inside the day's window. */
  ghost predicate OwnPunch(w: World, key: Key, direction: Direction, at: int)
    requires key.0 in w.departments
  {
    exists e :: e in w.events && e.employee == Some(key.0) && !e.isUnknown && e.direction == direction && e.capturedAt == at
      && ShiftWindow(key.1, w.departments[key.0], w.rules, w.zone).start <= at
         <= ShiftWindow(key.1, w.departments[key.0], w.rules, w.zone).end
  }

  /** The day is computed from the employee's own punches, whatever else the query brings along. */
  lemma OnlyOwnPunches(w: World, key: Key, records: map<Key, Columns>)
    requires key.0 in w.departments
    ensures forall direction, at ::
      Punched(DayInput(w, key, records), direction, at) <==> OwnPunch(w, key, direction, at)
  {
    var input := DayInput(w, key, records);
    var window := WindowFor(w, key.0, key.1);
    var fetched := FetchedEvents(w.events, key.0, window);
    assert forall e :: e in input.events <==> e in SetOf(input.events);
    assert SetOf(input.events) == fetched && WindowOf(input) == window;
    hide ARow;
    hide ShiftWindow;
    hide SumOvertime;
    forall direction, at ensures Punched(input, direction, at) <==> OwnPunch(w, key, direction, at) {
      if OwnPunch(w, key, direction, at) {
        var e :| e in w.events && e.employee == Some(key.0) && !e.isUnknown && e.direction == direction && e.capturedAt == at
          && window.start <= at <= window.end;
        assert Own(e, key.0, window) && e in fetched;
      }
      if Punched(input, direction, at) {
        var e :| e in input.events && !e.isUnknown && e.direction == direction && e.capturedAt == at && window.start <= at <= window.end;
        assert e in fetched && Own(e, key.0, window);
      }
    }
  }

  /** The sum is that of the days in it: it splits anywhere, and over one day it is what is stored for it, if anything. */
  lemma {:induction false} SumSplits(records: map<Key, Columns>, employee: Employee, from: Date, days: nat, more: nat)
    ensures SumOvertime(records, employee, from, from + days + more)
         == SumOvertime(records, employee, from, from + days) + SumOvertime(records, employee, from + days, from + days + more)
    ensures SumOvertime(records, employee, from, from) == 0
    ensures SumOvertime(records, employee, from, from + 1)
         == if (employee, from) in records then records[(employee, from)].overtime else 0
    decreases more
  {
    if more > 0 { SumSplits(records, employee, from, days, more - 1); }
  }

  // ------------------------------------------------------------------ the caps

  /** When a recompute flags a cap: the day's by its own work, the week's and the year's by the
      overtime stored since they began, and the day's own. */
  lemma CapsOfOneDay(w: World, t: Table, key: Key)
    requires key.0 in w.departments
    ensures var after, own := Recomputed(w, t, key), FixedColumns(w, key);
      key in after.anomalies
      && (OtCapExceededDaily in after.anomalies[key] <==> own.work > 600)
      && (OtCapExceededWeekly in after.anomalies[key] <==>
            own.work > 0 && SumOvertime(t.records, key.0, Monday(key.1), key.1) + own.overtime > 600)
      && (OtCapExceededAnnual in after.anomalies[key] <==>
            own.work > 0 && SumOvertime(t.records, key.0, w.yearStart(key.1), key.1) + own.overtime > 6000)
  {
    ColumnsAreFixed(w, key, t.records);
    RecomputedIs(w, t, key);
    var input := DayInput(w, key, t.records);
    if input.leave.None? { AnomaliesInColumns(input); } else { LeaveInColumns(input); }
    hide *;
  }

  lemma {:induction false} SumOfSwept(w: World, records: map<Key, Columns>, employee: Employee, from: Date, days: nat)
    requires employee in w.departments
    requires forall d :: from <= d < from + days ==> (employee, d) in records && records[(employee, d)] == FixedColumns(w, (employee, d))
    ensures SumOvertime(records, employee, from, from + days) == FixedOvertime(w, employee, from, days)
  {
    if days > 0 { SumOfSwept(w, records, employee, from, days - 1); }
  }

  lemma {:induction false} LaterSweepsKeepAnomalies(w: World, t: Table, keys: seq<Key>, more: seq<Key>, key: Key)
    requires key !in more
    ensures var a, b := Swept(w, t, keys).anomalies, Swept(w, t, keys + more).anomalies;
      (key in a <==> key in b) && (key in a ==> a[key] == b[key])
    decreases |more|
  {
    hide DayRecord;
    if more == [] {
      assert keys + more == keys;
    } else {
      assert (keys + more)[..|keys + more| - 1] == keys + more[..|more| - 1];
      LaterSweepsKeepAnomalies(w, t, keys, more[..|more| - 1], key);
    }
  }

  lemma SweptNext(w: World, t: Table, keys: seq<Key>, i: nat)
    requires i < |keys|
    ensures Swept(w, t, keys[..i + 1]) == Recomputed(w, Swept(w, t, keys[..i]), keys[i])
    ensures keys == keys[..i + 1] + keys[i + 1..]
  {
    assert keys[..i + 1][..i] == keys[..i];
    hide Recomputed;
  }

  /** What the lookback of the `i`-th day of a week finds when the days before it were just swept. */
  lemma LookbackInSweep(w: World, t: Table, employee: Employee, monday: Date, days: nat, i: nat)
    requires employee in w.departments && i < days
    ensures SumOvertime(Swept(w, t, Ascending(employee, monday, days)[..i]).records, employee, monday, monday + i)
         == FixedOvertime(w, employee, monday, i)
  {
    var before := Ascending(employee, monday, days)[..i];
    var records := Swept(w, t, before).records;
    hide Swept;
    forall d | monday <= d < monday + i
      ensures (employee, d) in records && records[(employee, d)] == FixedColumns(w, (employee, d))
    {
      assert before[d - monday] == (employee, d);
      SweepMeans(w, t, before, (employee, d));
    }
    SumOfSwept(w, records, employee, monday, i);
  }

  /** Recomputing a week from its Monday on, whatever the table held before: a day ends up with
      the weekly cap anomaly exactly when something was worked on it and the overtime from Monday
      through that day exceeds ten hours. */
  lemma WeekSweepFlagsTheCap(w: World, t: Table, employee: Employee, monday: Date, days: nat, i: nat)
    requires employee in w.departments && Weekday(monday) == 0 && i < days <= 7
    ensures var swept := Swept(w, t, Ascending(employee, monday, days)).anomalies; var key := (employee, monday + i);
      key in swept
      && (OtCapExceededWeekly in swept[key] <==>
            FixedColumns(w, key).work > 0 && FixedOvertime(w, employee, monday, i + 1) > 600)
  {
    hide *;
    var all, key := Ascending(employee, monday, days), (employee, monday + i);
    DayOfSweep(w, employee, monday, days, i);
    SweptNext(w, t, all, i);
    LookbackInSweep(w, t, employee, monday, days, i);
    CapsOfOneDay(w, Swept(w, t, all[..i]), key);
    LaterSweepsKeepAnomalies(w, t, all[..i + 1], all[i + 1..], key);
  }

  /** The same for the year and its hundred hours. */
  lemma YearSweepFlagsTheCap(w: World, t: Table, employee: Employee, from: Date, days: nat, i: nat)
    requires employee in w.departments && i < days && w.yearStart(from + i) == from
    ensures var swept := Swept(w, t, Ascending(employee, from, days)).anomalies; var key := (employee, from + i);
      key in swept
      && (OtCapExceededAnnual in swept[key] <==>
            FixedColumns(w, key).work > 0 && FixedOvertime(w, employee, from, i + 1) > 6000)
  {
    hide *;
    var all, key := Ascending(employee, from, days), (employee, from + i);
    DayOfSweep(w, employee, from, days, i);
    SweptNext(w, t, all, i);
    LookbackInSweep(w, t, employee, from, days, i);
    CapsOfOneDay(w, Swept(w, t, all[..i]), key);
    LaterSweepsKeepAnomalies(w, t, all[..i + 1], all[i + 1..], key);
  }

  lemma DayOfSweep(w: World, employee: Employee, from: Date, days: nat, i: nat)
    requires employee in w.departments && i < days
    ensures var all, key := Ascending(employee, from, days), (employee, from + i);
      all[i] == key && key !in all[i + 1..]
    ensures FixedOvertime(w, employee, from, i + 1)
         == FixedOvertime(w, employee, from, i) + FixedColumns(w, (employee, from + i)).overtime
    ensures Weekday(from) == 0 && days <= 7 ==> Monday(from + i) == from
  {
    hide FixedColumns;
  }

  /** The overtime of `days` days from `from` on, after a sweep over `swept`: what the engine computes
      for the days it covered, and for the others what the table had. */
  ghost function SeenOvertime(w: World, t: Table, swept: seq<Key>, employee: Employee, from: Date, days: nat): int
    requires employee in w.departments
  {
    if days == 0 then 0 else
    var key := (employee, from + days - 1);
    SeenOvertime(w, t, swept, employee, from, days - 1)
    + (if key in swept then FixedColumns(w, key).overtime else if key in t.records then t.records[key].overtime else 0)
  }

  lemma {:induction false} SumAfterSweep(w: World, t: Table, swept: seq<Key>, employee: Employee, from: Date, days: nat)
    requires employee in w.departments
    ensures SumOvertime(Swept(w, t, swept).records, employee, from, from + days) == SeenOvertime(w, t, swept, employee, from, days)
  {
    hide Swept;
    hide FixedColumns;
    if days > 0 {
      SumAfterSweep(w, t, swept, employee, from, days - 1);
      SweepMeans(w, t, swept, (employee, from + days - 1));
    }
  }

  /** What a recompute of `key` behind a sweep over `swept` sees from `from` on: the days before it, and its own. */
  ghost function Seen(w: World, t: Table, swept: seq<Key>, key: Key, from: Date): int
    requires key.0 in w.departments
  {
    SeenOvertime(w, t, swept, key.0, from, if from <= key.1 then key.1 - from else 0) + FixedColumns(w, key).overtime
  }

  /** After any sweep, in any order, a day has the anomaly of a cap exactly when something was
      worked on it and the cap was exceeded by what its last recompute saw. */
  lemma AnySweepFlagsTheCaps(w: World, t: Table, keys: seq<Key>, i: nat)
    requires i < |keys| && keys[i] !in keys[i + 1..] && keys[i].0 in w.departments
    ensures var swept, work := Swept(w, t, keys).anomalies, FixedColumns(w, keys[i]).work;
      keys[i] in swept
      && (OtCapExceededDaily in swept[keys[i]] <==> work > 600)
      && (OtCapExceededWeekly in swept[keys[i]] <==> work > 0 && Seen(w, t, keys[..i], keys[i], Monday(keys[i].1)) > 600)
      && (OtCapExceededAnnual in swept[keys[i]] <==> work > 0 && Seen(w, t, keys[..i], keys[i], w.yearStart(keys[i].1)) > 6000)
  {
    hide *;
    var key := keys[i];
    SweptNext(w, t, keys, i);
    SeenIs(w, t, keys[..i], key, Monday(key.1));
    SeenIs(w, t, keys[..i], key, w.yearStart(key.1));
    CapsOfOneDay(w, Swept(w, t, keys[..i]), key);
    LaterSweepsKeepAnomalies(w, t, keys[..i + 1], keys[i + 1..], key);
  }

  lemma SeenIs(w: World, t: Table, swept: seq<Key>, key: Key, from: Date)
    requires key.0 in w.departments
    ensures Seen(w, t, swept, key, from)
         == SumOvertime(Swept(w, t, swept).records, key.0, from, key.1) + FixedColumns(w, key).overtime
  {
    if from <= key.1 { SumAfterSweep(w, t, swept, key.0, from, key.1 - from); }
    hide Swept;
    hide SeenOvertime;
    hide FixedColumns;
  }

  /** So two sweeps, in which a day was last recomputed at `i` and at `j`, differ on its weekly cap
      anomaly exactly when it was worked on and only one of the two had seen the cap exceeded. */
  lemma OrderMattersExactly(w: World, t: Table, a: seq<Key>, i: nat, b: seq<Key>, j: nat)
    requires i < |a| && j < |b| && a[i] == b[j] && a[i] !in a[i + 1..] && b[j] !in b[j + 1..] && a[i].0 in w.departments
    ensures var first, second, key := Swept(w, t, a).anomalies, Swept(w, t, b).anomalies, a[i];
      key in first && key in second
      && ((OtCapExceededWeekly in first[key] <==> OtCapExceededWeekly in second[key])
          <==> FixedColumns(w, key).work <= 0
               || ((Seen(w, t, a[..i], key, Monday(key.1)) > 600) == (Seen(w, t, b[..j], key, Monday(key.1)) > 600)))
      && ((OtCapExceededAnnual in first[key] <==> OtCapExceededAnnual in second[key])
          <==> FixedColumns(w, key).work <= 0
               || ((Seen(w, t, a[..i], key, w.yearStart(key.1)) > 6000) == (Seen(w, t, b[..j], key, w.yearStart(key.1)) > 6000)))
  {
    hide *;
    AnySweepFlagsTheCaps(w, t, a, i);
    AnySweepFlagsTheCaps(w, t, b, j);
  }

  const MONDAY: Date := 4
  const TUESDAY: Date := 5

  /** 08:00 to 22:40 on a Monday and a Tuesday, with an hour of lunch and eight ordinary hours. */
  function LongDays(): World {
    World({LongEntry(MONDAY), LongExit(MONDAY), LongEntry(TUESDAY), LongExit(TUESDAY)},
          map[7 := Department(480, 1365, false, 480, Fixed, Some(60))], Rules(10, 10, 5), FixedOffset(0), _ => None, _ => 0)
  }

  function LongEntry(date: Date): Event { Event(0, Some(7), 1, Entry, date * DAY + 28800, false) }

  function LongExit(date: Date): Event { Event(1, Some(7), 1, Exit, date * DAY + 81600, false) }

  lemma LongDayFetched(date: Date)
    requires date in {MONDAY, TUESDAY}
    ensures WindowFor(LongDays(), 7, date)
         == Window(date * DAY + 27900, date * DAY + 82800, date * DAY + 28800, date * DAY + 81900, false)
    ensures FetchedEvents(LongDays().events, 7, WindowFor(LongDays(), 7, date)) == {LongEntry(date), LongExit(date)}
  {
    var w := WindowFor(LongDays(), 7, date);
    assert w == Window(date * DAY + 27900, date * DAY + 82800, date * DAY + 28800, date * DAY + 81900, false);
    assert Own(LongEntry(date), 7, w) && Own(LongExit(date), 7, w);
  }

  lemma OneEmployee()
    ensures 7 in LongDays().departments && TUESDAY == MONDAY + 1 && Weekday(MONDAY) == 0 && MONDAY in {MONDAY, TUESDAY} && TUESDAY in {MONDAY, TUESDAY}
  {
  }

  /** 340 minutes of overtime. */
  lemma LongDayColumns(date: Date)
    requires date in {MONDAY, TUESDAY}
    ensures FixedColumns(LongDays(), (7, date)).work == 820 && FixedColumns(LongDays(), (7, date)).overtime == 340
  {
    hide *;
    OneEmployee();
    LongDayFetched(date);
    var w := WindowFor(LongDays(), 7, date);
    LongDayTimes(date, w);
    LongDayRecord(date, w, ARow(FetchedEvents(LongDays().events, 7, w)));
    WorkOfOnePair(LongDayInput(date, ARow(FetchedEvents(LongDays().events, 7, w))), w, date * DAY + 28800, date * DAY + 81600);
  }

  ghost function LongDayInput(date: Date, rows: seq<Event>): (r: EngineInput)
    ensures r.dept == Department(480, 1365, false, 480, Fixed, Some(60)) && r.leave.None?
  {
    InputFor(LongDays(), 7, date, rows, map[])
  }

  lemma LongDayRecord(date: Date, w: Window, rows: seq<Event>)
    requires 7 in LongDays().departments && w == WindowFor(LongDays(), 7, date)
    requires rows == ARow(FetchedEvents(LongDays().events, 7, w))
    ensures var events := FetchedEvents(LongDays().events, 7, w);
      exists unknown ::
      FixedColumns(LongDays(), (7, date))
      == ColumnsOf(WorkDay(LongDayInput(date, rows), w, TimesOf(events, Entry, w.start, w.end), TimesOf(events, Exit, w.start, w.end), unknown))
  {
    RecordOfWorkDay(LongDayInput(date, rows));
    hide WorkDay;
    hide TimesOf;
    hide FetchedEvents;
    hide Record;
  }

  lemma WorkOfOnePair(input: EngineInput, w: Window, entry: int, exit: int)
    requires exit - entry == 52800 && input.dept == Department(480, 1365, false, 480, Fixed, Some(60))
    ensures forall unknown ::
      var columns := ColumnsOf(WorkDay(input, w, {entry}, {exit}, unknown)); columns.work == 820 && columns.overtime == 340
  {
    OnePairing(entry, exit);
    hide Pairing;
    hide OvertimeCaps;
  }

  lemma LongDayTimes(date: Date, w: Window)
    requires w == Window(date * DAY + 27900, date * DAY + 82800, date * DAY + 28800, date * DAY + 81900, false)
    ensures TimesOf({LongEntry(date), LongExit(date)}, Entry, w.start, w.end) == {date * DAY + 28800}
    ensures TimesOf({LongEntry(date), LongExit(date)}, Exit, w.start, w.end) == {date * DAY + 81600}
  {
    assert Counts(LongEntry(date), Entry, w.start, w.end) && Counts(LongExit(date), Exit, w.start, w.end);
  }

  lemma OnePairing(entry: int, exit: int)
    requires entry <= exit
    ensures Pairing({entry}, {exit}) == ([(entry, exit)], false)
    ensures Earliest({entry}) == entry && Latest({exit}) == exit && TotalSeconds([(entry, exit)]) == exit - entry
  {
    EarliestIs({entry}, entry);
    LatestIs({exit}, exit);
    EarliestIs({exit}, exit);
    assert NotBefore({exit}, entry) == {exit} && LaterThan({entry}, exit) == {};
    assert Pairing({}, LaterThan({exit}, exit)) == ([], false) && [(entry, exit)] + [] == [(entry, exit)];
    assert [(entry, exit)][1..] == [];
  }

  /** The order does matter for that anomaly: swept backwards into an empty table, a Tuesday that
      exceeds the cap only together with its Monday is not flagged. */
  lemma BackwardSweepMissesTheCap()
    ensures var w, empty, monday, tuesday := LongDays(), Table(map[], map[]), (7, MONDAY), (7, TUESDAY);
      var forward, backward := Swept(w, empty, [monday, tuesday]).anomalies, Swept(w, empty, [tuesday, monday]).anomalies;
      && tuesday in forward && OtCapExceededWeekly in forward[tuesday]
      && tuesday in backward && OtCapExceededWeekly !in backward[tuesday]
      && Swept(w, empty, [monday, tuesday]).records == Swept(w, empty, [tuesday, monday]).records
  {
    hide *;
    var w, empty, monday, tuesday := LongDays(), Table(map[], map[]), (7, MONDAY), (7, TUESDAY);
    LongDayColumns(MONDAY);
    LongDayColumns(TUESDAY);
    TuesdaySeen();
    var forward, backward := [monday, tuesday], [tuesday, monday];
    assert forward[1] == tuesday && forward[2..] == [] && forward[..1] == [monday];
    assert backward[0] == tuesday && backward[1..] == [monday] && backward[..0] == [];
    AnySweepFlagsTheCaps(w, empty, forward, 1);
    AnySweepFlagsTheCaps(w, empty, backward, 0);
    SweepIgnoresOrderAndRepetition(w, empty, forward, backward);
  }

  lemma TuesdaySeen()
    ensures 7 in LongDays().departments && MONDAY != TUESDAY && Monday(TUESDAY) == MONDAY
    ensures Seen(LongDays(), Table(map[], map[]), [(7, MONDAY)], (7, TUESDAY), MONDAY) == 680
    ensures Seen(LongDays(), Table(map[], map[]), [], (7, TUESDAY), MONDAY) == 340
  {
    hide *;
    OneEmployee();
    LongDayColumns(MONDAY);
    LongDayColumns(TUESDAY);
    SecondDaySeen(LongDays(), [(7, MONDAY)], 7, MONDAY);
    SecondDaySeen(LongDays(), [], 7, MONDAY);
  }

  lemma SecondDaySeen(w: World, swept: seq<Key>, employee: Employee, monday: Date)
    requires employee in w.departments && Weekday(monday) == 0
    ensures Monday(monday + 1) == monday
    ensures Seen(w, Table(map[], map[]), swept, (employee, monday + 1), monday)
         == (if (employee, monday) in swept then FixedColumns(w, (employee, monday)).overtime else 0)
            + FixedColumns(w, (employee, monday + 1)).overtime
  {
    assert Monday(monday + 1) == monday && Weekday(monday + 1) == 1;
    assert SeenOvertime(w, Table(map[], map[]), swept, employee, monday, 0) == 0;
    hide FixedColumns;
  }

  // --------------------------------------------------- unknown faces are scoped

  /** A stranger's face is held against an employee only when it was seen, in the employee's
      window, at a device the employee used in that window. */
  ghost predicate StrangerSeen(w: World, key: Key)
    requires key.0 in w.departments
  {
    exists e, own :: e in w.events && own in w.events && e.isUnknown && own.employee == Some(key.0)
      && (e == own || (e.employee.None? && e.device == own.device))
      && InDay(w, key, e) && InDay(w, key, own)
  }

  predicate InDay(w: World, key: Key, e: Event)
    requires key.0 in w.departments
  {
    ShiftWindow(key.1, w.departments[key.0], w.rules, w.zone).start <= e.capturedAt
      <= ShiftWindow(key.1, w.departments[key.0], w.rules, w.zone).end
  }

  lemma UnknownFaceIsScoped(w: World, t: Table, key: Key)
    requires key.0 in w.departments && w.leaves(key).None?
    ensures var after := Recomputed(w, t, key);
      key in after.anomalies && (UnknownFaceInWindow in after.anomalies[key] <==> StrangerSeen(w, key))
  {
    RecomputedIs(w, t, key);
    AnomaliesInColumns(DayInput(w, key, t.records));
    StrangerIs(w, key, t.records);
    hide *;
  }

  lemma StrangerIs(w: World, key: Key, records: map<Key, Columns>)
    requires key.0 in w.departments
    ensures UnknownSeen(DayInput(w, key, records)) == StrangerSeen(w, key)
  {
    var input, window := DayInput(w, key, records), WindowFor(w, key.0, key.1);
    var fetched := FetchedEvents(w.events, key.0, window);
    assert forall e :: e in input.events <==> e in SetOf(input.events);
    assert SetOf(input.events) == fetched && WindowOf(input) == window;
    hide ARow;
    hide ShiftWindow;
    hide SumOvertime;
    if UnknownSeen(input) {
      var e :| e in input.events && e.isUnknown && window.start <= e.capturedAt <= window.end;
      var own :| own in w.events && Own(own, key.0, window) && (own == e || (e.employee.None? && own.device == e.device));
      assert InDay(w, key, e) && InDay(w, key, own);
    }
    if StrangerSeen(w, key) {
      var e, own :| e in w.events && own in w.events && e.isUnknown && own.employee == Some(key.0)
        && (e == own || (e.employee.None? && e.device == own.device)) && InDay(w, key, e) && InDay(w, key, own);
      assert Own(own, key.0, window);
      assert Selected(w.events, key.0, window, e);
      assert e in fetched;
    }
  }

  /** An employee without any event in the window is never flagged. */
  lemma AbsentIsNotFlagged(w: World, t: Table, key: Key)
    requires key.0 in w.departments
    requires forall e :: e in w.events && e.employee == Some(key.0) ==> !InDay(w, key, e)
    ensures var after := Recomputed(w, t, key); key in after.anomalies && UnknownFaceInWindow !in after.anomalies[key]
  {
    RecomputedIs(w, t, key);
    hide *;
    if w.leaves(key).None? {
      UnknownFaceIsScoped(w, t, key);
      NoStranger(w, key);
    } else {
      LeaveInColumns(DayInput(w, key, t.records));
    }
  }

  lemma NoStranger(w: World, key: Key)
    requires key.0 in w.departments
    requires forall e :: e in w.events && e.employee == Some(key.0) ==> !InDay(w, key, e)
    ensures !StrangerSeen(w, key)
  {
    hide InDay;
  }
}
