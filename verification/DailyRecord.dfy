/**
 One employee's record for one day. The engine is the source's sequence of steps; its result is
 a function of the day's settings and of which times were punched, and the laws of that
 function are proved below it.
 */
module DailyRecord {
  import opened Options
  import opened ShiftWindows
  import opened Punches

  datatype Anomaly =
    | MissingEntry | MissingExit | UnknownFaceInWindow | LunchPunchMissing
    | OtCapExceededDaily | OtCapExceededWeekly | OtCapExceededAnnual
    | EventsOnLeaveDay | RecomputeAfterEdit | OvernightInferenceAmbiguous

  datatype EngineInput = EngineInput(
    events: seq<Event>, dept: Department, rules: Rules, leave: Option<nat>, anchor: Date, zone: Zone,
    weeklyOtSoFar: int, annualOtSoFar: int, priorRecordExisted: bool)

  datatype Output = Output(
    work: int, overtime: int, late: int, early: int, restDayWorked: bool,
    entryAt: Option<int>, exitAt: Option<int>, leaveId: Option<nat>, anomalies: seq<Anomaly>)

  function Max(a: int, b: int): int { if a >= b then a else b }

  function Min(a: int, b: int): int { if a <= b then a else b }

  /** Days after Monday; day 0 was a Thursday. */
  function Weekday(date: Date): (d: int) ensures 0 <= d < 7 { (date + 3) % 7 }

  predicate Weekend(date: Date) { Weekday(date) >= 5 }

  // ------------------------------------------------------------------ small rules

  function ComputeLunchDeduction(worked: int, hadMidShiftBreak: bool, dept: Department): (int, Option<Anomaly>) {
    var fallback := if dept.lunchDuration.Some? then dept.lunchDuration.value else 0;
    match dept.lunchMode
    case Fixed => if worked > fallback then (fallback, None) else (0, None)
    case Punch => if hadMidShiftBreak then (0, None) else (fallback, Some(LunchPunchMissing))
    case OtherMode => (fallback, None)
  }

  /** A fixed lunch is never longer than the work it is taken from, and never takes all of it. */
  lemma FixedLunchLeavesWork(worked: int, broke: bool, dept: Department)
    requires worked >= 0 && dept.lunchMode.Fixed? && (dept.lunchDuration.Some? ==> dept.lunchDuration.value >= 0)
    ensures var (taken, anomaly) := ComputeLunchDeduction(worked, broke, dept);
      0 <= taken <= worked && anomaly == None && (taken > 0 ==> taken < worked)
  {
  }

  function OvertimeCaps(work: int, overtime: int, weekly: int, annual: int): seq<Anomaly> {
    (if work > 600 then [OtCapExceededDaily] else [])
    + (if weekly + overtime > 600 then [OtCapExceededWeekly] else [])
    + (if annual + overtime > 6000 then [OtCapExceededAnnual] else [])
  }

  method CheckOvertimeCaps(work: int, overtime: int, weekly: int, annual: int) returns (out: seq<Anomaly>)
    ensures out == OvertimeCaps(work, overtime, weekly, annual)
    ensures OtCapExceededDaily in out <==> work > 600
    ensures OtCapExceededWeekly in out <==> weekly + overtime > 600
    ensures OtCapExceededAnnual in out <==> annual + overtime > 6000
  {
    out := [];
    if work > 600 { out := out + [OtCapExceededDaily]; }
    if weekly + overtime > 600 { out := out + [OtCapExceededWeekly]; }
    if annual + overtime > 6000 { out := out + [OtCapExceededAnnual]; }
  }

  function ExpectedMinutes(ordinary: int, date: Date, hasLeave: bool): int {
    if hasLeave || ordinary <= 0 then 0 else if Weekend(date) then 0 else ordinary
  }

  function DeficitMinutes(expected: int, worked: int): int { Max(expected - worked, 0) }

  function TotalSeconds(intervals: seq<(int, int)>): (r: int)
    ensures r >= 0
  {
    if intervals == [] then 0 else Max(intervals[0].1 - intervals[0].0, 0) + TotalSeconds(intervals[1..])
  }

  /** Nothing within the grace; beyond it, the whole of it. */
  function Cliff(seconds: int, graceMinutes: int): int
    requires seconds >= 0
  {
    if seconds > graceMinutes * 60 then seconds / 60 else 0
  }

  // ------------------------------------------------------------ what a record is

  ghost function First(times: set<int>): Option<int> { if times == {} then None else Some(Earliest(times)) }

  ghost function Last(times: set<int>): Option<int> { if times == {} then None else Some(Latest(times)) }

  /** Work, lateness and early departure of a day with an entry and an exit, and what pairing and lunch remark. */
  ghost function Attended(entries: set<int>, exits: set<int>, input: EngineInput, w: Window): (int, int, int, seq<Anomaly>)
    requires entries != {} && exits != {}
  {
    var (intervals, open) := Pairing(entries, exits);
    var raw := TotalSeconds(intervals) / 60;
    var (lunch, remark) := ComputeLunchDeduction(raw, |intervals| > 1, input.dept);
    (Max(raw - lunch, 0),
     Cliff(Max(Earliest(entries) - w.nominalStart, 0), input.rules.lateTolerance + input.rules.bonus),
     Cliff(Max(w.nominalEnd - Latest(exits), 0), input.rules.earlyTolerance + input.rules.bonus),
     (if open then [MissingExit] else []) + (if remark.Some? then [remark.value] else []))
  }

  ghost function Minutes(entries: set<int>, exits: set<int>, input: EngineInput, w: Window): (int, int, int, seq<Anomaly>) {
    if entries == {} then (0, 0, 0, [MissingEntry])
    else if exits == {} then (0, 0, 0, [MissingExit])
    else Attended(entries, exits, input, w)
  }

  function LeaveDay(input: EngineInput, leave: nat): Output {
    Output(0, 0, 0, 0, false, None, None, Some(leave),
           (if SetOf(input.events) != {} then [EventsOnLeaveDay] else [])
           + (if input.priorRecordExisted then [RecomputeAfterEdit] else []))
  }

  /** The record of a working day, from the times punched and whether an unknown face was seen. */
  ghost function WorkDay(input: EngineInput, w: Window, entries: set<int>, exits: set<int>, unknown: bool): Output {
    var (work, late, early, remarks) := Minutes(entries, exits, input, w);
    var overtime := Max(work - input.dept.ordinaryDailyMinutes, 0);
    Output(work, overtime, late, early, Weekend(input.anchor) && work > 0, First(entries), Last(exits), None,
           (if w.ambiguous then [OvernightInferenceAmbiguous] else [])
           + (if unknown then [UnknownFaceInWindow] else [])
           + remarks
           + (if work > 0 then OvertimeCaps(work, overtime, input.weeklyOtSoFar, input.annualOtSoFar) else [])
           + (if input.priorRecordExisted then [RecomputeAfterEdit] else []))
  }

  ghost function Record(input: EngineInput): Output {
    if input.leave.Some? then LeaveDay(input, input.leave.value) else
    var w := ShiftWindow(input.anchor, input.dept, input.rules, input.zone);
    var events := SetOf(input.events);
    WorkDay(input, w, TimesOf(events, Entry, w.start, w.end), TimesOf(events, Exit, w.start, w.end), UnknownIn(events, w.start, w.end))
  }

  // ------------------------------------------------------------------- the engine

  method AttendedMinutes(agg: Aggregated, input: EngineInput, w: Window) returns (work: int, late: int, early: int, remarks: seq<Anomaly>)
    requires agg.canonicalEntry.Some? && agg.canonicalEntry == First(Times(agg.entries))
    requires agg.canonicalExit.Some? && agg.canonicalExit == Last(Times(agg.exits))
    ensures (work, late, early, remarks) == Attended(Times(agg.entries), Times(agg.exits), input, w)
  {
    hide Pairing;
    remarks := [];
    var intervals, hasOpenEntry := PairWorkIntervals(agg.entries, agg.exits);
    if hasOpenEntry { remarks := remarks + [MissingExit]; }
    var rawMinutes := TotalSeconds(intervals) / 60;
    var lunch, remark := ComputeLunchDeduction(rawMinutes, |intervals| > 1, input.dept).0,
                         ComputeLunchDeduction(rawMinutes, |intervals| > 1, input.dept).1;
    if remark.Some? { remarks := remarks + [remark.value]; }
    work := Max(rawMinutes - lunch, 0);

    var lateGrace := (input.rules.lateTolerance + input.rules.bonus) * 60;
    var rawLate := Max(agg.canonicalEntry.value - w.nominalStart, 0);
    late := if rawLate > lateGrace then rawLate / 60 else 0;

    var earlyGrace := (input.rules.earlyTolerance + input.rules.bonus) * 60;
    var rawEarly := Max(w.nominalEnd - agg.canonicalExit.value, 0);
    early := if rawEarly > earlyGrace then rawEarly / 60 else 0;
    assert remarks == (if hasOpenEntry then [MissingExit] else []) + (if remark.Some? then [remark.value] else []);
  }

  method LeaveOverlay(input: EngineInput, leave: nat) returns (out: Output)
    ensures out == LeaveDay(input, leave)
  {
    var anomalies: seq<Anomaly> := [];
    if input.events != [] {
      anomalies := anomalies + [EventsOnLeaveDay];
      assert input.events[0] in SetOf(input.events);
    }
    if input.priorRecordExisted { anomalies := anomalies + [RecomputeAfterEdit]; }
    out := Output(0, 0, 0, 0, false, None, None, Some(leave), anomalies);
    assert anomalies == (if SetOf(input.events) != {} then [EventsOnLeaveDay] else [])
                        + (if input.priorRecordExisted then [RecomputeAfterEdit] else []);
  }

  method MinutesOf(input: EngineInput, w: Window, agg: Aggregated) returns (work: int, late: int, early: int, remarks: seq<Anomaly>)
    requires agg.canonicalEntry == First(Times(agg.entries)) && agg.canonicalExit == Last(Times(agg.exits))
    ensures (work, late, early, remarks) == Minutes(Times(agg.entries), Times(agg.exits), input, w)
  {
    hide Attended;
    hide Times;
    work, late, early, remarks := 0, 0, 0, [];
    if agg.canonicalEntry.None? {
      remarks := [MissingEntry];
    } else if agg.canonicalExit.None? {
      remarks := [MissingExit];
    } else {
      work, late, early, remarks := AttendedMinutes(agg, input, w);
    }
  }

  method FromAggregate(input: EngineInput, w: Window, agg: Aggregated) returns (out: Output)
    requires agg.canonicalEntry == First(Times(agg.entries)) && agg.canonicalExit == Last(Times(agg.exits))
    ensures out == WorkDay(input, w, Times(agg.entries), Times(agg.exits), agg.unknownInWindow)
  {
    hide Minutes;
    hide Times;
    hide OvertimeCaps;
    var anomalies: seq<Anomaly> := [];
    if w.ambiguous { anomalies := anomalies + [OvernightInferenceAmbiguous]; }
    assert anomalies == if w.ambiguous then [OvernightInferenceAmbiguous] else [];
    if agg.unknownInWindow { anomalies := anomalies + [UnknownFaceInWindow]; }
    ghost var a := (if w.ambiguous then [OvernightInferenceAmbiguous] else []) + (if agg.unknownInWindow then [UnknownFaceInWindow] else []);
    assert anomalies == a;
    var work, late, early, remarks := MinutesOf(input, w, agg);
    anomalies := anomalies + remarks;
    var overtime := Max(work - input.dept.ordinaryDailyMinutes, 0);
    if work > 0 {
      var caps := CheckOvertimeCaps(work, overtime, input.weeklyOtSoFar, input.annualOtSoFar);
      anomalies := anomalies + caps;
    }
    ghost var caps := if work > 0 then OvertimeCaps(work, overtime, input.weeklyOtSoFar, input.annualOtSoFar) else [];
    assert anomalies == a + remarks + caps;
    var restDayWorked := Weekend(input.anchor) && work > 0;
    if input.priorRecordExisted { anomalies := anomalies + [RecomputeAfterEdit]; }
    assert anomalies == a + remarks + caps + (if input.priorRecordExisted then [RecomputeAfterEdit] else []);
    out := Output(work, overtime, late, early, restDayWorked, agg.canonicalEntry, agg.canonicalExit, None, anomalies);
  }

  method ComputeDailyRecord(input: EngineInput) returns (out: Output)
    ensures out == Record(input)
  {
    if input.leave.Some? {
      out := LeaveOverlay(input, input.leave.value);
      return;
    }
    var w := ShiftWindow(input.anchor, input.dept, input.rules, input.zone);
    var agg := AggregateEvents(input.events, w.start, w.end);
    hide *;
    assert agg.canonicalEntry == First(Times(agg.entries)) by { FirstIs(Times(agg.entries), agg.canonicalEntry); }
    assert agg.canonicalExit == Last(Times(agg.exits)) by { LastIs(Times(agg.exits), agg.canonicalExit); }
    out := FromAggregate(input, w, agg);
    RecordOfWorkDay(input);
  }

  lemma FirstIs(times: set<int>, t: Option<int>)
    requires if times == {} then t == None else t.Some? && IsMin(times, t.value)
    ensures t == First(times)
  {
    if t.Some? { EarliestIs(times, t.value); }
  }

  lemma LastIs(times: set<int>, t: Option<int>)
    requires if times == {} then t == None else t.Some? && IsMax(times, t.value)
    ensures t == Last(times)
  {
    if t.Some? { LatestIs(times, t.value); }
  }

  lemma RecordOfWorkDay(input: EngineInput)
    requires input.leave.None?
    ensures var w := ShiftWindow(input.anchor, input.dept, input.rules, input.zone);
      Record(input) == WorkDay(input, w, TimesOf(SetOf(input.events), Entry, w.start, w.end),
                               TimesOf(SetOf(input.events), Exit, w.start, w.end), UnknownIn(SetOf(input.events), w.start, w.end))
  {
    hide WorkDay;
    hide ShiftWindow;
    hide TimesOf;
  }

  // ------------------------------------------------------- order and replays

  /** The record depends on which events there are, not on their order or on how often each occurs. */
  lemma RecordIgnoresOrderAndCopies(input: EngineInput, events: seq<Event>)
    requires forall e :: e in events <==> e in input.events
    ensures Record(input.(events := events)) == Record(input)
  {
    assert SetOf(events) == SetOf(input.events);
  }

  lemma RecordIgnoresPermutation(input: EngineInput, events: seq<Event>, copies: seq<Event>)
    requires multiset(events) == multiset(input.events) && forall e :: e in copies ==> e in input.events
    ensures Record(input.(events := events + copies)) == Record(input)
  {
    assert forall e :: e in multiset(events) <==> e in events;
    assert forall e :: e in multiset(input.events) <==> e in input.events;
    RecordIgnoresOrderAndCopies(input, events + copies);
  }

  // --------------------------------------------------------- minute conservation

  /** What is worked lies between the first entry and the last exit. */
  lemma {:induction false} WorkedWithinSpan(entries: set<int>, exits: set<int>)
    requires entries != {} && exits != {}
    ensures TotalSeconds(Pairing(entries, exits).0) <= Max(Latest(exits) - Earliest(entries), 0)
    decreases |entries|
  {
    var start := Earliest(entries);
    if NotBefore(exits, start) != {} {
      var end := Earliest(NotBefore(exits, start));
      var entries', exits' := LaterThan(entries, end), LaterThan(exits, end);
      var rest := Pairing(entries', exits').0;
      assert ([(start, end)] + rest)[1..] == rest;
      LaterShrinks(entries, start, end);
      if entries' == {} || exits' == {} {
        assert rest == [];
      } else {
        WorkedWithinSpan(entries', exits');
        LatestIs(exits', Latest(exits));
      }
    }
  }

  lemma Floors(a: int, b: int, c: int)
    requires a >= 0 && b >= 0 && c >= 0
    ensures a / 60 + b / 60 + c / 60 <= (a + b + c) / 60
  {
  }

  predicate Sensible(input: EngineInput) {
    && input.rules.lateTolerance >= 0 && input.rules.earlyTolerance >= 0 && input.rules.bonus >= 0
    && (input.dept.lunchDuration.Some? ==> input.dept.lunchDuration.value >= 0)
  }

  /** No minute is counted twice: late, worked and early minutes fit between the earlier of shift
      start and first entry and the later of shift end and last exit. */
  lemma MinutesAreConserved(input: EngineInput, w: Window, entries: set<int>, exits: set<int>, unknown: bool)
    requires Sensible(input) && entries != {} && exits != {} && Earliest(entries) <= Latest(exits)
    ensures var out := WorkDay(input, w, entries, exits, unknown);
      out.late + out.work + out.early
        <= (Max(w.nominalEnd, Latest(exits)) - Min(w.nominalStart, Earliest(entries))) / 60
    ensures var out := WorkDay(input, w, entries, exits, unknown);
      0 <= out.work <= (Latest(exits) - Earliest(entries)) / 60
  {
    WorkedWithinSpan(entries, exits);
    var total := TotalSeconds(Pairing(entries, exits).0);
    var late, early := Max(Earliest(entries) - w.nominalStart, 0), Max(w.nominalEnd - Latest(exits), 0);
    var span := Latest(exits) - Earliest(entries);
    hide Pairing;
    assert 0 <= total / 60 <= span / 60;
    var out := WorkDay(input, w, entries, exits, unknown);
    assert 0 <= out.work <= total / 60;
    var left, right := Max(Earliest(entries) - w.nominalStart, 0), Max(w.nominalEnd - Latest(exits), 0);
    Floors(left, span, right);
    assert left + span + right == Max(w.nominalEnd, Latest(exits)) - Min(w.nominalStart, Earliest(entries));
  }

  /** With every exit before every entry nothing was worked, and what the cliffs let through can
      count time twice: when late and early departure are both beyond the grace and add up to more
      than the shift; when only one of them is and it reaches past the other end of the day; or
      when nothing is and the shift ends before it begins. */
  predicate CountsTwice(entry: int, exit: int, start: int, end: int, lateGrace: int, earlyGrace: int) {
    var late, early := entry - start > lateGrace * 60, end - exit > earlyGrace * 60;
    exit < entry &&
    if late && early then (entry - start) / 60 + (end - exit) / 60 > (end - start) / 60
    else if late then (entry - start) / 60 > (Max(end, exit) - start) / 60
    else if early then (end - exit) / 60 > (end - Min(start, entry)) / 60
    else Max(end, exit) < Min(start, entry)
  }

  /** Exactly when late, worked and early minutes fit into the day. */
  lemma ConservedExactly(input: EngineInput, w: Window, entries: set<int>, exits: set<int>, unknown: bool)
    requires Sensible(input) && entries != {} && exits != {}
    ensures var out, r := WorkDay(input, w, entries, exits, unknown), input.rules;
      (out.late + out.work + out.early
         <= (Max(w.nominalEnd, Latest(exits)) - Min(w.nominalStart, Earliest(entries))) / 60)
      == !CountsTwice(Earliest(entries), Latest(exits), w.nominalStart, w.nominalEnd,
                      r.lateTolerance + r.bonus, r.earlyTolerance + r.bonus)
  {
    if Earliest(entries) <= Latest(exits) {
      MinutesAreConserved(input, w, entries, exits, unknown);
    } else {
      NothingPaired(entries, exits);
      assert ComputeLunchDeduction(0, false, input.dept).0 >= 0;
      hide Pairing;
    }
  }

  lemma NothingPaired(entries: set<int>, exits: set<int>)
    requires entries != {} && exits != {} && Latest(exits) < Earliest(entries)
    ensures Pairing(entries, exits) == ([], true)
  {
    assert NotBefore(exits, Earliest(entries)) == {};
  }

  /** Inside the shift, where both graces are exceeded and only there, time between the last exit
      and the first entry can be counted as late and as left early. */
  lemma CountsTwiceInsideTheShift(entry: int, exit: int, start: int, end: int, lateGrace: nat, earlyGrace: nat)
    requires start <= exit < entry <= end
    ensures CountsTwice(entry, exit, start, end, lateGrace, earlyGrace)
      == (entry - start > lateGrace * 60 && end - exit > earlyGrace * 60
          && (entry - start) / 60 + (end - exit) / 60 > (end - start) / 60)
    ensures entry >= exit + 120 && entry - start > lateGrace * 60 && end - exit > earlyGrace * 60
      ==> CountsTwice(entry, exit, start, end, lateGrace, earlyGrace)
  {
  }

  /** A shift from 08:00 to 17:00; the only exit at 10:00, the only entry at 15:00. */
  function ExitBeforeEntry(): EngineInput {
    EngineInput([Event(1, Some(7), 1, Entry, 54000, false), Event(2, Some(7), 1, Exit, 36000, false)],
                Department(480, 1020, false, 480, Fixed, Some(60)), Rules(10, 10, 5), None, 0, FixedOffset(0), 0, 0, false)
  }

  /** Seven hours late and seven hours early in a shift of nine. */
  lemma DoubleCountedWhenExitComesFirst()
    ensures var out, w := Record(ExitBeforeEntry()), ShiftWindow(0, ExitBeforeEntry().dept, ExitBeforeEntry().rules, FixedOffset(0));
      out.late == 420 && out.early == 420 && out.work == 0
      && out.late + out.work + out.early > (Max(w.nominalEnd, 36000) - Min(w.nominalStart, 54000)) / 60
  {
    var input := ExitBeforeEntry();
    var w := ShiftWindow(0, input.dept, input.rules, FixedOffset(0));
    var events := SetOf(input.events);
    assert w == Window(27900, 62100, 28800, 61200, false);
    assert events == {input.events[0], input.events[1]};
    assert TimesOf(events, Entry, w.start, w.end) == {54000} by { assert Counts(input.events[0], Entry, w.start, w.end); }
    assert TimesOf(events, Exit, w.start, w.end) == {36000} by { assert Counts(input.events[1], Exit, w.start, w.end); }
    EarliestIs({54000}, 54000);
    LatestIs({36000}, 36000);
    NothingPaired({54000}, {36000});
    RecordOfWorkDay(input);
    hide Pairing;
  }

  /** Lateness and early departure are all or nothing. */
  lemma LatenessIsACliff(input: EngineInput, w: Window, entries: set<int>, exits: set<int>, unknown: bool)
    requires Sensible(input)
    ensures var out := WorkDay(input, w, entries, exits, unknown);
      out.late == 0 || (out.late >= input.rules.lateTolerance + input.rules.bonus && out.late == (Earliest(entries) - w.nominalStart) / 60)
    ensures var out := WorkDay(input, w, entries, exits, unknown);
      out.early == 0 || (out.early >= input.rules.earlyTolerance + input.rules.bonus && out.early == (w.nominalEnd - Latest(exits)) / 60)
    ensures var out := WorkDay(input, w, entries, exits, unknown);
      entries != {} && exits != {} && Earliest(entries) - w.nominalStart <= (input.rules.lateTolerance + input.rules.bonus) * 60
      ==> out.late == 0
  {
    hide Pairing;
  }

  // ------------------------------------------------------------------ the balance

  predicate Balanced(out: Output, ordinary: int, date: Date, hasLeave: bool) {
    var expected := ExpectedMinutes(ordinary, date, hasLeave);
    out.work + DeficitMinutes(expected, out.work) == expected + out.overtime
  }

  /** Work plus deficit is expected plus overtime on every weekday with a positive working day and
      on every leave day, and otherwise exactly when there is no ordinary day to exceed or nothing was worked. */
  lemma WorkBalances(input: EngineInput)
    ensures Balanced(Record(input), input.dept.ordinaryDailyMinutes, input.anchor, input.leave.Some?)
      == (input.leave.Some?
          || (!Weekend(input.anchor) && input.dept.ordinaryDailyMinutes > 0)
          || input.dept.ordinaryDailyMinutes == 0
          || (input.dept.ordinaryDailyMinutes > 0 && Record(input).work == 0))
  {
    hide Pairing;
    assert Record(input).work >= 0;
  }

  // ------------------------------------------------------------------- anomalies

  predicate NoRepeats<T(==)>(s: seq<T>) { forall i, j :: 0 <= i < j < |s| ==> s[i] != s[j] }

  function Rank(a: Anomaly): nat {
    match a
    case OvernightInferenceAmbiguous => 0
    case UnknownFaceInWindow => 1
    case MissingEntry => 2
    case MissingExit => 3
    case LunchPunchMissing => 4
    case OtCapExceededDaily => 5
    case OtCapExceededWeekly => 6
    case OtCapExceededAnnual => 7
    case EventsOnLeaveDay => 8
    case RecomputeAfterEdit => 9
  }

  predicate Ranked(s: seq<Anomaly>) { forall i, j :: 0 <= i < j < |s| ==> Rank(s[i]) < Rank(s[j]) }

  lemma RankedAppend(a: seq<Anomaly>, b: seq<Anomaly>, bound: nat)
    requires Ranked(a) && Ranked(b)
    requires (forall x :: x in a ==> Rank(x) < bound) && forall x :: x in b ==> bound <= Rank(x)
    ensures Ranked(a + b)
  {
    forall i, j | 0 <= i < j < |a + b| ensures Rank((a + b)[i]) < Rank((a + b)[j]) {
      if i < |a| <= j { assert a[i] in a && b[j - |a|] in b; }
    }
  }

  /** No anomaly is listed twice, in a fixed order. */
  lemma AnomaliesAreRanked(input: EngineInput)
    ensures Ranked(Record(input).anomalies) && NoRepeats(Record(input).anomalies)
  {
    if input.leave.None? {
      var w := ShiftWindow(input.anchor, input.dept, input.rules, input.zone);
      var events := SetOf(input.events);
      var entries, exits := TimesOf(events, Entry, w.start, w.end), TimesOf(events, Exit, w.start, w.end);
      WorkDayRanked(input, w, entries, exits, UnknownIn(events, w.start, w.end));
    }
  }

  lemma WorkDayRanked(input: EngineInput, w: Window, entries: set<int>, exits: set<int>, unknown: bool)
    ensures Ranked(WorkDay(input, w, entries, exits, unknown).anomalies)
  {
    var (work, late, early, remarks) := Minutes(entries, exits, input, w);
    RemarksRanked(entries, exits, input, w);
    hide Minutes;
    var overtime := Max(work - input.dept.ordinaryDailyMinutes, 0);
    var a := (if w.ambiguous then [OvernightInferenceAmbiguous] else []) + (if unknown then [UnknownFaceInWindow] else []);
    var caps := if work > 0 then OvertimeCaps(work, overtime, input.weeklyOtSoFar, input.annualOtSoFar) else [];
    CapsRanked(work, overtime, input.weeklyOtSoFar, input.annualOtSoFar);
    hide OvertimeCaps;
    var last := if input.priorRecordExisted then [RecomputeAfterEdit] else [];
    assert WorkDay(input, w, entries, exits, unknown).anomalies == a + remarks + caps + last;
    hide WorkDay;
    RankedAppend(a, remarks, 2);
    RankedAppend(a + remarks, caps, 5);
    RankedAppend(a + remarks + caps, last, 9);
  }

  lemma RemarksRanked(entries: set<int>, exits: set<int>, input: EngineInput, w: Window)
    ensures var remarks := Minutes(entries, exits, input, w).3; Ranked(remarks) && forall x :: x in remarks ==> 2 <= Rank(x) < 5
  {
    hide Pairing;
  }

  lemma CapsRanked(work: int, overtime: int, weekly: int, annual: int)
    ensures var caps := OvertimeCaps(work, overtime, weekly, annual); Ranked(caps) && forall x :: x in caps ==> 5 <= Rank(x) < 8
  {
  }
}
