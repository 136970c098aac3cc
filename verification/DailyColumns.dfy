/**
 What the engine stores for a day, column by column and anomaly by anomaly, in terms of the events
 themselves: nothing here goes by the engine's own steps.
 */
module DailyColumns {
  import opened Options
  import opened ShiftWindows
  import opened Punches
  import opened DailyRecord

  /** The window of the day. */
  function WindowOf(input: EngineInput): Window { ShiftWindow(input.anchor, input.dept, input.rules, input.zone) }

  /** A known badge was held at a reader of this direction at `t`, inside the window. */
  ghost predicate Punched(input: EngineInput, direction: Direction, t: int) {
    exists e :: e in input.events && !e.isUnknown && e.direction == direction && e.capturedAt == t
      && WindowOf(input).start <= t <= WindowOf(input).end
  }

  ghost function EntriesOf(input: EngineInput): set<int> {
    TimesOf(SetOf(input.events), Entry, WindowOf(input).start, WindowOf(input).end)
  }

  ghost function ExitsOf(input: EngineInput): set<int> {
    TimesOf(SetOf(input.events), Exit, WindowOf(input).start, WindowOf(input).end)
  }

  lemma PunchedIs(input: EngineInput)
    ensures forall t :: t in EntriesOf(input) <==> Punched(input, Entry, t)
    ensures forall t :: t in ExitsOf(input) <==> Punched(input, Exit, t)
  {
    OnePunch(input, Entry);
    OnePunch(input, Exit);
    hide *;
  }

  lemma OnePunch(input: EngineInput, direction: Direction)
    ensures var w := WindowOf(input);
      forall t :: t in TimesOf(SetOf(input.events), direction, w.start, w.end) <==> Punched(input, direction, t)
    ensures EntriesOf(input) == TimesOf(SetOf(input.events), Entry, WindowOf(input).start, WindowOf(input).end)
    ensures ExitsOf(input) == TimesOf(SetOf(input.events), Exit, WindowOf(input).start, WindowOf(input).end)
  {
    var w := WindowOf(input);
    hide WindowOf;
    forall t ensures t in TimesOf(SetOf(input.events), direction, w.start, w.end) <==> Punched(input, direction, t) {
      if Punched(input, direction, t) {
        var e :| e in input.events && !e.isUnknown && e.direction == direction && e.capturedAt == t && w.start <= t <= w.end;
        assert e in SetOf(input.events) && Counts(e, direction, w.start, w.end);
      }
    }
  }

  // ------------------------------------------------------------ seconds worked

  /** The `length` seconds from `from` on. */
  ghost function Stretch(from: int, length: nat): (r: set<int>)
    ensures forall t :: t in r <==> from <= t < from + length
    ensures |r| == length
  {
    if length == 0 then {} else Stretch(from, length - 1) + {from + length - 1}
  }

  function LengthOf(interval: (int, int)): nat { if interval.0 <= interval.1 then interval.1 - interval.0 else 0 }

  /** The seconds inside some interval. */
  ghost function Covered(intervals: seq<(int, int)>): set<int> {
    if intervals == [] then {} else Stretch(intervals[0].0, LengthOf(intervals[0])) + Covered(intervals[1..])
  }

  ghost predicate Apart(intervals: seq<(int, int)>) {
    && (forall i :: 0 <= i < |intervals| ==> intervals[i].0 <= intervals[i].1)
    && forall i :: 0 < i < |intervals| ==> intervals[i - 1].1 < intervals[i].0
  }

  lemma {:induction false} CoveredLater(intervals: seq<(int, int)>, t: int)
    requires Apart(intervals) && t in Covered(intervals)
    ensures intervals != [] && t >= intervals[0].0
    decreases |intervals|
  {
    if t in Covered(intervals[1..]) {
      assert forall i :: 0 < i < |intervals[1..]| ==> intervals[1..][i - 1] == intervals[i] && intervals[1..][i] == intervals[i + 1];
      CoveredLater(intervals[1..], t);
      assert intervals[1..][0] == intervals[1];
    }
  }

  /** A second is covered exactly when it lies in one of the intervals. */
  lemma {:induction false} CoveredMeans(intervals: seq<(int, int)>, t: int)
    ensures t in Covered(intervals) <==> exists i :: 0 <= i < |intervals| && intervals[i].0 <= t < intervals[i].1
    decreases |intervals|
  {
    if intervals != [] {
      CoveredMeans(intervals[1..], t);
      if i :| 0 <= i < |intervals| && intervals[i].0 <= t < intervals[i].1 {
        if i > 0 { assert intervals[1..][i - 1] == intervals[i]; }
      }
      if i :| 0 <= i < |intervals[1..]| && intervals[1..][i].0 <= t < intervals[1..][i].1 {
        assert intervals[1..][i] == intervals[i + 1];
      }
    }
  }

  /** Every second of the intervals is counted once. */
  lemma {:induction false} SecondsAreCounted(intervals: seq<(int, int)>)
    requires Apart(intervals)
    ensures TotalSeconds(intervals) == |Covered(intervals)|
    decreases |intervals|
  {
    if intervals != [] {
      var rest := intervals[1..];
      assert forall i :: 0 <= i < |rest| ==> rest[i] == intervals[i + 1];
      SecondsAreCounted(rest);
      forall t | t in Stretch(intervals[0].0, LengthOf(intervals[0])) ensures t !in Covered(rest) {
        if t in Covered(rest) { CoveredLater(rest, t); }
      }
      SizeOfSum(Stretch(intervals[0].0, LengthOf(intervals[0])), Covered(rest));
    }
  }

  lemma {:induction false} SizeOfSum(a: set<int>, b: set<int>)
    requires a !! b
    ensures |a + b| == |a| + |b|
  {
  }

  // ------------------------------------------------------------------ the columns

  ghost predicate UnknownSeen(input: EngineInput) {
    exists e :: e in input.events && e.isUnknown && WindowOf(input).start <= e.capturedAt <= WindowOf(input).end
  }

  /** A working day: the record is made of the window and the punched times. */
  lemma WorkingDay(input: EngineInput)
    requires input.leave.None?
    ensures Record(input) == WorkDay(input, WindowOf(input), EntriesOf(input), ExitsOf(input), UnknownSeen(input))
  {
    RecordOfWorkDay(input);
    UnknownIs(input);
    hide WorkDay;
    hide Record;
    hide ShiftWindow;
    hide TimesOf;
    hide UnknownSeen;
    hide UnknownIn;
  }

  lemma UnknownIs(input: EngineInput)
    ensures UnknownSeen(input) == UnknownIn(SetOf(input.events), WindowOf(input).start, WindowOf(input).end)
  {
    var w := WindowOf(input);
    hide WindowOf;
    if e :| e in input.events && e.isUnknown && w.start <= e.capturedAt <= w.end {
      assert e in SetOf(input.events) && InWindow(e, w.start, w.end);
    }
  }

  /** First entry and last exit. */
  lemma EntryAndExit(input: EngineInput)
    requires input.leave.None?
    ensures var r := Record(input).entryAt;
      if r.Some? then Punched(input, Entry, r.value) && forall t :: Punched(input, Entry, t) ==> r.value <= t
      else forall t :: !Punched(input, Entry, t)
    ensures var r := Record(input).exitAt;
      if r.Some? then Punched(input, Exit, r.value) && forall t :: Punched(input, Exit, t) ==> t <= r.value
      else forall t :: !Punched(input, Exit, t)
    ensures Record(input).leaveId == None
  {
    WorkingDay(input);
    PunchedIs(input);
    hide Punched;
    hide EntriesOf;
    hide ExitsOf;
    hide UnknownSeen;
    hide Minutes;
    hide OvertimeCaps;
    hide Record;
  }

  /** The whole minutes between paired punches. */
  ghost function PairedMinutes(input: EngineInput): int {
    TotalSeconds(Pairing(EntriesOf(input), ExitsOf(input)).0) / 60
  }

  /** They are the seconds inside the pairing's intervals, each counted once. */
  lemma PairedMinutesAreCounted(input: EngineInput)
    ensures PairedMinutes(input) == |Covered(Pairing(EntriesOf(input), ExitsOf(input)).0)| / 60
  {
    PairingMeans(EntriesOf(input), ExitsOf(input));
    SecondsAreCounted(Pairing(EntriesOf(input), ExitsOf(input)).0);
    hide Pairing;
    hide TotalSeconds;
    hide Covered;
    hide EntriesOf;
    hide ExitsOf;
  }

  ghost function Intervals(input: EngineInput): nat { |Pairing(EntriesOf(input), ExitsOf(input)).0| }

  /** The configured lunch, or none. */
  function LunchMinutes(dept: Department): int { if dept.lunchDuration.Some? then dept.lunchDuration.value else 0 }

  ghost predicate BothPunched(input: EngineInput) {
    (exists t :: Punched(input, Entry, t)) && exists t :: Punched(input, Exit, t)
  }

  lemma BothPunchedIs(input: EngineInput)
    ensures BothPunched(input) == (EntriesOf(input) != {} && ExitsOf(input) != {})
    ensures EntriesOf(input) == {} <==> forall t :: !Punched(input, Entry, t)
  {
    PunchedIs(input);
    if EntriesOf(input) != {} { assert Punched(input, Entry, Earliest(EntriesOf(input))); }
    if ExitsOf(input) != {} { assert Punched(input, Exit, Earliest(ExitsOf(input))); }
    hide Punched;
    hide EntriesOf;
    hide ExitsOf;
  }

  /** Work of a day with an entry and an exit, by lunch mode. */
  lemma WorkInColumns(input: EngineInput)
    requires input.leave.None? && BothPunched(input)
    ensures var out, total, lunch := Record(input), PairedMinutes(input), LunchMinutes(input.dept);
      && (input.dept.lunchMode == Punch && Intervals(input) > 1 ==> out.work == total)
      && (input.dept.lunchMode == Punch && Intervals(input) <= 1 ==> out.work == if total > lunch then total - lunch else 0)
      && (input.dept.lunchMode == Fixed ==> out.work == if total > lunch then total - lunch else total)
      && (input.dept.lunchMode == OtherMode ==> out.work == if total > lunch then total - lunch else 0)
  {
    WorkingDay(input);
    BothPunchedIs(input);
    WorkOf(input, WindowOf(input), EntriesOf(input), ExitsOf(input), UnknownSeen(input));
    hide BothPunched;
    hide EntriesOf;
    hide ExitsOf;
    hide UnknownSeen;
    hide Pairing;
    hide WorkDay;
    hide Record;
  }

  lemma WorkOf(input: EngineInput, w: Window, entries: set<int>, exits: set<int>, unknown: bool)
    requires entries != {} && exits != {}
    ensures var total, lunch := TotalSeconds(Pairing(entries, exits).0) / 60, LunchMinutes(input.dept);
      WorkDay(input, w, entries, exits, unknown).work ==
        match input.dept.lunchMode
        case Punch =>
          if |Pairing(entries, exits).0| > 1 then total else if total > lunch then total - lunch else 0
        case Fixed => if total > lunch then total - lunch else total
        case OtherMode => if total > lunch then total - lunch else 0
  {
    hide Pairing;
    hide OvertimeCaps;
    hide TotalSeconds;
  }

  /** Lateness and early departure of such a day: nothing within tolerance and bonus, beyond them all of it. */
  lemma LatenessInColumns(input: EngineInput)
    requires input.leave.None? && BothPunched(input)
    ensures var out, r, w := Record(input), input.rules, WindowOf(input);
      out.entryAt.Some? && out.exitAt.Some? &&
      var late, early := out.entryAt.value - w.nominalStart, w.nominalEnd - out.exitAt.value;
      && out.late == (if late > 0 && late > 60 * (r.lateTolerance + r.bonus) then late / 60 else 0)
      && out.early == (if early > 0 && early > 60 * (r.earlyTolerance + r.bonus) then early / 60 else 0)
  {
    WorkingDay(input);
    BothPunchedIs(input);
    hide BothPunched;
    hide EntriesOf;
    hide ExitsOf;
    hide UnknownSeen;
    hide WindowOf;
    hide Pairing;
    hide OvertimeCaps;
    hide ComputeLunchDeduction;
    hide Record;
  }

  /** Without an entry or without an exit there are no minutes, only overtime where the ordinary day is negative. */
  lemma HalfADayHasNoMinutes(input: EngineInput)
    requires input.leave.None? && !BothPunched(input)
    ensures var out := Record(input); out.work == 0 && out.late == 0 && out.early == 0
  {
    WorkingDay(input);
    BothPunchedIs(input);
    hide BothPunched;
    hide EntriesOf;
    hide ExitsOf;
    hide UnknownSeen;
    hide WindowOf;
    hide Attended;
    hide OvertimeCaps;
    hide Record;
  }

  /** Overtime is what exceeds the ordinary day, and a rest day is a Saturday or a Sunday: day 2 after
      the epoch was the first Saturday. */
  lemma OvertimeInColumns(input: EngineInput)
    requires input.leave.None?
    ensures var out, ordinary := Record(input), input.dept.ordinaryDailyMinutes;
      && out.work >= 0
      && out.overtime == (if out.work > ordinary then out.work - ordinary else 0)
      && (out.restDayWorked <==> out.work > 0 && ((input.anchor - 2) % 7 == 0 || (input.anchor - 3) % 7 == 0))
  {
    WorkingDay(input);
    WeekendIs(input.anchor);
    hide Weekend;
    hide EntriesOf;
    hide ExitsOf;
    hide UnknownSeen;
    hide WindowOf;
    hide Pairing;
    hide TotalSeconds;
    hide OvertimeCaps;
    hide ComputeLunchDeduction;
    hide Record;
  }

  lemma WeekendIs(date: Date)
    ensures Weekend(date) == ((date - 2) % 7 == 0 || (date - 3) % 7 == 0)
  {
  }

  /** The columns of a leave day, and what is remarked on it. */
  lemma LeaveInColumns(input: EngineInput)
    requires input.leave.Some?
    ensures var out := Record(input);
      && out.work == 0 && out.overtime == 0 && out.late == 0 && out.early == 0 && !out.restDayWorked
      && out.entryAt == None && out.exitAt == None && out.leaveId == input.leave
      && (EventsOnLeaveDay in out.anomalies <==> input.events != [])
      && (RecomputeAfterEdit in out.anomalies <==> input.priorRecordExisted)
      && forall a :: a in out.anomalies ==> a == EventsOnLeaveDay || a == RecomputeAfterEdit
  {
    if input.events != [] { assert input.events[0] in SetOf(input.events); }
  }

  // ----------------------------------------------------------------- the anomalies

  /** Some entry is later than every exit. */
  ghost predicate EntryLeftOpen(input: EngineInput) {
    exists t :: Punched(input, Entry, t) && forall x :: Punched(input, Exit, x) ==> x < t
  }

  lemma EntryLeftOpenIs(input: EngineInput)
    ensures EntryLeftOpen(input) == LeftOver(EntriesOf(input), ExitsOf(input))
  {
    PunchedIs(input);
    hide Punched;
    hide EntriesOf;
    hide ExitsOf;
    if EntryLeftOpen(input) {
      var t :| Punched(input, Entry, t) && forall x :: Punched(input, Exit, x) ==> x < t;
      assert t in EntriesOf(input) && Dangles(t, ExitsOf(input));
    }
    if LeftOver(EntriesOf(input), ExitsOf(input)) {
      var t :| t in EntriesOf(input) && Dangles(t, ExitsOf(input));
      assert Punched(input, Entry, t) && forall x :: Punched(input, Exit, x) ==> x < t;
    }
  }

  lemma RemarksAre(entries: set<int>, exits: set<int>, input: EngineInput, w: Window)
    ensures var remarks := Minutes(entries, exits, input, w).3;
      && (MissingEntry in remarks <==> entries == {})
      && (MissingExit in remarks <==> LeftOver(entries, exits))
      && (LunchPunchMissing in remarks <==>
            entries != {} && exits != {} && input.dept.lunchMode == Punch && |Pairing(entries, exits).0| <= 1)
      && forall a :: a in remarks ==> a == MissingEntry || a == MissingExit || a == LunchPunchMissing
  {
    PairingMeans(entries, exits);
    if entries != {} && exits == {} { assert Dangles(Earliest(entries), exits); }
    hide Pairing;
    hide TotalSeconds;
  }

  lemma CapsAre(work: int, overtime: int, weekly: int, annual: int)
    ensures var caps := OvertimeCaps(work, overtime, weekly, annual);
      && (OtCapExceededDaily in caps <==> work > 600)
      && (OtCapExceededWeekly in caps <==> weekly + overtime > 600)
      && (OtCapExceededAnnual in caps <==> annual + overtime > 6000)
      && forall a :: a in caps ==> a == OtCapExceededDaily || a == OtCapExceededWeekly || a == OtCapExceededAnnual
  {
  }

  lemma InOneOf<T>(a: seq<T>, b: seq<T>, c: seq<T>, d: seq<T>, e: seq<T>, x: T)
    ensures x in a + b + c + d + e <==> x in a || x in b || x in c || x in d || x in e
  {
  }

  /** One anomaly and the parts of the list. */
  lemma InTheList(input: EngineInput, w: Window, entries: set<int>, exits: set<int>, unknown: bool, a: Anomaly)
    ensures var out := WorkDay(input, w, entries, exits, unknown);
      a in out.anomalies <==>
        || (a == OvernightInferenceAmbiguous && w.ambiguous)
        || (a == UnknownFaceInWindow && unknown)
        || a in Minutes(entries, exits, input, w).3
        || (out.work > 0 && a in OvertimeCaps(out.work, out.overtime, input.weeklyOtSoFar, input.annualOtSoFar))
        || (a == RecomputeAfterEdit && input.priorRecordExisted)
    ensures WorkDay(input, w, entries, exits, unknown).work >= 0
  {
    hide *;
    var out := WorkDay(input, w, entries, exits, unknown);
    ListOfRemarks(input, w, entries, exits, unknown);
    InOneOf(if w.ambiguous then [OvernightInferenceAmbiguous] else [],
            if unknown then [UnknownFaceInWindow] else [],
            Minutes(entries, exits, input, w).3,
            if out.work > 0 then OvertimeCaps(out.work, out.overtime, input.weeklyOtSoFar, input.annualOtSoFar) else [],
            if input.priorRecordExisted then [RecomputeAfterEdit] else [], a);
  }

  lemma ListOfRemarks(input: EngineInput, w: Window, entries: set<int>, exits: set<int>, unknown: bool)
    ensures var out := WorkDay(input, w, entries, exits, unknown);
      out.anomalies ==
        (if w.ambiguous then [OvernightInferenceAmbiguous] else [])
        + (if unknown then [UnknownFaceInWindow] else [])
        + Minutes(entries, exits, input, w).3
        + (if out.work > 0 then OvertimeCaps(out.work, out.overtime, input.weeklyOtSoFar, input.annualOtSoFar) else [])
        + (if input.priorRecordExisted then [RecomputeAfterEdit] else [])
    ensures WorkDay(input, w, entries, exits, unknown).work >= 0
  {
    hide Pairing;
    hide TotalSeconds;
    hide OvertimeCaps;
    hide ComputeLunchDeduction;
  }

  lemma WorkDayRemarks(input: EngineInput, w: Window, entries: set<int>, exits: set<int>, unknown: bool)
    ensures var out, all := WorkDay(input, w, entries, exits, unknown), WorkDay(input, w, entries, exits, unknown).anomalies;
      && (OvernightInferenceAmbiguous in all <==> w.ambiguous)
      && (UnknownFaceInWindow in all <==> unknown)
      && (MissingEntry in all <==> entries == {})
      && (MissingExit in all <==> LeftOver(entries, exits))
      && (LunchPunchMissing in all <==>
            entries != {} && exits != {} && input.dept.lunchMode == Punch && |Pairing(entries, exits).0| <= 1)
      && (OtCapExceededDaily in all <==> out.work > 600)
      && (OtCapExceededWeekly in all <==> out.work > 0 && input.weeklyOtSoFar + out.overtime > 600)
      && (OtCapExceededAnnual in all <==> out.work > 0 && input.annualOtSoFar + out.overtime > 6000)
      && (RecomputeAfterEdit in all <==> input.priorRecordExisted)
      && EventsOnLeaveDay !in all
  {
    hide *;
    var out := WorkDay(input, w, entries, exits, unknown);
    RemarksAre(entries, exits, input, w);
    CapsAre(out.work, out.overtime, input.weeklyOtSoFar, input.annualOtSoFar);
    InTheList(input, w, entries, exits, unknown, OvernightInferenceAmbiguous);
    InTheList(input, w, entries, exits, unknown, UnknownFaceInWindow);
    InTheList(input, w, entries, exits, unknown, MissingEntry);
    InTheList(input, w, entries, exits, unknown, MissingExit);
    InTheList(input, w, entries, exits, unknown, LunchPunchMissing);
    InTheList(input, w, entries, exits, unknown, OtCapExceededDaily);
    InTheList(input, w, entries, exits, unknown, OtCapExceededWeekly);
    InTheList(input, w, entries, exits, unknown, OtCapExceededAnnual);
    InTheList(input, w, entries, exits, unknown, RecomputeAfterEdit);
    InTheList(input, w, entries, exits, unknown, EventsOnLeaveDay);
  }

  /** Each remark on a working day, by the punches and the minutes. */
  lemma AnomaliesInColumns(input: EngineInput)
    requires input.leave.None?
    ensures var out, all := Record(input), Record(input).anomalies;
      && (OvernightInferenceAmbiguous in all <==> WindowOf(input).ambiguous)
      && (UnknownFaceInWindow in all <==> UnknownSeen(input))
      && (MissingEntry in all <==> forall t :: !Punched(input, Entry, t))
      && (MissingExit in all <==> EntryLeftOpen(input))
      && (LunchPunchMissing in all <==> BothPunched(input) && input.dept.lunchMode == Punch && Intervals(input) <= 1)
      && (OtCapExceededDaily in all <==> out.work > 600)
      && (OtCapExceededWeekly in all <==> out.work > 0 && input.weeklyOtSoFar + out.overtime > 600)
      && (OtCapExceededAnnual in all <==> out.work > 0 && input.annualOtSoFar + out.overtime > 6000)
      && (RecomputeAfterEdit in all <==> input.priorRecordExisted)
      && EventsOnLeaveDay !in all
  {
    WorkingDay(input);
    BothPunchedIs(input);
    EntryLeftOpenIs(input);
    WorkDayRemarks(input, WindowOf(input), EntriesOf(input), ExitsOf(input), UnknownSeen(input));
    hide BothPunched;
    hide EntryLeftOpen;
    hide LeftOver;
    hide EntriesOf;
    hide ExitsOf;
    hide UnknownSeen;
    hide WindowOf;
    hide Pairing;
    hide WorkDay;
    hide Record;
  }
}
