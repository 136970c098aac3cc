/**
 Which seconds belong to which working day, and back. Dates are day numbers counted from the
 Unix epoch, local date-times are seconds on the local clock, and a time zone is the function
 that resolves a local date-time to instants.
 */
module ShiftWindows {
  import opened Options

  const DAY: int := 86400

  type Date = int

  datatype LunchMode = Fixed | Punch | OtherMode

  datatype Department = Department(
    shiftStart: nat,     // minutes after midnight
    shiftEnd: nat,
    overnight: bool,
    ordinaryDailyMinutes: int,
    lunchMode: LunchMode,
    lunchDuration: Option<int>)

  datatype Rules = Rules(lateTolerance: int, earlyTolerance: int, bonus: int)

  // ------------------------------------------------------- local time to instants

  datatype LocalResult = Single(at: int) | Ambiguous(earliest: int, latest: int) | Nonexistent

  type Zone = int -> LocalResult

  function ResolveLocalEpoch(zone: Zone, local: int): (int, bool) {
    match zone(local)
    case Single(at) => (at, false)
    case Ambiguous(earliest, _) => (earliest, true)
    case Nonexistent =>
      match zone(local + 3600)
      case Single(at) => (at, true)
      case Ambiguous(earliest, _) => (earliest, true)
      case Nonexistent =>
        match zone(local + 7200)
        case Single(at) => (at, true)
        case Ambiguous(earliest, _) => (earliest, true)
        case Nonexistent => (local, true)
  }

  /** An instant this local date-time, or one of the next two hours, can stand for. */
  predicate Denotes(zone: Zone, local: int, at: int) {
    zone(local) == Single(at) || (zone(local).Ambiguous? && zone(local).earliest == at)
  }

  /** The flag is down exactly for local times with one meaning; otherwise the result is still an
      instant of the nearest resolvable hour, or the bare clock reading when there is none. */
  lemma ResolveMeans(zone: Zone, local: int)
    ensures var (at, flagged) := ResolveLocalEpoch(zone, local);
      && flagged == !zone(local).Single?
      && (!zone(local).Nonexistent? ==> Denotes(zone, local, at))
      && (zone(local).Nonexistent? && !zone(local + 3600).Nonexistent? ==> Denotes(zone, local + 3600, at))
      && (zone(local).Nonexistent? && zone(local + 3600).Nonexistent? && !zone(local + 7200).Nonexistent? ==>
            Denotes(zone, local + 7200, at))
      && (zone(local).Nonexistent? && zone(local + 3600).Nonexistent? && zone(local + 7200).Nonexistent? ==> at == local)
  {
  }

  function FixedOffset(offset: int): Zone {
    local => Single(local - offset)
  }

  /** The local calendar date of an instant in a zone with a fixed offset. */
  function LocalDate(offset: int, at: int): Date { (at + offset) / DAY }

  // ------------------------------------------------------------------- the window

  datatype Window = Window(start: int, end: int, nominalStart: int, nominalEnd: int, ambiguous: bool) {
    predicate Holds(at: int) { start <= at <= end }
  }

  function ShiftWindow(anchor: Date, dept: Department, rules: Rules, zone: Zone): Window {
    var startLocal := anchor * DAY + dept.shiftStart * 60;
    var endDate := if dept.overnight then anchor + 1 else anchor;
    var endLocal := endDate * DAY + dept.shiftEnd * 60;
    var (nominalStart, amb1) := ResolveLocalEpoch(zone, startLocal);
    var (nominalEnd, amb2) := ResolveLocalEpoch(zone, endLocal);
    var before := (rules.lateTolerance + rules.bonus) * 60;
    var after := (rules.earlyTolerance + rules.bonus) * 60;
    Window(nominalStart - before, nominalEnd + after, nominalStart, nominalEnd, amb1 || amb2)
  }

  /** In any zone the shift runs from its start on the anchor date to its end on that date or the
      next, and the window reaches tolerance and bonus beyond it on either side; both ends must be
      unmistakable for the day not to be flagged. */
  lemma WindowMeans(anchor: Date, dept: Department, rules: Rules, zone: Zone)
    ensures var w := ShiftWindow(anchor, dept, rules, zone);
      var from := 86400 * anchor + 60 * dept.shiftStart;
      var to := 86400 * (if dept.overnight then anchor + 1 else anchor) + 60 * dept.shiftEnd;
      && w.nominalStart == ResolveLocalEpoch(zone, from).0
      && w.nominalEnd == ResolveLocalEpoch(zone, to).0
      && w.ambiguous == !(zone(from).Single? && zone(to).Single?)
      && w.nominalStart - w.start == 60 * (rules.lateTolerance + rules.bonus)
      && w.end - w.nominalEnd == 60 * (rules.earlyTolerance + rules.bonus)
  {
  }

  /** The anchors of an instant; `own` is its local date and `firstDate` the earliest date there is. */
  function AnchorDatesForInstant(at: int, own: Date, dept: Department, rules: Rules, zone: Zone, firstDate: Date): seq<Date> {
    if !dept.overnight then [own]
    else if own <= firstDate then [own]
    else
      var inYesterday := ShiftWindow(own - 1, dept, rules, zone).Holds(at);
      var inToday := ShiftWindow(own, dept, rules, zone).Holds(at);
      if inYesterday && !inToday then [own - 1]
      else if inYesterday && inToday then [own - 1, own]
      else [own]
  }

  /** In any zone: a day shift belongs to its own date; an overnight instant to the day before when
      that window holds it, to its own date when that one does, and to its own date when neither does.
      The earlier date comes first. */
  lemma AnchorsExactly(at: int, own: Date, dept: Department, rules: Rules, zone: Zone, firstDate: Date)
    ensures var r := AnchorDatesForInstant(at, own, dept, rules, zone, firstDate);
      && (!dept.overnight || own <= firstDate ==> r == [own])
      && (dept.overnight && own > firstDate ==>
            && (own - 1 in r <==> ShiftWindow(own - 1, dept, rules, zone).Holds(at))
            && (own in r <==> ShiftWindow(own, dept, rules, zone).Holds(at) || !ShiftWindow(own - 1, dept, rules, zone).Holds(at)))
      && (forall anchor :: anchor in r ==> anchor == own || anchor == own - 1)
      && forall i, j :: 0 <= i < j < |r| ==> r[i] < r[j]
  {
    hide ShiftWindow;
  }

  // -------------------------------------------------- fixed offset: the inverse

  /** Where the window begins and ends, in seconds after the anchor's local midnight. */
  function Opens(dept: Department, rules: Rules): int {
    dept.shiftStart * 60 - (rules.lateTolerance + rules.bonus) * 60
  }

  function Closes(dept: Department, rules: Rules): int {
    (if dept.overnight then DAY else 0) + dept.shiftEnd * 60 + (rules.earlyTolerance + rules.bonus) * 60
  }

  function Span(dept: Department): int { if dept.overnight then 2 * DAY else DAY }

  /** The window stays between the anchor's midnight and the end of its last date. */
  predicate StaysInside(dept: Department, rules: Rules) {
    0 <= Opens(dept, rules) && Closes(dept, rules) < Span(dept)
  }

  lemma WindowAt(anchor: Date, dept: Department, rules: Rules, offset: int, at: int)
    ensures var w := ShiftWindow(anchor, dept, rules, FixedOffset(offset));
      && !w.ambiguous
      && w.start == anchor * DAY - offset + Opens(dept, rules)
      && w.end == anchor * DAY - offset + Closes(dept, rules)
      && (w.Holds(at) <==> Opens(dept, rules) <= at + offset - anchor * DAY <= Closes(dept, rules))
  {
  }

  ghost predicate AnchorsComplete(dept: Department, rules: Rules, offset: int, firstDate: Date) {
    forall at: int, anchor: Date :: anchor >= firstDate && ShiftWindow(anchor, dept, rules, FixedOffset(offset)).Holds(at) ==>
      anchor in AnchorDatesForInstant(at, LocalDate(offset, at), dept, rules, FixedOffset(offset), firstDate)
  }

  lemma AnchorIsFound(at: int, anchor: Date, dept: Department, rules: Rules, offset: int, firstDate: Date)
    requires StaysInside(dept, rules) && anchor >= firstDate
    requires ShiftWindow(anchor, dept, rules, FixedOffset(offset)).Holds(at)
    ensures anchor in AnchorDatesForInstant(at, LocalDate(offset, at), dept, rules, FixedOffset(offset), firstDate)
  {
    WindowAt(anchor, dept, rules, offset, at);
    var own := LocalDate(offset, at);
    assert own == anchor || (dept.overnight && own == anchor + 1);
  }

  /** The lookup finds every day whose window holds the instant if and only if windows stay
      between the anchor's midnight and the end of its last date (or are empty). */
  lemma AnchorLookupInvertsWindow(dept: Department, rules: Rules, offset: int, firstDate: Date)
    ensures AnchorsComplete(dept, rules, offset, firstDate)
      == (StaysInside(dept, rules) || Opens(dept, rules) > Closes(dept, rules))
  {
    var opens, closes := Opens(dept, rules), Closes(dept, rules);
    if StaysInside(dept, rules) || opens > closes {
      forall at: int, anchor: Date | anchor >= firstDate && ShiftWindow(anchor, dept, rules, FixedOffset(offset)).Holds(at)
        ensures anchor in AnchorDatesForInstant(at, LocalDate(offset, at), dept, rules, FixedOffset(offset), firstDate)
      {
        WindowAt(anchor, dept, rules, offset, at);
        AnchorIsFound(at, anchor, dept, rules, offset, firstDate);
      }
    } else {
      // an instant at the spilling edge of some day's window
      var anchor := firstDate + 3;
      var at := anchor * DAY - offset + (if opens < 0 then opens else closes);
      WindowAt(anchor, dept, rules, offset, at);
      var own := LocalDate(offset, at);
      assert own < anchor || own >= anchor + (if dept.overnight then 2 else 1);
      assert anchor !in AnchorDatesForInstant(at, own, dept, rules, FixedOffset(offset), firstDate);
    }
  }

  /** With windows shorter than a day, at most one day claims an instant and one anchor is returned. */
  lemma ShortWindowsAreDisjoint(at: int, a: Date, b: Date, dept: Department, rules: Rules, offset: int)
    requires Closes(dept, rules) - Opens(dept, rules) < DAY
    requires ShiftWindow(a, dept, rules, FixedOffset(offset)).Holds(at) && ShiftWindow(b, dept, rules, FixedOffset(offset)).Holds(at)
    ensures a == b
  {
    WindowAt(a, dept, rules, offset, at);
    WindowAt(b, dept, rules, offset, at);
  }

  lemma OneAnchor(at: int, own: Date, dept: Department, rules: Rules, offset: int, firstDate: Date)
    requires Closes(dept, rules) - Opens(dept, rules) < DAY
    ensures |AnchorDatesForInstant(at, own, dept, rules, FixedOffset(offset), firstDate)| == 1
  {
    if ShiftWindow(own - 1, dept, rules, FixedOffset(offset)).Holds(at) && ShiftWindow(own, dept, rules, FixedOffset(offset)).Holds(at) {
      ShortWindowsAreDisjoint(at, own - 1, own, dept, rules, offset);
      assert false;
    }
  }

  /** Both together: the day whose window holds the instant is the one anchor returned. */
  lemma AnchorIsTheDay(at: int, anchor: Date, dept: Department, rules: Rules, offset: int, firstDate: Date)
    requires StaysInside(dept, rules) && anchor >= firstDate && Closes(dept, rules) - Opens(dept, rules) < DAY
    requires ShiftWindow(anchor, dept, rules, FixedOffset(offset)).Holds(at)
    ensures AnchorDatesForInstant(at, LocalDate(offset, at), dept, rules, FixedOffset(offset), firstDate) == [anchor]
  {
    AnchorIsFound(at, anchor, dept, rules, offset, firstDate);
    OneAnchor(at, LocalDate(offset, at), dept, rules, offset, firstDate);
  }
}
