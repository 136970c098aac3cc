/**
 Filtering a day's badge events into its window, and pairing entries with exits. The methods
 are the source's loops; what they compute is stated about the sets of entry and exit times,
 so that neither order nor repetition of events can matter.
 */
module Punches {
  import opened Options

  datatype Direction = Entry | Exit | OtherDirection

  datatype Event = Event(id: nat, employee: Option<nat>, device: nat, direction: Direction, capturedAt: int, isUnknown: bool)

  // ------------------------------------------------------------------ stable sort

  /** `sort_by_key`: each element goes before the first one whose key is not smaller than its own. */
  function Insert<T>(key: T -> int, x: T, s: seq<T>): seq<T> {
    if s == [] || key(x) <= key(s[0]) then [x] + s else [s[0]] + Insert(key, x, s[1..])
  }

  function SortByKey<T>(key: T -> int, s: seq<T>): seq<T> {
    if s == [] then [] else Insert(key, s[0], SortByKey(key, s[1..]))
  }

  predicate Sorted<T(==)>(key: T -> int, s: seq<T>) {
    s == [] || (Sorted(key, s[1..]) && forall x :: x in s[1..] ==> key(s[0]) <= key(x))
  }

  function WithKey<T>(key: T -> int, s: seq<T>, k: int): seq<T> {
    if s == [] then [] else (if key(s[0]) == k then [s[0]] else []) + WithKey(key, s[1..], k)
  }

  lemma {:induction false} InsertHas<T>(key: T -> int, x: T, s: seq<T>)
    ensures multiset(Insert(key, x, s)) == multiset(s) + multiset{x}
    ensures forall y :: y in Insert(key, x, s) <==> y == x || y in s
  {
    if s != [] && key(x) > key(s[0]) {
      assert s == [s[0]] + s[1..];
      InsertHas(key, x, s[1..]);
    }
  }

  lemma {:induction false} InsertSorted<T>(key: T -> int, x: T, s: seq<T>)
    requires Sorted(key, s)
    ensures Sorted(key, Insert(key, x, s))
  {
    if s == [] || key(x) <= key(s[0]) {
      assert ([x] + s)[1..] == s;
      assert forall y :: y in s ==> y == s[0] || y in s[1..];
    } else {
      InsertSorted(key, x, s[1..]);
      InsertHas(key, x, s[1..]);
      assert ([s[0]] + Insert(key, x, s[1..]))[1..] == Insert(key, x, s[1..]);
    }
  }

  lemma {:induction false} InsertStable<T>(key: T -> int, x: T, s: seq<T>, k: int)
    ensures WithKey(key, Insert(key, x, s), k) == (if key(x) == k then [x] else []) + WithKey(key, s, k)
  {
    if s == [] || key(x) <= key(s[0]) {
      assert ([x] + s)[1..] == s;
    } else {
      InsertStable(key, x, s[1..], k);
      var rest := Insert(key, x, s[1..]);
      assert ([s[0]] + rest)[1..] == rest;
      hide Insert;
      var tail := WithKey(key, s[1..], k);
      if key(s[0]) == k {
        assert [] + tail == tail;
      } else {
        assert WithKey(key, s, k) == [] + tail == tail;
      }
    }
  }

  /** The sort yields the same elements in order, and equal keys keep their order. */
  lemma {:induction false} SortKeeps<T>(key: T -> int, s: seq<T>, k: int)
    ensures Sorted(key, SortByKey(key, s)) && multiset(SortByKey(key, s)) == multiset(s)
    ensures WithKey(key, SortByKey(key, s), k) == WithKey(key, s, k)
  {
    hide *;
    if s == [] {
      SortNothing(key, s, k);
    } else {
      SortKeeps(key, s[1..], k);
      SortFirst(key, s, k);
      InsertHas(key, s[0], SortByKey(key, s[1..]));
      InsertSorted(key, s[0], SortByKey(key, s[1..]));
      InsertStable(key, s[0], SortByKey(key, s[1..]), k);
    }
  }

  lemma SortNothing<T>(key: T -> int, s: seq<T>, k: int)
    requires s == []
    ensures SortByKey(key, s) == [] && Sorted(key, SortByKey(key, s)) && WithKey(key, s, k) == []
  {
  }

  lemma SortFirst<T>(key: T -> int, s: seq<T>, k: int)
    requires s != []
    ensures SortByKey(key, s) == Insert(key, s[0], SortByKey(key, s[1..]))
    ensures WithKey(key, s, k) == (if key(s[0]) == k then [s[0]] else []) + WithKey(key, s[1..], k)
    ensures multiset(s) == multiset(s[1..]) + multiset{s[0]}
  {
    assert s == [s[0]] + s[1..];
    hide Insert;
  }

  lemma SortHasSame<T>(key: T -> int, s: seq<T>, x: T)
    ensures x in SortByKey(key, s) <==> x in s
    ensures |SortByKey(key, s)| == |s|
  {
    SortKeeps(key, s, 0);
    assert x in multiset(SortByKey(key, s)) <==> x in multiset(s);
    assert |multiset(s)| == |s| && |multiset(SortByKey(key, s))| == |SortByKey(key, s)|;
  }

  // ------------------------------------------------------------------ aggregation

  predicate InWindow(e: Event, start: int, end: int) { start <= e.capturedAt <= end }

  predicate Counts(e: Event, direction: Direction, start: int, end: int) {
    InWindow(e, start, end) && !e.isUnknown && e.direction == direction
  }

  /** The times at which known badges of one direction fall into the window. */
  function TimesOf(events: set<Event>, direction: Direction, start: int, end: int): set<int> {
    set e | e in events && Counts(e, direction, start, end) :: e.capturedAt
  }

  predicate UnknownIn(events: set<Event>, start: int, end: int) {
    exists e :: e in events && InWindow(e, start, end) && e.isUnknown
  }

  function SetOf<T>(s: seq<T>): set<T> { set x | x in s }

  function Times(events: seq<Event>): set<int> { set e | e in events :: e.capturedAt }

  ghost predicate IsMin(s: set<int>, m: int) { m in s && forall x :: x in s ==> m <= x }

  ghost predicate IsMax(s: set<int>, m: int) { m in s && forall x :: x in s ==> x <= m }

  datatype Aggregated = Aggregated(canonicalEntry: Option<int>, canonicalExit: Option<int>, unknownInWindow: bool,
                                   entries: seq<Event>, exits: seq<Event>)

  const CapturedAt: Event -> int := (e: Event) => e.capturedAt

  lemma {:induction false} SortedEnds<T>(key: T -> int, s: seq<T>, x: T)
    requires Sorted(key, s) && x in s
    ensures key(s[0]) <= key(x) <= key(s[|s| - 1])
  {
    if |s| > 1 {
      if x == s[0] { SortedEnds(key, s[1..], s[1]); } else { SortedEnds(key, s[1..], x); }
    }
  }

  lemma FirstIsMin(s: seq<Event>)
    requires s != [] && Sorted(CapturedAt, s)
    ensures IsMin(Times(s), s[0].capturedAt) && IsMax(Times(s), s[|s| - 1].capturedAt)
  {
    assert s[0] in s && s[|s| - 1] in s;
    forall x | x in Times(s) ensures s[0].capturedAt <= x <= s[|s| - 1].capturedAt {
      var e :| e in s && e.capturedAt == x;
      SortedEnds(CapturedAt, s, e);
    }
  }

  function Filtered(events: seq<Event>, direction: Direction, start: int, end: int): (r: seq<Event>)
    ensures forall e :: e in r <==> e in events && Counts(e, direction, start, end)
  {
    if events == [] then [] else
    var before, last := events[..|events| - 1], events[|events| - 1];
    assert events == before + [last];
    Filtered(before, direction, start, end) + (if Counts(last, direction, start, end) then [last] else [])
  }

  lemma FilteredNext(events: seq<Event>, i: nat, direction: Direction, start: int, end: int)
    requires i < |events|
    ensures Filtered(events[..i + 1], direction, start, end)
         == Filtered(events[..i], direction, start, end) + (if Counts(events[i], direction, start, end) then [events[i]] else [])
  {
    assert events[..i + 1][..i] == events[..i];
  }

  lemma UnknownNext(events: seq<Event>, i: nat, start: int, end: int)
    requires i < |events|
    ensures UnknownIn(SetOf(events[..i + 1]), start, end)
         == (UnknownIn(SetOf(events[..i]), start, end) || (InWindow(events[i], start, end) && events[i].isUnknown))
  {
    assert events[..i + 1] == events[..i] + [events[i]];
    assert SetOf(events[..i + 1]) == SetOf(events[..i]) + {events[i]};
  }

  lemma NothingYet(events: seq<Event>, start: int, end: int)
    ensures Filtered(events[..0], Entry, start, end) == [] && Filtered(events[..0], Exit, start, end) == []
    ensures !UnknownIn(SetOf(events[..0]), start, end)
  {
  }

  method AggregateEvents(events: seq<Event>, start: int, end: int) returns (r: Aggregated)
    ensures r.entries == SortByKey(CapturedAt, Filtered(events, Entry, start, end))
    ensures r.exits == SortByKey(CapturedAt, Filtered(events, Exit, start, end))
    ensures Times(r.entries) == TimesOf(SetOf(events), Entry, start, end)
    ensures Times(r.exits) == TimesOf(SetOf(events), Exit, start, end)
    ensures r.unknownInWindow == UnknownIn(SetOf(events), start, end)
    ensures if Times(r.entries) == {} then r.canonicalEntry == None
            else r.canonicalEntry.Some? && IsMin(Times(r.entries), r.canonicalEntry.value)
    ensures if Times(r.exits) == {} then r.canonicalExit == None
            else r.canonicalExit.Some? && IsMax(Times(r.exits), r.canonicalExit.value)
  {
    hide SortByKey;
    hide Filtered;
    hide UnknownIn;
    hide SetOf;
    hide Times;
    hide TimesOf;
    var entries: seq<Event>, exits: seq<Event>, unknown := [], [], false;
    NothingYet(events, start, end);
    for i := 0 to |events|
      invariant entries == Filtered(events[..i], Entry, start, end)
      invariant exits == Filtered(events[..i], Exit, start, end)
      invariant unknown == UnknownIn(SetOf(events[..i]), start, end)
    {
      var e := events[i];
      FilteredNext(events, i, Entry, start, end);
      FilteredNext(events, i, Exit, start, end);
      UnknownNext(events, i, start, end);
      if !InWindow(e, start, end) { continue; }
      if e.isUnknown {
        unknown := true;
        continue;
      }
      match e.direction
      case Entry => entries := entries + [e];
      case Exit => exits := exits + [e];
      case OtherDirection =>
    }
    assert events[..|events|] == events;
    var sortedEntries, sortedExits := SortByKey(CapturedAt, entries), SortByKey(CapturedAt, exits);
    SortedTimes(events, Entry, start, end);
    SortedTimes(events, Exit, start, end);
    var canonicalEntry := if sortedEntries == [] then None else Some(sortedEntries[0].capturedAt);
    var canonicalExit := if sortedExits == [] then None else Some(sortedExits[|sortedExits| - 1].capturedAt);
    r := Aggregated(canonicalEntry, canonicalExit, unknown, sortedEntries, sortedExits);
  }

  lemma SortedTimes(events: seq<Event>, direction: Direction, start: int, end: int)
    ensures var s := SortByKey(CapturedAt, Filtered(events, direction, start, end));
      && Times(s) == TimesOf(SetOf(events), direction, start, end)
      && (s == [] <==> Times(s) == {})
      && (s != [] ==> IsMin(Times(s), s[0].capturedAt) && IsMax(Times(s), s[|s| - 1].capturedAt))
  {
    var filtered := Filtered(events, direction, start, end);
    FilteredTimes(events, direction, start, end);
    hide Filtered;
    hide TimesOf;
    var s := SortByKey(CapturedAt, filtered);
    SortKeeps(CapturedAt, filtered, 0);
    SameTimes(filtered);
    hide SortByKey;
    if s != [] {
      FirstIsMin(s);
      assert s[0].capturedAt in Times(s);
    }
  }

  lemma FilteredTimes(events: seq<Event>, direction: Direction, start: int, end: int)
    ensures Times(Filtered(events, direction, start, end)) == TimesOf(SetOf(events), direction, start, end)
  {
    var filtered := Filtered(events, direction, start, end);
    hide Filtered;
    assert forall e :: e in filtered <==> e in SetOf(events) && Counts(e, direction, start, end);
  }

  lemma SameTimes(events: seq<Event>)
    ensures Times(SortByKey(CapturedAt, events)) == Times(events)
  {
    var s := SortByKey(CapturedAt, events);
    forall e ensures e in s <==> e in events { SortHasSame(CapturedAt, events, e); }
    hide SortByKey;
    assert Times(s) <= Times(events) && Times(events) <= Times(s);
  }

  // ---------------------------------------------------------------------- pairing

  datatype Mark = Mark(at: int, direction: Direction)

  const MarkAt: Mark -> int := (m: Mark) => m.at

  lemma HasElement(s: set<int>)
    ensures s == {} || exists x :: x in s
  {
    if forall x :: x !in s { assert s == {}; }
  }

  lemma {:induction false} MinExists(s: set<int>)
    requires s != {}
    ensures exists m :: IsMin(s, m)
    decreases |s|
  {
    HasElement(s);
    var x :| x in s;
    var rest := s - {x};
    assert s == rest + {x};
    if rest == {} {
      assert IsMin(s, x);
    } else {
      MinExists(rest);
      var m :| IsMin(rest, m);
      assert IsMin(s, if x < m then x else m);
    }
  }

  /** The earliest element, as a set function. */
  ghost function Earliest(s: set<int>): (m: int)
    requires s != {}
    ensures IsMin(s, m)
  {
    MinExists(s);
    var m :| IsMin(s, m);
    m
  }

  lemma {:induction false} MaxExists(s: set<int>)
    requires s != {}
    ensures exists m :: IsMax(s, m)
    decreases |s|
  {
    HasElement(s);
    var x :| x in s;
    var rest := s - {x};
    assert s == rest + {x};
    if rest == {} {
      assert IsMax(s, x);
    } else {
      MaxExists(rest);
      var m :| IsMax(rest, m);
      assert IsMax(s, if x > m then x else m);
    }
  }

  ghost function Latest(s: set<int>): (m: int)
    requires s != {}
    ensures IsMax(s, m)
  {
    MaxExists(s);
    var m :| IsMax(s, m);
    m
  }

  lemma LatestIs(s: set<int>, m: int)
    requires IsMax(s, m)
    ensures s != {} && Latest(s) == m
  {
  }

  ghost function NotBefore(s: set<int>, t: int): set<int> { set x | x in s && x >= t }

  ghost function LaterThan(s: set<int>, t: int): set<int> { set x | x in s && x > t }

  /** What pairing means: start at the earliest entry, end at the earliest exit not before it,
      go on with the earliest entry after that end; the flag says that an entry was left over. */
  ghost function Pairing(entries: set<int>, exits: set<int>): (seq<(int, int)>, bool)
    decreases |entries|
  {
    if entries == {} then ([], false) else
    var start := Earliest(entries);
    if NotBefore(exits, start) == {} then ([], true) else
    var end := Earliest(NotBefore(exits, start));
    LaterShrinks(entries, start, end);
    var (rest, open) := Pairing(LaterThan(entries, end), LaterThan(exits, end));
    ([(start, end)] + rest, open)
  }

  lemma LaterShrinks(s: set<int>, x: int, t: int)
    requires x in s && x <= t
    ensures |LaterThan(s, t)| < |s|
  {
    assert LaterThan(s, t) <= s - {x};
    Smaller(LaterThan(s, t), s - {x});
  }

  lemma Smaller(a: set<int>, b: set<int>)
    requires a <= b
    ensures |a| <= |b|
  {
    assert b == a + (b - a);
  }

  /** The scan over the marks that are left, with `open` the entry not yet closed. */
  function Scan(marks: seq<Mark>, open: Option<int>): (seq<(int, int)>, bool) {
    if marks == [] then ([], open.Some?) else
    match marks[0].direction
    case Exit =>
      if open.Some? then
        var (rest, dangling) := Scan(marks[1..], None);
        ([(open.value, marks[0].at)] + rest, dangling)
      else Scan(marks[1..], None)
    case _ => Scan(marks[1..], if open.None? then Some(marks[0].at) else open)
  }

  /** Entries come before exits of the same second. */
  predicate EntriesFirst(marks: seq<Mark>) {
    marks == [] || (
      && EntriesFirst(marks[1..])
      && forall m :: m in marks[1..] && marks[0].direction.Exit? && m.at == marks[0].at ==> m.direction.Exit?)
  }

  predicate OnlyPunches(marks: seq<Mark>) {
    forall m :: m in marks ==> m.direction.Entry? || m.direction.Exit?
  }

  ghost function MarksOf(marks: seq<Mark>, direction: Direction): set<int> {
    set m | m in marks && m.direction == direction :: m.at
  }

  lemma MarksOfFirst(marks: seq<Mark>, direction: Direction)
    requires marks != []
    ensures MarksOf(marks, direction)
         == (if marks[0].direction == direction then {marks[0].at} else {}) + MarksOf(marks[1..], direction)
  {
    assert forall m :: m in marks <==> m == marks[0] || m in marks[1..];
  }

  lemma EarliestIs(s: set<int>, m: int)
    requires IsMin(s, m)
    ensures s != {} && Earliest(s) == m
  {
  }

  /** Exits earlier than every entry close nothing. */
  lemma EarlyExitIgnored(entries: set<int>, exits: set<int>, x: int)
    requires forall e :: e in entries ==> x < e
    ensures Pairing(entries, exits + {x}) == Pairing(entries, exits)
  {
    if entries != {} {
      var start := Earliest(entries);
      assert NotBefore(exits + {x}, start) == NotBefore(exits, start);
      if NotBefore(exits, start) != {} {
        var end := Earliest(NotBefore(exits, start));
        assert LaterThan(exits + {x}, end) == LaterThan(exits, end);
      }
    }
  }

  predicate Timeline(marks: seq<Mark>) { Sorted(MarkAt, marks) && EntriesFirst(marks) && OnlyPunches(marks) }

  lemma TimelineRest(marks: seq<Mark>)
    requires Timeline(marks) && marks != []
    ensures Timeline(marks[1..])
    ensures forall m :: m in marks[1..] ==> marks[0].at <= m.at
    ensures marks[0].direction.Exit? ==> forall e :: e in MarksOf(marks[1..], Entry) ==> marks[0].at < e
  {
    forall m | m in marks[1..] ensures marks[0].at <= m.at {
      assert MarkAt(marks[0]) <= MarkAt(m);
    }
  }

  /** What the scan owes when an entry at `start` is open. */
  ghost function OpenPairing(start: int, entries: set<int>, exits: set<int>): (seq<(int, int)>, bool) {
    if exits == {} then ([], true) else
    var end := Earliest(exits);
    var (rest, open) := Pairing(LaterThan(entries, end), LaterThan(exits, end));
    ([(start, end)] + rest, open)
  }

  lemma {:induction false} ScanRefines(marks: seq<Mark>)
    requires Timeline(marks)
    ensures Scan(marks, None) == Pairing(MarksOf(marks, Entry), MarksOf(marks, Exit))
    decreases |marks|, 1
  {
    if marks != [] {
      var m, rest := marks[0], marks[1..];
      var entries, exits := MarksOf(rest, Entry), MarksOf(rest, Exit);
      TimelineRest(marks);
      MarksOfFirst(marks, Entry);
      MarksOfFirst(marks, Exit);
      if m.direction.Exit? {
        ScanRefines(rest);
        EarlyExitIgnored(entries, exits, m.at);
        assert MarksOf(marks, Exit) == exits + {m.at};
        assert MarksOf(marks, Entry) == entries;
      } else {
        OpenScanRefines(rest, m.at);
        assert m in marks;
        EarliestIs(MarksOf(marks, Entry), m.at);
        assert MarksOf(marks, Exit) == exits;
        assert NotBefore(exits, m.at) == exits;
        if exits != {} {
          var end := Earliest(exits);
          assert LaterThan(MarksOf(marks, Entry), end) == LaterThan(entries, end);
        }
      }
    }
  }

  lemma {:induction false} OpenScanRefines(marks: seq<Mark>, start: int)
    requires Timeline(marks) && forall m :: m in marks ==> start <= m.at
    ensures Scan(marks, Some(start)) == OpenPairing(start, MarksOf(marks, Entry), MarksOf(marks, Exit))
    decreases |marks|, 0
  {
    if marks != [] {
      var m, rest := marks[0], marks[1..];
      var entries, exits := MarksOf(rest, Entry), MarksOf(rest, Exit);
      TimelineRest(marks);
      MarksOfFirst(marks, Entry);
      MarksOfFirst(marks, Exit);
      assert m in marks;
      if m.direction.Exit? {
        ScanRefines(rest);
        EarliestIs(MarksOf(marks, Exit), m.at);
        assert LaterThan(MarksOf(marks, Entry), m.at) == entries;
        var later := LaterThan(exits, m.at);
        assert LaterThan(MarksOf(marks, Exit), m.at) == later;
        if m.at in exits {
          EarlyExitIgnored(entries, later, m.at);
          assert exits == later + {m.at};
        } else {
          assert exits == later;
        }
      } else {
        OpenScanRefines(rest, start);
        assert MarksOf(marks, Exit) == exits;
        if exits != {} {
          var end := Earliest(exits);
          assert LaterThan(MarksOf(marks, Entry), end) == LaterThan(entries, end);
        }
      }
    }
  }

  function MarksFor(events: seq<Event>, direction: Direction): (r: seq<Mark>)
    ensures |r| == |events| && forall i :: 0 <= i < |r| ==> r[i] == Mark(events[i].capturedAt, direction)
  {
    seq(|events|, i requires 0 <= i < |events| => Mark(events[i].capturedAt, direction))
  }

  lemma {:induction false} InsertEntriesFirst(m: Mark, s: seq<Mark>)
    requires EntriesFirst(s)
    requires m.direction.Entry? || forall x :: x in s ==> x.direction.Exit?
    ensures EntriesFirst(Insert(MarkAt, m, s))
  {
    if s == [] || MarkAt(m) <= MarkAt(s[0]) {
      assert ([m] + s)[1..] == s;
    } else {
      InsertEntriesFirst(m, s[1..]);
      InsertHas(MarkAt, m, s[1..]);
      assert ([s[0]] + Insert(MarkAt, m, s[1..]))[1..] == Insert(MarkAt, m, s[1..]);
    }
  }

  /** Exits behind entries in the list stay behind them in the same second. */
  lemma {:induction false} SortEntriesFirst(entries: seq<Mark>, exits: seq<Mark>)
    requires forall m :: m in entries ==> m.direction.Entry?
    requires forall m :: m in exits ==> m.direction.Exit?
    ensures EntriesFirst(SortByKey(MarkAt, entries + exits))
    decreases |entries| + |exits|
  {
    var all := entries + exits;
    if all != [] {
      var rest := all[1..];
      if entries != [] {
        assert rest == entries[1..] + exits;
        SortEntriesFirst(entries[1..], exits);
      } else {
        assert rest == [] + exits[1..];
        SortEntriesFirst([], exits[1..]);
        forall x | x in SortByKey(MarkAt, rest) ensures x.direction.Exit? { SortHasSame(MarkAt, rest, x); }
      }
      SortKeeps(MarkAt, rest, 0);
      assert all[0] in all;
      InsertEntriesFirst(all[0], SortByKey(MarkAt, rest));
    }
  }

  lemma TimelineOf(entries: seq<Event>, exits: seq<Event>)
    ensures var t := SortByKey(MarkAt, MarksFor(entries, Entry) + MarksFor(exits, Exit));
      Timeline(t) && MarksOf(t, Entry) == Times(entries) && MarksOf(t, Exit) == Times(exits)
  {
    hide *;
    var a, b := MarksFor(entries, Entry), MarksFor(exits, Exit);
    var t := SortByKey(MarkAt, a + b);
    SortKeeps(MarkAt, a + b, 0);
    SortEntriesFirst(a, b);
    forall m ensures m in t <==> m in a || m in b { SortHasSame(MarkAt, a + b, m); }
    TimelineIs(t, a, b, entries, exits);
    MarksOfTimes(t, a, b, entries, exits);
  }

  lemma TimelineIs(t: seq<Mark>, a: seq<Mark>, b: seq<Mark>, entries: seq<Event>, exits: seq<Event>)
    requires Sorted(MarkAt, t) && EntriesFirst(t) && a == MarksFor(entries, Entry) && b == MarksFor(exits, Exit)
    requires forall m :: m in t <==> m in a || m in b
    ensures Timeline(t)
  {
    hide Sorted;
    hide EntriesFirst;
  }

  lemma MarksOfTimes(t: seq<Mark>, a: seq<Mark>, b: seq<Mark>, entries: seq<Event>, exits: seq<Event>)
    requires a == MarksFor(entries, Entry) && b == MarksFor(exits, Exit)
    requires forall m :: m in t <==> m in a || m in b
    ensures MarksOf(t, Entry) == Times(entries) && MarksOf(t, Exit) == Times(exits)
  {
    forall x ensures x in MarksOf(t, Entry) <==> x in Times(entries) {
      if x in Times(entries) {
        var i :| 0 <= i < |entries| && entries[i].capturedAt == x;
        assert a[i] in t;
      }
    }
    forall x ensures x in MarksOf(t, Exit) <==> x in Times(exits) {
      if x in Times(exits) {
        var i :| 0 <= i < |exits| && exits[i].capturedAt == x;
        assert b[i] in t;
      }
    }
  }

  lemma ScanNext(done: seq<(int, int)>, timeline: seq<Mark>, i: nat, open: Option<int>)
    requires i < |timeline|
    ensures var mark, rest := timeline[i], timeline[i + 1..];
      (done + Scan(timeline[i..], open).0, Scan(timeline[i..], open).1)
      == if mark.direction.Exit? && open.Some?
         then (done + [(open.value, mark.at)] + Scan(rest, None).0, Scan(rest, None).1)
         else var next := if mark.direction.Exit? then None else if open.None? then Some(mark.at) else open;
           (done + Scan(rest, next).0, Scan(rest, next).1)
  {
    assert timeline[i..][1..] == timeline[i + 1..];
    if timeline[i].direction.Exit? && open.Some? {
      var rest := Scan(timeline[i + 1..], None).0;
      assert done + ([(open.value, timeline[i].at)] + rest) == done + [(open.value, timeline[i].at)] + rest;
    }
  }

  method PairWorkIntervals(entries: seq<Event>, exits: seq<Event>) returns (intervals: seq<(int, int)>, hasOpenEntry: bool)
    ensures (intervals, hasOpenEntry) == Pairing(Times(entries), Times(exits))
  {
    var timeline := SortByKey(MarkAt, MarksFor(entries, Entry) + MarksFor(exits, Exit));
    TimelineOf(entries, exits);
    ScanRefines(timeline);
    assert OnlyPunches(timeline);
    ghost var goal := Pairing(Times(entries), Times(exits));
    intervals := [];
    assert timeline[0..] == timeline && [] + Scan(timeline, None).0 == Scan(timeline, None).0;
    hide SortByKey;
    hide MarksFor;
    hide Timeline;
    hide Pairing;
    hide MarksOf;
    hide Times;
    var openEntry: Option<int> := None;
    for i := 0 to |timeline|
      invariant goal == (intervals + Scan(timeline[i..], openEntry).0, Scan(timeline[i..], openEntry).1)
    {
      hide Scan;
      var mark := timeline[i];
      ScanNext(intervals, timeline, i, openEntry);
      assert mark in timeline;
      match mark.direction
      case Entry => if openEntry.None? { openEntry := Some(mark.at); }
      case Exit =>
        if openEntry.Some? {
          intervals := intervals + [(openEntry.value, mark.at)];
          openEntry := None;
        }
      case OtherDirection => assert false;
    }
    hasOpenEntry := openEntry.Some?;
    assert timeline[|timeline|..] == [] && intervals + [] == intervals;
  }

  // ------------------------------------------------------- what a pairing is like

  ghost predicate EndsRight(exits: set<int>, interval: (int, int)) {
    IsMin(NotBefore(exits, interval.0), interval.1)
  }

  /** Every interval ends at the earliest exit not before its start; the first starts at the
      earliest entry and each later one at the earliest entry after the previous end. */
  ghost predicate WellPaired(entries: set<int>, exits: set<int>, intervals: seq<(int, int)>) {
    && (forall i :: 0 <= i < |intervals| ==> EndsRight(exits, intervals[i]))
    && (intervals != [] ==> IsMin(entries, intervals[0].0))
    && (forall i :: 0 < i < |intervals| ==> IsMin(LaterThan(entries, intervals[i - 1].1), intervals[i].0))
  }

  ghost predicate LeftOver(entries: set<int>, exits: set<int>) {
    exists e :: e in entries && Dangles(e, exits)
  }

  predicate Dangles(e: int, exits: set<int>) { forall x :: x in exits ==> x < e }

  lemma LeftOverLater(entries: set<int>, exits: set<int>, end: int)
    requires end in exits
    ensures LeftOver(LaterThan(entries, end), LaterThan(exits, end)) == LeftOver(entries, exits)
  {
    if LeftOver(entries, exits) {
      var e :| e in entries && Dangles(e, exits);
      assert e in LaterThan(entries, end) && Dangles(e, LaterThan(exits, end));
    }
    if LeftOver(LaterThan(entries, end), LaterThan(exits, end)) {
      var e :| e in LaterThan(entries, end) && Dangles(e, LaterThan(exits, end));
      forall x | x in exits ensures x < e { assert x in LaterThan(exits, end) || x <= end; }
      assert e in entries && Dangles(e, exits);
    }
  }

  /** Pairing is what its name says, its intervals are separated by real gaps, and the flag is up
      exactly when the last entry has no exit at or after it. */
  lemma {:induction false} PairingMeans(entries: set<int>, exits: set<int>)
    ensures WellPaired(entries, exits, Pairing(entries, exits).0)
    ensures forall i :: 0 <= i < |Pairing(entries, exits).0| ==> Pairing(entries, exits).0[i].0 <= Pairing(entries, exits).0[i].1
    ensures forall i :: 0 < i < |Pairing(entries, exits).0| ==> Pairing(entries, exits).0[i - 1].1 < Pairing(entries, exits).0[i].0
    ensures Pairing(entries, exits).1 == LeftOver(entries, exits)
    decreases |entries|
  {
    if entries != {} {
      var start := Earliest(entries);
      if NotBefore(exits, start) == {} {
        assert forall x :: x in exits ==> x in NotBefore(exits, start) || x < start;
        assert Dangles(start, exits);
      } else {
        var end := Earliest(NotBefore(exits, start));
        LaterShrinks(entries, start, end);
        PairingMeans(LaterThan(entries, end), LaterThan(exits, end));
        PairingExtends(entries, exits, start, end, Pairing(LaterThan(entries, end), LaterThan(exits, end)).0);
        LeftOverLater(entries, exits, end);
      }
    }
  }

  /** No entry behind the last interval finds an exit. */
  ghost predicate Exhausted(entries: set<int>, exits: set<int>, intervals: seq<(int, int)>) {
    forall e :: e in entries && (intervals == [] || e > intervals[|intervals| - 1].1) ==> Dangles(e, exits)
  }

  /** Nothing that could be paired is left out. */
  lemma {:induction false} PairingIsComplete(entries: set<int>, exits: set<int>)
    ensures Exhausted(entries, exits, Pairing(entries, exits).0)
    decreases |entries|
  {
    if entries != {} {
      var start := Earliest(entries);
      if NotBefore(exits, start) == {} {
        assert forall x :: x in exits ==> x in NotBefore(exits, start) || x < start;
      } else {
        var end := Earliest(NotBefore(exits, start));
        LaterShrinks(entries, start, end);
        var rest := Pairing(LaterThan(entries, end), LaterThan(exits, end)).0;
        PairingIsComplete(LaterThan(entries, end), LaterThan(exits, end));
        PairingMeans(LaterThan(entries, end), LaterThan(exits, end));
        MoreIsComplete(entries, exits, (start, end), rest);
      }
    }
  }

  lemma MoreIsComplete(entries: set<int>, exits: set<int>, first: (int, int), rest: seq<(int, int)>)
    requires Exhausted(LaterThan(entries, first.1), LaterThan(exits, first.1), rest)
    requires WellPaired(LaterThan(entries, first.1), LaterThan(exits, first.1), rest)
    ensures Exhausted(entries, exits, [first] + rest)
  {
    var all := [first] + rest;
    if rest != [] {
      assert all[|all| - 1] == rest[|rest| - 1];
      StartsLater(LaterThan(entries, first.1), LaterThan(exits, first.1), first.1, rest, |rest| - 1);
      assert EndsRight(LaterThan(exits, first.1), rest[|rest| - 1]);
    }
    forall e | e in entries && e > all[|all| - 1].1 ensures Dangles(e, exits) {
      assert e in LaterThan(entries, first.1);
      assert Dangles(e, LaterThan(exits, first.1));
      forall x | x in exits ensures x < e { assert x <= first.1 || x in LaterThan(exits, first.1); }
    }
  }

  /** These rules leave one pairing: two lists of intervals that meet them are the same. */
  lemma {:induction false} OnePairing(entries: set<int>, exits: set<int>, a: seq<(int, int)>, b: seq<(int, int)>, n: nat)
    requires WellPaired(entries, exits, a) && WellPaired(entries, exits, b) && Exhausted(entries, exits, a) && Exhausted(entries, exits, b)
    requires n <= |a|
    ensures n <= |b| && a[..n] == b[..n]
  {
    if n > 0 {
      OnePairing(entries, exits, a, b, n - 1);
      assert EndsRight(exits, a[n - 1]);
      assert a[n - 1].1 in exits && a[n - 1].1 >= a[n - 1].0;
      if n > 1 {
        assert a[n - 2] == a[..n - 1][n - 2] == b[..n - 1][n - 2] == b[n - 2];
        assert IsMin(LaterThan(entries, a[n - 2].1), a[n - 1].0);
      } else {
        assert IsMin(entries, a[0].0);
      }
      if |b| == n - 1 {
        assert false;
      }
      assert EndsRight(exits, b[n - 1]);
      if n > 1 { assert IsMin(LaterThan(entries, b[n - 2].1), b[n - 1].0); } else { assert IsMin(entries, b[0].0); }
      assert a[n - 1].0 == b[n - 1].0;
      assert a[n - 1] == b[n - 1];
    }
  }

  /** So the pairing of two sets of times is determined by them. */
  lemma PairingIsUnique(entries: set<int>, exits: set<int>, intervals: seq<(int, int)>)
    requires WellPaired(entries, exits, intervals) && Exhausted(entries, exits, intervals)
    ensures intervals == Pairing(entries, exits).0
  {
    hide *;
    var p := Pairing(entries, exits).0;
    PairingMeans(entries, exits);
    PairingIsComplete(entries, exits);
    OnePairing(entries, exits, intervals, p, |intervals|);
    OnePairing(entries, exits, p, intervals, |p|);
    assert intervals[..|intervals|] == intervals && p[..|p|] == p;
  }

  lemma PairingExtends(entries: set<int>, exits: set<int>, start: int, end: int, rest: seq<(int, int)>)
    requires IsMin(entries, start) && IsMin(NotBefore(exits, start), end)
    requires WellPaired(LaterThan(entries, end), LaterThan(exits, end), rest)
    ensures WellPaired(entries, exits, [(start, end)] + rest)
    ensures rest != [] ==> end < rest[0].0
  {
    var all := [(start, end)] + rest;
    var later := LaterThan(exits, end);
    forall i | 0 <= i < |all| ensures EndsRight(exits, all[i]) {
      if i > 0 {
        assert all[i] == rest[i - 1] && EndsRight(later, rest[i - 1]);
        assert end < rest[i - 1].0 by { StartsLater(LaterThan(entries, end), later, end, rest, i - 1); }
        assert NotBefore(exits, all[i].0) == NotBefore(later, all[i].0);
      }
    }
    forall i | 0 < i < |all| ensures IsMin(LaterThan(entries, all[i - 1].1), all[i].0) {
      if i > 1 {
        StartsLater(LaterThan(entries, end), later, end, rest, i - 2);
        assert EndsRight(later, rest[i - 2]);
        assert LaterThan(entries, rest[i - 2].1) == LaterThan(LaterThan(entries, end), rest[i - 2].1);
      }
    }
  }

  lemma StartsLater(entries: set<int>, exits: set<int>, end: int, intervals: seq<(int, int)>, i: nat)
    requires WellPaired(entries, exits, intervals) && i < |intervals| && forall e :: e in entries ==> end < e
    ensures end < intervals[i].0
  {
    if i > 0 { assert IsMin(LaterThan(entries, intervals[i - 1].1), intervals[i].0); }
  }
}
