/**
 Persisting an attendance event: a photo is published on disk before the row is queued, and a
 guard takes it away again unless the row commits. The machine lets any number of calls, the
 single writer and crashes interleave; the class below it is one call on its own.
 */
module EventIngest {
  import opened Options
  import opened Sequences
  import W = ShiftWindows

  type Call = nat
  type EventId = nat
  type EmployeeId = nat

  /** `{utc date}/{event id}.jpg`; the date is missing for instants outside the calendar. */
  datatype Path = Path(date: Option<int>, id: EventId)

  datatype NewEvent = NewEvent(id: EventId, employee: Option<EmployeeId>, device: nat, entry: bool,
                               capturedAt: int, photo: Option<nat>)

  datatype Request = Day(employee: EmployeeId, anchor: int)

  /** The answer of the shift-context read. */
  datatype Lookup = Found(dept: W.Department, rules: W.Rules) | NoSuchEmployee | LookupFailed

  datatype World = World(
    event: Call -> NewEvent,
    utcDate: int -> Option<int>,
    localDate: int -> Option<int>,
    lookup: Call -> Lookup,
    zone: W.Zone,
    firstDate: int)

  // --------------------------------------------------------------- pure pieces

  /** The driver language's division truncates toward zero. */
  function Bucket(capturedAt: int): int {
    if capturedAt >= 0 then capturedAt / 30 else -((-capturedAt) / 30)
  }

  /** The stored bucket is the floor the schema speaks of exactly from 1970 on and on whole buckets before. */
  lemma BucketIsFloor(capturedAt: int)
    ensures (Bucket(capturedAt) == capturedAt / 30) == (capturedAt >= 0 || capturedAt % 30 == 0)
  {
  }

  type DedupKey = (EmployeeId, nat, bool, int)

  /** NULL employees never collide. */
  function KeyOf(e: NewEvent): Option<DedupKey> {
    if e.employee.None? then None else Some((e.employee.value, e.device, e.entry, Bucket(e.capturedAt)))
  }

  /** The same stretch of thirty seconds, as truncating division cuts them: the one around zero is
      twice as long. */
  predicate SameSlot(t: int, u: int) {
    if -30 < t < 30 then -30 < u < 30
    else if t > 0 then u >= 30 && t - t % 30 <= u < t - t % 30 + 30
    else u <= -30 && -t - -t % 30 <= -u < -t - -t % 30 + 30
  }

  /** The same known employee at the same device in the same direction and half minute. */
  predicate SameAccess(a: NewEvent, b: NewEvent) {
    && a.employee.Some? && a.employee == b.employee && a.device == b.device && a.entry == b.entry
    && SameSlot(a.capturedAt, b.capturedAt)
  }

  lemma BucketsAreSlots(t: int, u: int)
    ensures Bucket(t) == Bucket(u) <==> SameSlot(t, u)
  {
  }

  /** Two events collide exactly when they record the same access. */
  lemma KeysCollideExactly(a: NewEvent, b: NewEvent)
    ensures KeyOf(a).Some? && KeyOf(a) == KeyOf(b) <==> SameAccess(a, b)
  {
    BucketsAreSlots(a.capturedAt, b.capturedAt);
    hide Bucket;
    hide SameSlot;
  }

  function PathOf(w: World, c: Call): Path { Path(w.utcDate(w.event(c).capturedAt), w.event(c).id) }

  function ForAnchors(employee: EmployeeId, anchors: seq<int>): (r: seq<Request>)
    ensures |r| == |anchors| && forall i :: 0 <= i < |r| ==> r[i] == Day(employee, anchors[i])
  {
    seq(|anchors|, i requires 0 <= i < |anchors| => Day(employee, anchors[i]))
  }

  function ResolveRecomputeRequests(w: World, c: Call): seq<Request> {
    var e := w.event(c);
    if e.employee.None? then [] else
    match w.localDate(e.capturedAt)
    case None => []
    case Some(own) =>
      match w.lookup(c)
      case Found(dept, rules) =>
        ForAnchors(e.employee.value, W.AnchorDatesForInstant(e.capturedAt, own, dept, rules, w.zone, w.firstDate))
      case _ => ForAnchors(e.employee.value, [own])
  }

  /** A known employee's event always asks for some day of that employee; and for every day whose
      window holds it, in a zone with a fixed offset and windows that stay inside their dates. */
  lemma RequestsCoverTheShift(w: World, c: Call, own: int)
    requires w.event(c).employee.Some? && w.localDate(w.event(c).capturedAt) == Some(own)
    ensures var r := ResolveRecomputeRequests(w, c);
      r != [] && forall q :: q in r ==> q.employee == w.event(c).employee.value
    ensures forall offset: int, anchor: int ::
      w.lookup(c).Found? && w.zone == W.FixedOffset(offset) && own == W.LocalDate(offset, w.event(c).capturedAt)
      && W.StaysInside(w.lookup(c).dept, w.lookup(c).rules) && anchor >= w.firstDate
      && W.ShiftWindow(anchor, w.lookup(c).dept, w.lookup(c).rules, w.zone).Holds(w.event(c).capturedAt)
      ==> Day(w.event(c).employee.value, anchor) in ResolveRecomputeRequests(w, c)
  {
    forall offset: int, anchor: int | w.lookup(c).Found? && w.zone == W.FixedOffset(offset)
        && own == W.LocalDate(offset, w.event(c).capturedAt)
        && W.StaysInside(w.lookup(c).dept, w.lookup(c).rules) && anchor >= w.firstDate
        && W.ShiftWindow(anchor, w.lookup(c).dept, w.lookup(c).rules, w.zone).Holds(w.event(c).capturedAt)
      ensures Day(w.event(c).employee.value, anchor) in ResolveRecomputeRequests(w, c)
    {
      W.AnchorIsFound(w.event(c).capturedAt, anchor, w.lookup(c).dept, w.lookup(c).rules, offset, w.firstDate);
      var anchors := W.AnchorDatesForInstant(w.event(c).capturedAt, own, w.lookup(c).dept, w.lookup(c).rules, w.zone, w.firstDate);
      var i :| 0 <= i < |anchors| && anchors[i] == anchor;
      assert ForAnchors(w.event(c).employee.value, anchors)[i] == Day(w.event(c).employee.value, anchor);
    }
  }

  /** What is asked for: nothing without a known employee and a local date; the local date alone
      when the shift cannot be looked up; otherwise days whose windows hold the instant, or that date. */
  lemma RequestsAreSound(w: World, c: Call)
    ensures var e := w.event(c);
      w.event(c).employee.None? || w.localDate(e.capturedAt).None? ==> ResolveRecomputeRequests(w, c) == []
    ensures var e := w.event(c);
      e.employee.Some? && w.localDate(e.capturedAt).Some? && !w.lookup(c).Found? ==>
      ResolveRecomputeRequests(w, c) == [Day(e.employee.value, w.localDate(e.capturedAt).value)]
    ensures var e := w.event(c);
      e.employee.Some? && w.localDate(e.capturedAt).Some? && w.lookup(c).Found? ==>
      forall q :: q in ResolveRecomputeRequests(w, c) ==>
        q.employee == e.employee.value
        && (q.anchor == w.localDate(e.capturedAt).value
            || W.ShiftWindow(q.anchor, w.lookup(c).dept, w.lookup(c).rules, w.zone).Holds(e.capturedAt))
  {
    hide W.ShiftWindow;
  }

  // ----------------------------------------------------------------- the machine

  datatype Row = Row(key: Option<DedupKey>, path: Option<Path>, owner: Call)

  datatype Outcome = Inserted | Deduplicated | Error

  datatype Phase = New | Guarded | Queued | Working | Done(outcome: Outcome) | Lost

  datatype Writer =
    | Idle
    | Taken(call: Call)
    | InTransaction(call: Call)
    | Committing(call: Call, isNew: bool)
    | Keeping(call: Call)
    | Sending(call: Call, left: seq<Request>)
    | Replying(call: Call, outcome: Outcome)

  datatype State = State(
    // durable
    rows: map<EventId, Row>, files: map<Path, Call>,
    // volatile
    guards: set<Call>, phases: map<Call, Phase>, channel: seq<Call>, writer: Writer, sent: seq<(Call, Request)>,
    // history: the inserting commits, and for each how many requests it sent once its callback had begun
    committed: seq<Call>, published: seq<Option<nat>>, receiverLost: bool)

  function PhaseOf(s: State, c: Call): Phase { if c in s.phases then s.phases[c] else New }

  ghost predicate Init(s: State) {
    && s.rows == map[] && s.files == map[] && s.guards == {} && s.phases == map[] && s.channel == []
    && s.writer == Idle && s.sent == [] && s.committed == [] && s.published == [] && !s.receiverLost
  }

  predicate Conflict(rows: map<EventId, Row>, e: NewEvent) {
    e.id in rows || (KeyOf(e).Some? && exists id :: id in rows && rows[id].key == KeyOf(e))
  }

  function RowFor(w: World, c: Call): Row {
    Row(KeyOf(w.event(c)), if w.event(c).photo.Some? then Some(PathOf(w, c)) else None, c)
  }

  /** The guard goes out of scope: it removes its own file and nobody else's. */
  function Dropped(w: World, s: State, c: Call): State {
    if c !in s.guards then s else
    var path := PathOf(w, c);
    s.(guards := s.guards - {c},
       files := if path in s.files && s.files[path] == c then s.files - {path} else s.files)
  }

  function Ended(s: State, c: Call, outcome: Outcome): State { s.(phases := s.phases[c := Done(outcome)]) }

  function Crashed(s: State): State {
    s.(guards := {}, channel := [], writer := Idle,
       phases := map c | c in s.phases :: if s.phases[c].Done? || s.phases[c].New? then s.phases[c] else Lost)
  }

  datatype Step =
    | WritePhoto(call: Call, ok: bool)
    | Refuse(call: Call)
    | Accept(call: Call)
    | Take
    | Begin(ok: bool)
    | Insert(ok: bool)
    | Commit(ok: bool)
    | Keep
    | SendOne(delivered: bool)
    | SendDone
    | Reply
    | Crash

  predicate Can(w: World, s: State, step: Step) {
    match step
    case WritePhoto(c, ok) =>
      // publication never replaces an existing file
      PhaseOf(s, c).New? && (w.event(c).photo.Some? && PathOf(w, c) in s.files ==> !ok)
    case Refuse(c) => PhaseOf(s, c).Guarded?
    case Accept(c) => PhaseOf(s, c).Guarded?
    case Take => s.writer.Idle? && s.channel != []
    case Begin(_) => s.writer.Taken?
    case Insert(_) => s.writer.InTransaction?
    case Commit(_) => s.writer.Committing?
    case Keep => s.writer.Keeping?
    case SendOne(_) => s.writer.Sending? && s.writer.left != []
    case SendDone => s.writer.Sending? && s.writer.left == []
    case Reply => s.writer.Replying?
    case Crash => true
  }

  function Do(w: World, s: State, step: Step): State
    requires Can(w, s, step)
  {
    match step
    case WritePhoto(c, ok) =>
      if w.event(c).photo.None? then s.(phases := s.phases[c := Guarded])
      else if !ok then Ended(s, c, Error)
      else s.(files := s.files[PathOf(w, c) := c], guards := s.guards + {c}, phases := s.phases[c := Guarded])
    case Refuse(c) => Ended(Dropped(w, s, c), c, Error)
    case Accept(c) => s.(phases := s.phases[c := Queued], channel := s.channel + [c])
    case Take =>
      s.(channel := s.channel[1..], writer := Taken(s.channel[0]), phases := s.phases[s.channel[0] := Working])
    case Begin(ok) =>
      var c := s.writer.call;
      if ok then s.(writer := InTransaction(c)) else Ended(Dropped(w, s, c), c, Error).(writer := Idle)
    case Insert(ok) =>
      var c := s.writer.call;
      if !ok then Ended(Dropped(w, s, c), c, Error).(writer := Idle)
      else if Conflict(s.rows, w.event(c)) then Dropped(w, s, c).(writer := Committing(c, false))
      else s.(writer := Committing(c, true))
    case Commit(ok) =>
      var c := s.writer.call;
      if !ok then Ended(Dropped(w, s, c), c, Error).(writer := Idle)
      else if s.writer.isNew then
        s.(rows := s.rows[w.event(c).id := RowFor(w, c)], writer := Keeping(c),
           committed := s.committed + [c], published := s.published + [None])
      else s.(writer := Replying(c, Deduplicated))
    case Keep =>
      var c := s.writer.call;
      s.(guards := s.guards - {c}, writer := Sending(c, ResolveRecomputeRequests(w, c)),
         published := if s.published == [] then [] else s.published[|s.published| - 1 := Some(0)])
    case SendOne(delivered) =>
      var c, left := s.writer.call, s.writer.left;
      if !delivered then s.(writer := Replying(c, Inserted), receiverLost := true)
      else s.(writer := Sending(c, left[1..]), sent := s.sent + [(c, left[0])], published := OneMore(s.published))
    case SendDone => s.(writer := Replying(s.writer.call, Inserted))
    case Reply => Ended(s, s.writer.call, s.writer.outcome).(writer := Idle)
    case Crash => Crashed(s)
  }

  function OneMore(published: seq<Option<nat>>): (r: seq<Option<nat>>)
    ensures |r| == |published|
  {
    if published == [] || published[|published| - 1].None? then published
    else published[|published| - 1 := Some(published[|published| - 1].value + 1)]
  }

  // ----------------------------------------------------------------- invariants

  /** The call the writer has in hand before its commit is decided. */
  predicate Undecided(writer: Writer, c: Call) {
    (writer.Taken? || writer.InTransaction? || (writer.Committing? && writer.isNew)) && writer.call == c
  }

  ghost predicate PhaseInv(s: State) {
    && (!s.writer.Idle? ==> PhaseOf(s, s.writer.call) == Working)
    && (forall c :: PhaseOf(s, c) == Working ==> !s.writer.Idle? && s.writer.call == c)
    && (forall c :: c in s.channel <==> PhaseOf(s, c) == Queued)
    && (forall i, j :: 0 <= i < j < |s.channel| ==> s.channel[i] != s.channel[j])
  }

  predicate Pending(s: State, c: Call) { PhaseOf(s, c).Guarded? || PhaseOf(s, c).Queued? || Undecided(s.writer, c) }

  /** A live guard owns its file; exactly the calls with a photo and no decision yet have one. */
  predicate GuardAt(w: World, s: State, c: Call) {
    && (c in s.guards ==> w.event(c).photo.Some? && PathOf(w, c) in s.files && s.files[PathOf(w, c)] == c)
    && (c in s.guards ==> Pending(s, c) || s.writer == Keeping(c))
    && (w.event(c).photo.Some? && Pending(s, c) ==> c in s.guards)
  }

  ghost predicate GuardInv(w: World, s: State) { forall c: Call :: GuardAt(w, s, c) }

  ghost predicate ByInserted(s: State, c: Call) {
    || PhaseOf(s, c) == Done(Inserted) || PhaseOf(s, c) == Lost
    || ((s.writer.Keeping? || s.writer.Sending? || s.writer == Replying(c, Inserted)) && s.writer.call == c)
  }

  /** A committed row belongs to the call that inserted it, and its photo is on disk as that call's. */
  ghost predicate RowInv(w: World, s: State) { forall id :: id in s.rows ==> RowAt(w, s, id) }

  ghost predicate HasRow(s: State, c: Call) { exists id :: id in s.rows && s.rows[id].owner == c }

  ghost predicate FileAt(w: World, s: State, p: Path)
    requires p in s.files
  {
    p == PathOf(w, s.files[p]) && w.event(s.files[p]).photo.Some? && Owned(w, s, s.files[p])
  }

  /** A file is somebody's: guarded, committed, or left by a crash. */
  ghost predicate FileInv(w: World, s: State) { forall p :: p in s.files ==> FileAt(w, s, p) }

  ghost predicate WriterInv(w: World, s: State) {
    && (s.writer.Committing? ==> Conflict(s.rows, w.event(s.writer.call)) == !s.writer.isNew)
    && (s.writer.Keeping? || s.writer.Sending? ==> HasRow(s, s.writer.call))
    && (s.writer.Replying? ==> s.writer.outcome != Error)
    && (s.writer.Replying? && s.writer.outcome == Inserted ==> HasRow(s, s.writer.call))
    && (s.writer.Replying? && s.writer.outcome == Deduplicated ==> Conflict(s.rows, w.event(s.writer.call)))
  }

  ghost predicate DoneAt(w: World, s: State, c: Call) {
    && (PhaseOf(s, c) == Done(Inserted) ==> HasRow(s, c))
    && (PhaseOf(s, c) == Done(Deduplicated) ==> Conflict(s.rows, w.event(c)))
  }

  /** What a call is told is true of the rows. */
  ghost predicate OutcomeInv(w: World, s: State) { WriterInv(w, s) && forall c: Call :: DoneAt(w, s, c) }

  ghost predicate UniqueInv(s: State) {
    forall i, j :: i in s.rows && j in s.rows && i != j && s.rows[i].key.Some? ==> s.rows[i].key != s.rows[j].key
  }

  function Prefix(w: World, c: Call, n: nat): seq<(Call, Request)> {
    var all := ResolveRecomputeRequests(w, c);
    var m := if n <= |all| then n else |all|;
    seq(m, i requires 0 <= i < m => (c, all[i]))
  }

  /** What was sent, if the `i`-th commit sent the first `published[i]` of its requests. */
  function Flat(w: World, committed: seq<Call>, published: seq<Option<nat>>): seq<(Call, Request)>
    requires |committed| == |published|
  {
    if committed == [] then [] else
    var n := |committed| - 1;
    Flat(w, committed[..n], published[..n]) + (if published[n].Some? then Prefix(w, committed[n], published[n].value) else [])
  }

  ghost predicate SentInv(w: World, s: State) {
    && |s.committed| == |s.published|
    && s.sent == Flat(w, s.committed, s.published)
    && (s.writer.Keeping? ==> s.committed != [] && s.committed[|s.committed| - 1] == s.writer.call && s.published[|s.published| - 1] == None)
    && (s.writer.Sending? ==>
          && s.committed != [] && s.committed[|s.committed| - 1] == s.writer.call && s.published[|s.published| - 1].Some?
          && s.published[|s.published| - 1].value <= |ResolveRecomputeRequests(w, s.writer.call)|
          && s.writer.left == ResolveRecomputeRequests(w, s.writer.call)[s.published[|s.published| - 1].value..])
  }

  predicate Current(s: State, c: Call) { (s.writer.Keeping? || s.writer.Sending?) && s.writer.call == c }

  ghost predicate AllSent(w: World, s: State, i: nat)
    requires i < |s.committed| == |s.published|
  {
    s.published[i] == Some(|ResolveRecomputeRequests(w, s.committed[i])|)
  }

  ghost predicate CompleteInv(w: World, s: State)
    requires |s.committed| == |s.published|
  {
    forall i :: 0 <= i < |s.committed| ==>
      Current(s, s.committed[i]) || AllSent(w, s, i) || PhaseOf(s, s.committed[i]) == Lost
      || (s.receiverLost && s.published[i].Some?)
  }

  ghost predicate OnceInv(s: State) {
    && (forall c :: c in s.committed ==> ByInserted(s, c))
    && (forall i, j :: 0 <= i < j < |s.committed| ==> s.committed[i] != s.committed[j])
  }

  // ----------------------------------------------------------------- their steps

  /** The call a step is about. */
  function Actor(s: State, step: Step): Call {
    match step
    case WritePhoto(c, _) => c
    case Refuse(c) => c
    case Accept(c) => c
    case Take => if s.channel == [] then 0 else s.channel[0]
    case _ => if s.writer.Idle? then 0 else s.writer.call
  }

  /** The phases behind a step. */
  ghost function PhasesAfter(w: World, s: State, step: Step): map<Call, Phase>
    requires Can(w, s, step)
  {
    match step
    case WritePhoto(c, ok) => s.phases[c := if w.event(c).photo.Some? && !ok then Done(Error) else Guarded]
    case Refuse(c) => s.phases[c := Done(Error)]
    case Accept(c) => s.phases[c := Queued]
    case Take => s.phases[s.channel[0] := Working]
    case Begin(ok) => if ok then s.phases else s.phases[s.writer.call := Done(Error)]
    case Insert(ok) => if ok then s.phases else s.phases[s.writer.call := Done(Error)]
    case Commit(ok) => if ok then s.phases else s.phases[s.writer.call := Done(Error)]
    case Reply => s.phases[s.writer.call := Done(s.writer.outcome)]
    case Crash => Crashed(s).phases
    case _ => s.phases
  }

  /** The writer behind a step. */
  ghost function WriterAfter(w: World, s: State, step: Step): Writer
    requires Can(w, s, step)
  {
    match step
    case Take => Taken(s.channel[0])
    case Begin(ok) => if ok then InTransaction(s.writer.call) else Idle
    case Insert(ok) => if ok then Committing(s.writer.call, !Conflict(s.rows, w.event(s.writer.call))) else Idle
    case Commit(ok) =>
      if !ok then Idle else if s.writer.isNew then Keeping(s.writer.call) else Replying(s.writer.call, Deduplicated)
    case Keep => Sending(s.writer.call, ResolveRecomputeRequests(w, s.writer.call))
    case SendOne(delivered) => if delivered then Sending(s.writer.call, s.writer.left[1..]) else Replying(s.writer.call, Inserted)
    case SendDone => Replying(s.writer.call, Inserted)
    case Reply => Idle
    case Crash => Idle
    case _ => s.writer
  }

  lemma DroppedKeepsPhases(w: World, s: State, c: Call)
    ensures Dropped(w, s, c).phases == s.phases
  {
    hide PathOf;
  }

  lemma PhasesMove(w: World, s: State, step: Step)
    requires Can(w, s, step)
    ensures Do(w, s, step).phases == PhasesAfter(w, s, step)
  {
    forall c { DroppedKeepsPhases(w, s, c); }
    hide Crashed;
    hide Dropped;
    hide Conflict;
    hide KeyOf;
    hide RowFor;
    hide ResolveRecomputeRequests;
    match step {
      case WritePhoto(_, _) => {}
      case Refuse(_) => {}
      case Accept(_) => {}
      case Take => {}
      case Begin(_) => {}
      case Insert(_) => {}
      case Commit(_) => {}
      case Keep => {}
      case SendOne(_) => {}
      case SendDone => {}
      case Reply => {}
      case Crash => {}
    }
  }

  lemma WriterMoves(w: World, s: State, step: Step)
    requires Can(w, s, step)
    ensures Do(w, s, step).writer == WriterAfter(w, s, step)
  {
    hide Conflict;
    hide KeyOf;
    hide RowFor;
    hide ResolveRecomputeRequests;
    match step {
      case WritePhoto(_, _) => {}
      case Refuse(_) => {}
      case Accept(_) => {}
      case Take => {}
      case Begin(_) => {}
      case Insert(_) => {}
      case Commit(_) => {}
      case Keep => {}
      case SendOne(_) => {}
      case SendDone => {}
      case Reply => {}
      case Crash => {}
    }
  }

  lemma PhaseDelta(w: World, s: State, step: Step, c: Call)
    requires PhaseInv(s) && Can(w, s, step)
    ensures step.Crash? ==> PhaseOf(Do(w, s, step), c) == (if PhaseOf(s, c).New? || PhaseOf(s, c).Done? then PhaseOf(s, c) else Lost)
    ensures !step.Crash? && c != Actor(s, step) ==> PhaseOf(Do(w, s, step), c) == PhaseOf(s, c)
    ensures c == Actor(s, step) && step.Accept? ==> PhaseOf(s, c).Guarded? && PhaseOf(Do(w, s, step), c).Queued?
    ensures c == Actor(s, step) && step.Take? ==> PhaseOf(s, c).Queued? && PhaseOf(Do(w, s, step), c).Working?
    ensures c == Actor(s, step) && !step.Crash? && !step.Accept? && !step.Take? ==>
      !PhaseOf(s, c).Queued? && !PhaseOf(Do(w, s, step), c).Queued?
  {
    PhasesMove(w, s, step);
    hide Do;
    hide ResolveRecomputeRequests;
    match step {
      case WritePhoto(_, _) => {}
      case Refuse(_) => {}
      case Accept(_) => {}
      case Take => {}
      case Begin(_) => {}
      case Insert(_) => {}
      case Commit(_) => {}
      case Keep => {}
      case SendOne(_) => {}
      case SendDone => {}
      case Reply => {}
      case Crash => {}
    }
  }

  lemma ChannelMoves(w: World, s: State, step: Step)
    requires Can(w, s, step)
    ensures Do(w, s, step).channel
      == if step.Crash? then [] else if step.Accept? then s.channel + [step.call] else if step.Take? then s.channel[1..] else s.channel
  {
    hide Dropped;
    hide Conflict;
    hide KeyOf;
    hide RowFor;
    hide ResolveRecomputeRequests;
    DroppedKeeps(w, s, if step.Refuse? then step.call else if s.writer.Idle? then 0 else s.writer.call);
    match step {
      case WritePhoto(_, _) => {}
      case Refuse(_) => {}
      case Accept(_) => {}
      case Take => {}
      case Begin(_) => {}
      case Insert(_) => {}
      case Commit(_) => {}
      case Keep => {}
      case SendOne(_) => {}
      case SendDone => {}
      case Reply => {}
      case Crash => {}
    }
  }

  lemma DroppedKeeps(w: World, s: State, c: Call)
    ensures Dropped(w, s, c).channel == s.channel
  {
  }

  lemma ChannelDelta(w: World, s: State, step: Step)
    requires PhaseInv(s) && Can(w, s, step)
    ensures var s' := Do(w, s, step);
      && s'.channel == (if step.Crash? then [] else if step.Accept? then s.channel + [step.call]
                        else if step.Take? then s.channel[1..] else s.channel)
      && (!s'.writer.Idle? ==> !step.Crash? && PhaseOf(s', s'.writer.call) == Working)
      && (s'.writer.Idle? && !s.writer.Idle? && !step.Crash? ==> PhaseOf(s', s.writer.call) != Working)
      && (!s.writer.Idle? && !s'.writer.Idle? ==> s'.writer.call == s.writer.call)
      && (s.writer.Idle? && !s'.writer.Idle? ==> step.Take? && s'.writer.call == s.channel[0])
      && (!step.Crash? && s.writer.Idle? && !step.Take? ==> PhaseOf(s', Actor(s, step)) != Working || PhaseOf(s, Actor(s, step)) == Working)
      && (!s.writer.Idle? && (step.WritePhoto? || step.Refuse? || step.Accept?) ==>
            s'.writer == s.writer && Actor(s, step) != s.writer.call && PhaseOf(s', Actor(s, step)) != Working)
  {
    ChannelMoves(w, s, step);
    hide Conflict;
    hide KeyOf;
    hide RowFor;
    hide ResolveRecomputeRequests;
    match step {
      case WritePhoto(_, _) => {}
      case Refuse(_) => {}
      case Accept(_) => {}
      case Take => {}
      case Begin(_) => {}
      case Insert(_) => {}
      case Commit(_) => {}
      case Keep => {}
      case SendOne(_) => {}
      case SendDone => {}
      case Reply => {}
      case Crash => {}
    }
  }

  lemma PhaseStep(w: World, s: State, step: Step)
    requires PhaseInv(s) && Can(w, s, step)
    ensures PhaseInv(Do(w, s, step))
  {
    var s' := Do(w, s, step);
    ChannelDelta(w, s, step);
    if step.Take? { assert s.channel == [s.channel[0]] + s.channel[1..]; }
    hide Do;
    forall c: Call ensures c in s'.channel <==> PhaseOf(s', c) == Queued {
      PhaseDelta(w, s, step, c);
    }
    forall c: Call | PhaseOf(s', c) == Working ensures !s'.writer.Idle? && s'.writer.call == c {
      PhaseDelta(w, s, step, c);
    }
  }

  /** The steps a caller takes, up to the writer's taking it over. */
  predicate Fronting(step: Step) { step.WritePhoto? || step.Refuse? || step.Accept? || step.Take? }

  lemma GuardFrontStep(w: World, s: State, step: Step)
    requires PhaseInv(s) && GuardAt(w, s, Actor(s, step)) && Can(w, s, step) && Fronting(step)
    ensures GuardAt(w, Do(w, s, step), Actor(s, step))
  {
    hide Conflict;
    hide KeyOf;
    hide RowFor;
    hide ResolveRecomputeRequests;
    match step {
      case WritePhoto(_, _) => {}
      case Refuse(_) => {}
      case Accept(_) => {}
      case Take => {}
      case _ => assert false;
    }
  }

  lemma GuardWriterStep(w: World, s: State, step: Step)
    requires PhaseInv(s) && GuardAt(w, s, Actor(s, step)) && Can(w, s, step) && !Fronting(step) && !step.Crash?
    ensures GuardAt(w, Do(w, s, step), Actor(s, step))
  {
    hide Conflict;
    hide KeyOf;
    hide RowFor;
    hide ResolveRecomputeRequests;
    match step {
      case Begin(_) => {}
      case Insert(_) => {}
      case Commit(_) => {}
      case Keep => {}
      case SendOne(_) => {}
      case SendDone => {}
      case Reply => {}
      case _ => assert false;
    }
  }

  lemma GuardOwnStep(w: World, s: State, step: Step)
    requires PhaseInv(s) && GuardAt(w, s, Actor(s, step)) && Can(w, s, step) && !step.Crash?
    ensures GuardAt(w, Do(w, s, step), Actor(s, step))
  {
    if Fronting(step) { GuardFrontStep(w, s, step); } else { GuardWriterStep(w, s, step); }
    hide *;
  }

  lemma GuardsDelta(w: World, s: State, step: Step, c: Call)
    requires Can(w, s, step)
    ensures step.Crash? ==> c !in Do(w, s, step).guards
    ensures !step.Crash? && c != Actor(s, step) ==> (c in Do(w, s, step).guards <==> c in s.guards)
  {
    hide Conflict;
    hide KeyOf;
    hide RowFor;
    hide ResolveRecomputeRequests;
    match step {
      case WritePhoto(_, _) => {}
      case Refuse(_) => {}
      case Accept(_) => {}
      case Take => {}
      case Begin(_) => {}
      case Insert(_) => {}
      case Commit(_) => {}
      case Keep => {}
      case SendOne(_) => {}
      case SendDone => {}
      case Reply => {}
      case Crash => {}
    }
  }

  lemma GuardOtherStep(w: World, s: State, step: Step, c: Call)
    requires PhaseInv(s) && GuardInv(w, s) && Can(w, s, step) && (step.Crash? || c != Actor(s, step))
    ensures GuardAt(w, Do(w, s, step), c)
  {
    assert GuardAt(w, s, c);
    PhaseDelta(w, s, step, c);
    ChannelDelta(w, s, step);
    GuardsDelta(w, s, step, c);
    if c in s.guards { KeepsOthersFile(w, s, step, c); }
    hide Do;
    hide GuardInv;
  }

  lemma KeepsOthersFile(w: World, s: State, step: Step, c: Call)
    requires GuardAt(w, s, c) && c in s.guards && Can(w, s, step) && (step.Crash? || c != Actor(s, step))
    ensures PathOf(w, c) in Do(w, s, step).files && Do(w, s, step).files[PathOf(w, c)] == c
  {
    hide Conflict;
    hide KeyOf;
    hide RowFor;
    hide ResolveRecomputeRequests;
    match step {
      case WritePhoto(_, _) => {}
      case Refuse(_) => {}
      case Accept(_) => {}
      case Take => {}
      case Begin(_) => {}
      case Insert(_) => {}
      case Commit(_) => {}
      case Keep => {}
      case SendOne(_) => {}
      case SendDone => {}
      case Reply => {}
      case Crash => {}
    }
  }

  lemma GuardStep(w: World, s: State, step: Step)
    requires PhaseInv(s) && GuardInv(w, s) && Can(w, s, step)
    ensures GuardInv(w, Do(w, s, step))
  {
    hide Do;
    hide Can;
    hide PhaseInv;
    hide GuardAt;
    var s' := Do(w, s, step);
    forall c: Call ensures GuardAt(w, s', c) {
      if !step.Crash? && c == Actor(s, step) { GuardOwnStep(w, s, step); } else { GuardOtherStep(w, s, step, c); }
    }
  }

  lemma InsertedStays(w: World, s: State, step: Step, c: Call)
    requires PhaseInv(s) && Can(w, s, step) && ByInserted(s, c)
    ensures ByInserted(Do(w, s, step), c)
  {
    PhasesMove(w, s, step);
    WriterMoves(w, s, step);
    hide Do;
    hide Conflict;
    hide ResolveRecomputeRequests;
    match step {
      case WritePhoto(_, _) => {}
      case Refuse(_) => {}
      case Accept(_) => {}
      case Take => {}
      case Begin(_) => {}
      case Insert(_) => {}
      case Commit(_) => {}
      case Keep => {}
      case SendOne(_) => {}
      case SendDone => {}
      case Reply => {}
      case Crash => {}
    }
  }

  /** A step removes at most the file of a pending call. */
  lemma FilesDelta(w: World, s: State, step: Step, p: Path)
    requires PhaseInv(s) && GuardInv(w, s) && Can(w, s, step) && p in s.files
    ensures var s' := Do(w, s, step);
      if p in s'.files then s'.files[p] == s.files[p] else s.files[p] in s.guards && Pending(s, s.files[p])
  {
    hide Conflict;
    hide KeyOf;
    hide RowFor;
    hide ResolveRecomputeRequests;
    assert GuardAt(w, s, s.files[p]);
    assert GuardAt(w, s, Actor(s, step));
  }

  lemma PendingIsNotInserted(s: State, c: Call)
    requires PhaseInv(s) && Pending(s, c)
    ensures !ByInserted(s, c)
  {
  }

  lemma RowsDelta(w: World, s: State, step: Step)
    requires Can(w, s, step)
    ensures Do(w, s, step).rows
      == if step == Commit(true) && s.writer.isNew then s.rows[w.event(s.writer.call).id := RowFor(w, s.writer.call)] else s.rows
  {
    hide Conflict;
    hide KeyOf;
    hide RowFor;
    hide ResolveRecomputeRequests;
    match step {
      case WritePhoto(_, _) => {}
      case Refuse(_) => {}
      case Accept(_) => {}
      case Take => {}
      case Begin(_) => {}
      case Insert(_) => {}
      case Commit(_) => {}
      case Keep => {}
      case SendOne(_) => {}
      case SendDone => {}
      case Reply => {}
      case Crash => {}
    }
  }

  ghost predicate RowAt(w: World, s: State, id: EventId)
    requires id in s.rows
  {
    var row := s.rows[id];
    && row == RowFor(w, row.owner) && w.event(row.owner).id == id && ByInserted(s, row.owner)
    && (row.path.Some? ==> row.path.value in s.files && s.files[row.path.value] == row.owner)
  }

  lemma CommitGivesRow(w: World, s: State)
    requires GuardInv(w, s) && s.writer.Committing? && s.writer.isNew
    ensures RowAt(w, Do(w, s, Commit(true)), w.event(s.writer.call).id)
  {
    assert GuardAt(w, s, s.writer.call) && Pending(s, s.writer.call);
    hide KeyOf;
  }

  lemma OldRowStep(w: World, s: State, step: Step, id: EventId)
    requires PhaseInv(s) && GuardInv(w, s) && Can(w, s, step) && id in s.rows && RowAt(w, s, id)
    requires id in Do(w, s, step).rows && Do(w, s, step).rows[id] == s.rows[id]
    ensures RowAt(w, Do(w, s, step), id)
  {
    var row := s.rows[id];
    InsertedStays(w, s, step, row.owner);
    if row.path.Some? {
      FilesDelta(w, s, step, row.path.value);
      if Pending(s, row.owner) { PendingIsNotInserted(s, row.owner); }
    }
    hide Do;
    hide Can;
    hide ByInserted;
    hide PhaseInv;
    hide Pending;
  }

  lemma RowStep(w: World, s: State, step: Step)
    requires PhaseInv(s) && GuardInv(w, s) && RowInv(w, s) && Can(w, s, step)
    ensures RowInv(w, Do(w, s, step))
  {
    var s' := Do(w, s, step);
    RowsDelta(w, s, step);
    hide Do;
    forall id | id in s'.rows ensures RowAt(w, s', id) {
      if step == Commit(true) && s.writer.isNew && id == w.event(s.writer.call).id {
        CommitGivesRow(w, s);
      } else {
        OldRowStep(w, s, step, id);
      }
    }
  }

  lemma DroppedFiles(w: World, s: State, c: Call)
    ensures forall p :: p in Dropped(w, s, c).files ==> p in s.files && Dropped(w, s, c).files[p] == s.files[p]
  {
    hide PathOf;
  }

  lemma FileOrigin(w: World, s: State, step: Step, p: Path)
    requires PhaseInv(s) && GuardInv(w, s) && Can(w, s, step) && p in Do(w, s, step).files
    ensures var s' := Do(w, s, step);
      || (p in s.files && s'.files[p] == s.files[p])
      || (step.WritePhoto? && w.event(step.call).photo.Some? && p == PathOf(w, step.call) && s'.files[p] == step.call && step.call in s'.guards)
  {
    forall c { DroppedFiles(w, s, c); }
    hide Dropped;
    hide Conflict;
    hide KeyOf;
    hide RowFor;
    hide ResolveRecomputeRequests;
    match step {
      case WritePhoto(_, _) => {}
      case Refuse(_) => {}
      case Accept(_) => {}
      case Take => {}
      case Begin(_) => {}
      case Insert(_) => {}
      case Commit(_) => {}
      case Keep => {}
      case SendOne(_) => {}
      case SendDone => {}
      case Reply => {}
      case Crash => {}
    }
  }

  lemma FileStep(w: World, s: State, step: Step)
    requires PhaseInv(s) && GuardInv(w, s) && FileInv(w, s) && OutcomeInv(w, s) && Can(w, s, step)
    ensures FileInv(w, Do(w, s, step))
  {
    var s' := Do(w, s, step);
    hide Do;
    hide Can;
    hide GuardInv;
    hide OutcomeInv;
    hide PhaseInv;
    forall p | p in s'.files ensures FileAt(w, s', p) {
      FileOrigin(w, s, step, p);
      if p in s.files && s'.files[p] == s.files[p] {
        assert FileAt(w, s, p);
        OwnedStays(w, s, step, s.files[p]);
      }
    }
  }

  lemma RowsStay(w: World, s: State, step: Step, c: Call)
    requires PhaseInv(s) && OutcomeInv(w, s) && Can(w, s, step) && HasRow(s, c)
    ensures HasRow(Do(w, s, step), c)
  {
    var id :| id in s.rows && s.rows[id].owner == c;
    hide KeyOf;
    assert id in Do(w, s, step).rows && Do(w, s, step).rows[id].owner == c;
  }

  ghost predicate Owned(w: World, s: State, c: Call) { c in s.guards || HasRow(s, c) || PhaseOf(s, c) == Lost }

  lemma OwnedStays(w: World, s: State, step: Step, c: Call)
    requires PhaseInv(s) && GuardInv(w, s) && OutcomeInv(w, s) && Can(w, s, step) && Owned(w, s, c)
    requires w.event(c).photo.Some? && PathOf(w, c) in Do(w, s, step).files && Do(w, s, step).files[PathOf(w, c)] == c
    ensures Owned(w, Do(w, s, step), c)
  {
    if HasRow(s, c) {
      RowsStay(w, s, step, c);
    } else if step.Keep? && c == s.writer.call {
      RowsStay(w, s, step, c);
    } else {
      hide HasRow;
      hide OutcomeInv;
      assert GuardAt(w, s, c) && GuardAt(w, s, Actor(s, step));
      hide GuardInv;
      hide Conflict;
      hide KeyOf;
      hide RowFor;
      hide ResolveRecomputeRequests;
      LiveStaysOwned(w, s, step, c);
    }
  }

  lemma LiveStaysOwned(w: World, s: State, step: Step, c: Call)
    requires PhaseInv(s) && GuardAt(w, s, c) && Can(w, s, step) && (c in s.guards || PhaseOf(s, c) == Lost)
    requires !(step.Keep? && c == s.writer.call)
    requires PathOf(w, c) in Do(w, s, step).files && Do(w, s, step).files[PathOf(w, c)] == c
    ensures c in Do(w, s, step).guards || PhaseOf(Do(w, s, step), c) == Lost
  {
    PhaseDelta(w, s, step, c);
    GuardsDelta(w, s, step, c);
    LostIsIdle(w, s, step, c);
    if step.Crash? || c != Actor(s, step) {
      hide Do;
    } else {
      hide Conflict;
      hide KeyOf;
      hide RowFor;
      hide ResolveRecomputeRequests;
    }
  }

  lemma ConflictStays(w: World, s: State, step: Step, e: NewEvent)
    requires WriterInv(w, s) && Can(w, s, step) && Conflict(s.rows, e)
    ensures Conflict(Do(w, s, step).rows, e)
  {
    RowsDelta(w, s, step);
    var rows := Do(w, s, step).rows;
    hide Do;
    hide KeyOf;
    if e.id !in s.rows {
      var id :| id in s.rows && s.rows[id].key == KeyOf(e);
      assert id in rows && rows[id].key == KeyOf(e);
    }
  }

  lemma InsertKeepsRows(w: World, s: State, step: Step)
    requires Can(w, s, step) && step.Insert?
    ensures Do(w, s, step).rows == s.rows
  {
    hide Conflict;
  }

  lemma WriterStep(w: World, s: State, step: Step)
    requires PhaseInv(s) && OutcomeInv(w, s) && Can(w, s, step)
    ensures WriterInv(w, Do(w, s, step))
  {
    var s' := Do(w, s, step);
    if !step.Crash? && !s.writer.Idle? {
      var c := s.writer.call;
      if Conflict(s.rows, w.event(c)) { ConflictStays(w, s, step, w.event(c)); }
      if HasRow(s, c) { RowsStay(w, s, step, c); }
    }
    if step == Commit(true) && s.writer.isNew {
      assert s'.rows[w.event(s.writer.call).id].owner == s.writer.call;
    }
    WriterMoves(w, s, step);
    if step.Insert? { InsertKeepsRows(w, s, step); }
    hide Do;
    hide Conflict;
    hide HasRow;
    hide RowFor;
    hide ResolveRecomputeRequests;
  }

  /** A call ends with an error, or with what the writer is replying to it. */
  lemma EndDelta(w: World, s: State, step: Step, c: Call)
    requires PhaseInv(s) && Can(w, s, step) && c == Actor(s, step) && !step.Crash? && PhaseOf(Do(w, s, step), c).Done?
    ensures PhaseOf(Do(w, s, step), c) == Done(Error) || PhaseOf(Do(w, s, step), c) == PhaseOf(s, c)
      || (step.Reply? && PhaseOf(Do(w, s, step), c) == Done(s.writer.outcome) && c == s.writer.call)
  {
    hide Conflict;
    hide KeyOf;
    hide RowFor;
    hide ResolveRecomputeRequests;
  }

  lemma DoneStep(w: World, s: State, step: Step, c: Call)
    requires PhaseInv(s) && OutcomeInv(w, s) && Can(w, s, step)
    ensures DoneAt(w, Do(w, s, step), c)
  {
    if HasRow(s, c) { RowsStay(w, s, step, c); }
    if Conflict(s.rows, w.event(c)) { ConflictStays(w, s, step, w.event(c)); }
    assert DoneAt(w, s, c);
    PhaseDelta(w, s, step, c);
    if PhaseOf(Do(w, s, step), c).Done? && c == Actor(s, step) && !step.Crash? { EndDelta(w, s, step, c); }
    hide Do;
    hide Conflict;
    hide HasRow;
  }

  lemma OutcomeStep(w: World, s: State, step: Step)
    requires PhaseInv(s) && OutcomeInv(w, s) && Can(w, s, step)
    ensures OutcomeInv(w, Do(w, s, step))
  {
    WriterStep(w, s, step);
    hide WriterInv;
    hide DoneAt;
    hide Do;
    hide Can;
    forall c: Call ensures DoneAt(w, Do(w, s, step), c) { DoneStep(w, s, step, c); }
  }

  lemma UniqueStep(w: World, s: State, step: Step)
    requires UniqueInv(s) && WriterInv(w, s) && Can(w, s, step)
    ensures UniqueInv(Do(w, s, step))
  {
    RowsDelta(w, s, step);
    hide Do;
    hide Can;
    hide KeyOf;
    hide HasRow;
  }

  // ------------------------------------------------------- publication, in order

  lemma FlatAppend(w: World, committed: seq<Call>, published: seq<Option<nat>>, c: Call, n: Option<nat>)
    requires |committed| == |published|
    ensures Flat(w, committed + [c], published + [n]) == Flat(w, committed, published) + (if n.Some? then Prefix(w, c, n.value) else [])
  {
    assert (committed + [c])[..|committed|] == committed && (published + [n])[..|published|] == published;
  }

  lemma FlatLast(w: World, committed: seq<Call>, published: seq<Option<nat>>, n: nat)
    requires |committed| == |published| > 0
    ensures var last := |committed| - 1;
      Flat(w, committed, published[last := Some(n)])
      == Flat(w, committed[..last], published[..last]) + Prefix(w, committed[last], n)
  {
    var last := |committed| - 1;
    assert published[last := Some(n)][..last] == published[..last];
  }

  lemma PrefixNext(w: World, c: Call, n: nat)
    requires n < |ResolveRecomputeRequests(w, c)|
    ensures Prefix(w, c, n + 1) == Prefix(w, c, n) + [(c, ResolveRecomputeRequests(w, c)[n])]
  {
  }

  lemma CommitSent(w: World, s: State)
    requires SentInv(w, s) && s.writer.Committing? && s.writer.isNew
    ensures SentInv(w, Do(w, s, Commit(true)))
  {
    FlatAppend(w, s.committed, s.published, s.writer.call, None);
    hide Flat;
    hide RowFor;
    hide ResolveRecomputeRequests;
  }

  lemma KeepSent(w: World, s: State)
    requires SentInv(w, s) && s.writer.Keeping?
    ensures SentInv(w, Do(w, s, Keep))
  {
    FlatLast(w, s.committed, s.published, 0);
    assert Prefix(w, s.writer.call, 0) == [];
    hide ResolveRecomputeRequests;
  }

  lemma SendDelta(w: World, s: State)
    requires |s.published| > 0 && s.published[|s.published| - 1].Some? && s.writer.Sending? && s.writer.left != []
    ensures var s' := Do(w, s, SendOne(true)); var last := |s.published| - 1;
      && s'.published == s.published[last := Some(s.published[last].value + 1)]
      && s'.committed == s.committed && s'.sent == s.sent + [(s.writer.call, s.writer.left[0])]
      && s'.writer == Sending(s.writer.call, s.writer.left[1..])
  {
    hide Conflict;
    hide KeyOf;
    hide RowFor;
    hide ResolveRecomputeRequests;
  }

  lemma OneMoreSent(w: World, s: State, s': State)
    requires SentInv(w, s) && s.writer.Sending? && s.writer.left != [] && s'.committed == s.committed
    requires s'.published == s.published[|s.published| - 1 := Some(s.published[|s.published| - 1].value + 1)]
    requires s'.sent == s.sent + [(s.writer.call, s.writer.left[0])] && s'.writer == Sending(s.writer.call, s.writer.left[1..])
    ensures SentInv(w, s')
  {
    hide *;
    SendingAt(w, s);
    var last := |s.committed| - 1;
    var n := s.published[last].value;
    var all := ResolveRecomputeRequests(w, s.writer.call);
    FlatLast(w, s.committed, s.published, n + 1);
    FlatLast(w, s.committed, s.published, n);
    RestOfRest(all, n, s.published, last);
    PrefixNext(w, s.writer.call, n);
    Regroup(Flat(w, s.committed[..last], s.published[..last]), Prefix(w, s.writer.call, n), [(s.writer.call, all[n])]);
    SendingOn(w, s');
  }

  lemma SendingAt(w: World, s: State)
    requires SentInv(w, s) && s.writer.Sending?
    ensures |s.committed| == |s.published| > 0 && s.sent == Flat(w, s.committed, s.published)
    ensures var last, all := |s.published| - 1, ResolveRecomputeRequests(w, s.writer.call);
      && s.committed[last] == s.writer.call && s.published[last].Some?
      && s.published[last].value <= |all| && s.writer.left == all[s.published[last].value..]
  {
    hide Flat;
    hide ResolveRecomputeRequests;
  }

  lemma SendingOn(w: World, s: State)
    requires |s.committed| == |s.published| > 0 && s.sent == Flat(w, s.committed, s.published) && s.writer.Sending?
    requires var last, all := |s.published| - 1, ResolveRecomputeRequests(w, s.writer.call);
      && s.committed[last] == s.writer.call && s.published[last].Some?
      && s.published[last].value <= |all| && s.writer.left == all[s.published[last].value..]
    ensures SentInv(w, s)
  {
    hide Flat;
    hide ResolveRecomputeRequests;
  }

  lemma RestOfRest<T>(all: seq<T>, n: nat, published: seq<Option<nat>>, last: nat)
    requires n <= |all| && last < |published| && published[last] == Some(n)
    ensures published[last := Some(n)] == published
    ensures n < |all| ==> all[n..][1..] == all[n + 1..] && all[n..][0] == all[n]
    ensures n == |all| ==> all[n..] == []
  {
  }

  lemma SendSent(w: World, s: State)
    requires Can(w, s, SendOne(true)) && SentInv(w, s)
    ensures SentInv(w, Do(w, s, SendOne(true)))
  {
    SendDelta(w, s);
    OneMoreSent(w, s, Do(w, s, SendOne(true)));
  }

  lemma NothingSent(w: World, s: State, step: Step)
    requires Can(w, s, step) && !(step == Commit(true) && s.writer.isNew) && !step.Keep? && step != SendOne(true)
    ensures var s' := Do(w, s, step);
      && s'.sent == s.sent && s'.committed == s.committed && s'.published == s.published
      && (s'.writer.Keeping? || s'.writer.Sending? ==> s'.writer == s.writer)
  {
    hide Conflict;
    hide KeyOf;
    hide RowFor;
    hide ResolveRecomputeRequests;
    match step {
      case WritePhoto(_, _) => {}
      case Refuse(_) => {}
      case Accept(_) => {}
      case Take => {}
      case Begin(_) => {}
      case Insert(_) => {}
      case Commit(_) => {}
      case Keep => {}
      case SendOne(_) => {}
      case SendDone => {}
      case Reply => {}
      case Crash => {}
    }
  }

  lemma SentStep(w: World, s: State, step: Step)
    requires SentInv(w, s) && Can(w, s, step)
    ensures SentInv(w, Do(w, s, step))
  {
    if step == Commit(true) && s.writer.isNew {
      CommitSent(w, s);
    } else if step.Keep? {
      KeepSent(w, s);
    } else if step == SendOne(true) {
      SendSent(w, s);
    } else {
      NothingSent(w, s, step);
      hide Do;
      hide Flat;
      hide ResolveRecomputeRequests;
    }
  }

  lemma OnceStep(w: World, s: State, step: Step)
    requires PhaseInv(s) && OnceInv(s) && Can(w, s, step)
    ensures OnceInv(Do(w, s, step))
  {
    var s' := Do(w, s, step);
    forall c | c in s.committed ensures ByInserted(s', c) { InsertedStays(w, s, step, c); }
    CommittedDelta(w, s, step);
    if step == Commit(true) && s.writer.isNew {
      PendingIsNotInserted(s, s.writer.call);
      assert ByInserted(s', s.writer.call);
    }
    hide Do;
    hide Can;
    hide ByInserted;
    hide PhaseInv;
  }

  lemma CommittedDelta(w: World, s: State, step: Step)
    requires Can(w, s, step)
    ensures var s' := Do(w, s, step);
      && s'.committed == (if step == Commit(true) && s.writer.isNew then s.committed + [s.writer.call] else s.committed)
      && (s.receiverLost ==> s'.receiverLost)
  {
    hide Conflict;
    hide RowFor;
    hide KeyOf;
    hide ResolveRecomputeRequests;
    match step {
      case WritePhoto(_, _) => {}
      case Refuse(_) => {}
      case Accept(_) => {}
      case Take => {}
      case Begin(_) => {}
      case Insert(_) => {}
      case Commit(_) => {}
      case Keep => {}
      case SendOne(_) => {}
      case SendDone => {}
      case Reply => {}
      case Crash => {}
    }
  }

  lemma CompleteStep(w: World, s: State, step: Step)
    requires PhaseInv(s) && SentInv(w, s) && OnceInv(s) && CompleteInv(w, s) && Can(w, s, step) && SentInv(w, Do(w, s, step))
    ensures CompleteInv(w, Do(w, s, step))
  {
    var s' := Do(w, s, step);
    CommittedDelta(w, s, step);
    forall i | 0 <= i < |s'.committed|
      ensures Current(s', s'.committed[i]) || AllSent(w, s', i) || PhaseOf(s', s'.committed[i]) == Lost
        || (s'.receiverLost && s'.published[i].Some?)
    {
      if i < |s.committed| {
        assert s'.committed[i] == s.committed[i];
        CompleteAt(w, s, step, i);
      }
    }
  }

  lemma PublishedDelta(w: World, s: State, step: Step, i: nat)
    requires |s.committed| == |s.published| && i < |s.committed| && Can(w, s, step)
    ensures var s' := Do(w, s, step);
      && |s'.committed| == |s'.published| && i < |s'.committed| && s'.committed[i] == s.committed[i]
      && (s.published[i].Some? ==> s'.published[i].Some?)
      && (i < |s.committed| - 1 || !(step.Keep? || step == SendOne(true)) ==> s'.published[i] == s.published[i])
  {
    hide Conflict;
    hide KeyOf;
    hide RowFor;
    hide ResolveRecomputeRequests;
    match step {
      case Commit(_) => {}
      case Keep => {}
      case SendOne(_) => {}
      case _ => { SameHistory(w, s, step); hide Do; }
    }
  }

  lemma SameHistory(w: World, s: State, step: Step)
    requires Can(w, s, step) && !step.Commit? && !step.Keep? && !step.SendOne?
    ensures Do(w, s, step).committed == s.committed && Do(w, s, step).published == s.published
  {
    hide Conflict;
    hide KeyOf;
    hide RowFor;
    hide ResolveRecomputeRequests;
    match step {
      case WritePhoto(_, _) => {}
      case Refuse(_) => {}
      case Accept(_) => {}
      case Take => {}
      case Begin(_) => {}
      case Insert(_) => {}
      case Commit(_) => {}
      case Keep => {}
      case SendOne(_) => {}
      case SendDone => {}
      case Reply => {}
      case Crash => {}
    }
  }

  lemma CurrentDelta(w: World, s: State, step: Step, c: Call)
    requires PhaseInv(s) && Can(w, s, step)
    ensures Current(s, c) && !Current(Do(w, s, step), c) ==>
      step.Crash? || step.SendDone? || (step == SendOne(false) && Do(w, s, step).receiverLost)
    ensures step.Keep? || step == SendOne(true) ==> Current(Do(w, s, step), s.writer.call)
    ensures Current(s, c) ==> PhaseOf(s, c).Working?
  {
    hide Conflict;
    hide KeyOf;
    hide RowFor;
    hide ResolveRecomputeRequests;
  }

  lemma CompleteAt(w: World, s: State, step: Step, i: nat)
    requires PhaseInv(s) && SentInv(w, s) && OnceInv(s) && Can(w, s, step) && i < |s.committed|
    requires Current(s, s.committed[i]) || AllSent(w, s, i) || PhaseOf(s, s.committed[i]) == Lost || (s.receiverLost && s.published[i].Some?)
    ensures var s' := Do(w, s, step);
      |s'.committed| == |s'.published| && i < |s'.committed| && s'.committed[i] == s.committed[i]
      && (Current(s', s.committed[i]) || AllSent(w, s', i) || PhaseOf(s', s.committed[i]) == Lost
          || (s'.receiverLost && s'.published[i].Some?))
  {
    var c := s.committed[i];
    PublishedDelta(w, s, step, i);
    CurrentDelta(w, s, step, c);
    PhaseDelta(w, s, step, c);
    CommittedDelta(w, s, step);
    assert ByInserted(s, c);
    if Current(s, c) {
      assert i == |s.committed| - 1;
      if step.SendDone? { assert AllSent(w, s, i); }
    }
    assert PhaseOf(s, c) == Lost ==> c != Actor(s, step) || step.Crash? by { LostIsIdle(w, s, step, c); }
    hide Do;
    hide Flat;
    hide ResolveRecomputeRequests;
  }

  lemma LostIsIdle(w: World, s: State, step: Step, c: Call)
    requires PhaseInv(s) && Can(w, s, step)
    ensures PhaseOf(s, c) == Lost ==> c != Actor(s, step) || step.Crash?
  {
  }

  // ------------------------------------------------------------------ whole runs

  ghost predicate IngestInv(w: World, s: State) {
    && PhaseInv(s) && GuardInv(w, s) && RowInv(w, s) && FileInv(w, s) && OutcomeInv(w, s) && UniqueInv(s)
    && SentInv(w, s) && OnceInv(s) && CompleteInv(w, s)
  }

  lemma IngestStep(w: World, s: State, step: Step)
    requires IngestInv(w, s) && Can(w, s, step)
    ensures IngestInv(w, Do(w, s, step))
  {
    assert WriterInv(w, s);
    hide Do;
    hide Can;
    hide PhaseInv;
    hide GuardInv;
    hide RowInv;
    hide FileInv;
    hide OutcomeInv;
    hide UniqueInv;
    hide SentInv;
    hide OnceInv;
    hide CompleteInv;
    PhaseStep(w, s, step);
    GuardStep(w, s, step);
    RowStep(w, s, step);
    FileStep(w, s, step);
    OutcomeStep(w, s, step);
    UniqueStep(w, s, step);
    SentStep(w, s, step);
    OnceStep(w, s, step);
    CompleteStep(w, s, step);
  }

  ghost predicate IsRun(w: World, states: seq<State>, steps: seq<Step>) {
    && |states| == |steps| + 1 && Init(states[0])
    && forall i :: 0 <= i < |steps| ==> Can(w, states[i], steps[i]) && states[i + 1] == Do(w, states[i], steps[i])
  }

  lemma {:induction false} RunInv(w: World, states: seq<State>, steps: seq<Step>, n: nat)
    requires IsRun(w, states, steps) && n < |states|
    ensures IngestInv(w, states[n])
  {
    hide Do;
    hide Can;
    if n > 0 {
      RunInv(w, states, steps, n - 1);
      IngestStep(w, states[n - 1], steps[n - 1]);
    }
  }

  /** In every reachable state, crashes included: a committed row that names a photo has it on
      disk, under the path of the event and written by the call that committed the row. */
  lemma CommittedRowHasItsFile(w: World, states: seq<State>, steps: seq<Step>, n: nat, id: EventId)
    requires IsRun(w, states, steps) && n < |states| && id in states[n].rows
    ensures var row := states[n].rows[id];
      && w.event(row.owner).id == id && row.path.Some? == w.event(row.owner).photo.Some?
      && (row.path.Some? ==> row.path.value == Path(w.utcDate(w.event(row.owner).capturedAt), id)
                             && row.path.value in states[n].files && states[n].files[row.path.value] == row.owner)
  {
    RunInv(w, states, steps, n);
    assert RowAt(w, states[n], id);
  }

  /** A call that has returned anything but `Inserted` left neither a file nor a row. */
  lemma NoFileWithoutRow(w: World, states: seq<State>, steps: seq<Step>, n: nat, c: Call)
    requires IsRun(w, states, steps) && n < |states|
    requires PhaseOf(states[n], c) in {Done(Deduplicated), Done(Error)}
    ensures forall p :: p in states[n].files ==> states[n].files[p] != c
    ensures forall id :: id in states[n].rows ==> states[n].rows[id].owner != c
  {
    RunInv(w, states, steps, n);
    var s := states[n];
    hide IsRun;
    forall id | id in s.rows ensures s.rows[id].owner != c {
      assert RowAt(w, s, id) && ByInserted(s, s.rows[id].owner);
    }
    forall p | p in s.files ensures s.files[p] != c {
      assert FileAt(w, s, p) && GuardAt(w, s, s.files[p]);
    }
  }

  /** With no call in progress and none lost to a crash, the files are exactly those the rows name. */
  lemma FilesAgreeWithRows(w: World, states: seq<State>, steps: seq<Step>, n: nat, p: Path)
    requires IsRun(w, states, steps) && n < |states|
    requires forall c: Call :: PhaseOf(states[n], c).New? || PhaseOf(states[n], c).Done?
    ensures p in states[n].files <==> exists id :: id in states[n].rows && states[n].rows[id].path == Some(p)
  {
    RunInv(w, states, steps, n);
    var s := states[n];
    hide IsRun;
    if p in s.files {
      var c := s.files[p];
      assert FileAt(w, s, p) && GuardAt(w, s, c);
      assert PhaseOf(s, c).New? || PhaseOf(s, c).Done?;
      var id :| id in s.rows && s.rows[id].owner == c;
      assert RowAt(w, s, id);
    }
    if id :| id in s.rows && s.rows[id].path == Some(p) { assert RowAt(w, s, id); }
  }

  /** There is a row of the same event, or one whose event records the same access. */
  ghost predicate KnownAlready(w: World, rows: map<EventId, Row>, e: NewEvent) {
    e.id in rows || exists id :: id in rows && SameAccess(w.event(rows[id].owner), e)
  }

  /** Every row is that of its owner's event. */
  ghost predicate RowsFit(w: World, rows: map<EventId, Row>) {
    forall id :: id in rows ==> rows[id] == RowFor(w, rows[id].owner) && w.event(rows[id].owner).id == id
  }

  lemma ConflictMeans(w: World, rows: map<EventId, Row>, e: NewEvent)
    requires RowsFit(w, rows)
    ensures Conflict(rows, e) <==> KnownAlready(w, rows, e)
  {
    forall id | id in rows ensures KeyOf(e).Some? && rows[id].key == KeyOf(e) <==> SameAccess(w.event(rows[id].owner), e) {
      KeysCollideExactly(w.event(rows[id].owner), e);
    }
    hide KeyOf;
    hide SameAccess;
  }

  /** In the columns: what is deduplicated was known already, and no two rows record the same access. */
  lemma DeduplicatedIsKnown(w: World, states: seq<State>, steps: seq<Step>, n: nat)
    requires IsRun(w, states, steps) && n < |states|
    ensures forall c: Call :: PhaseOf(states[n], c) == Done(Deduplicated) ==> KnownAlready(w, states[n].rows, w.event(c))
    ensures forall i, j :: i in states[n].rows && j in states[n].rows && i != j ==>
      !SameAccess(w.event(states[n].rows[i].owner), w.event(states[n].rows[j].owner))
  {
    OutcomesAreTrue(w, states, steps, n);
    RowsOfRun(w, states, steps, n);
    hide *;
    var rows := states[n].rows;
    forall c: Call | PhaseOf(states[n], c) == Done(Deduplicated) ensures KnownAlready(w, rows, w.event(c)) {
      ConflictMeans(w, rows, w.event(c));
    }
    forall i, j | i in rows && j in rows && i != j ensures !SameAccess(w.event(rows[i].owner), w.event(rows[j].owner)) {
      DistinctKeys(w, states[n], i, j);
    }
  }

  lemma DistinctKeys(w: World, s: State, i: EventId, j: EventId)
    requires UniqueInv(s) && RowsFit(w, s.rows) && i in s.rows && j in s.rows && i != j
    ensures !SameAccess(w.event(s.rows[i].owner), w.event(s.rows[j].owner))
  {
    KeysCollideExactly(w.event(s.rows[i].owner), w.event(s.rows[j].owner));
    hide KeyOf;
    hide SameAccess;
  }

  lemma RowsOfRun(w: World, states: seq<State>, steps: seq<Step>, n: nat)
    requires IsRun(w, states, steps) && n < |states|
    ensures RowsFit(w, states[n].rows)
  {
    RunInv(w, states, steps, n);
    hide IsRun;
    forall id | id in states[n].rows
      ensures states[n].rows[id] == RowFor(w, states[n].rows[id].owner) && w.event(states[n].rows[id].owner).id == id
    {
      assert RowAt(w, states[n], id);
    }
  }

  /** Rows of one employee, device and direction never share a bucket; `Inserted` means a row of
      one's own, `Deduplicated` that a row with the same id or key was there. */
  lemma OutcomesAreTrue(w: World, states: seq<State>, steps: seq<Step>, n: nat)
    requires IsRun(w, states, steps) && n < |states|
    ensures UniqueInv(states[n])
    ensures forall c: Call :: PhaseOf(states[n], c) == Done(Inserted) ==> HasRow(states[n], c)
    ensures forall c: Call :: PhaseOf(states[n], c) == Done(Deduplicated) ==> Conflict(states[n].rows, w.event(c))
  {
    RunInv(w, states, steps, n);
    forall c: Call
      ensures PhaseOf(states[n], c) == Done(Inserted) ==> HasRow(states[n], c)
      ensures PhaseOf(states[n], c) == Done(Deduplicated) ==> Conflict(states[n].rows, w.event(c))
    {
      assert DoneAt(w, states[n], c);
    }
  }

  ghost predicate OwnersCommitted(s: State) { forall id :: id in s.rows ==> s.rows[id].owner in s.committed }

  lemma OwnersStep(w: World, s: State, step: Step)
    requires OwnersCommitted(s) && Can(w, s, step)
    ensures OwnersCommitted(Do(w, s, step))
  {
    RowsMove(w, s, step);
    var s' := Do(w, s, step);
    hide Do;
    hide Can;
    hide RowFor;
    if s'.rows != s.rows {
      var c := s.writer.call;
      assert s'.committed[|s.committed|] == c;
      forall id | id in s'.rows ensures s'.rows[id].owner in s'.committed {
        assert id != w.event(c).id ==> s.rows[id].owner in s.committed;
      }
    }
  }

  lemma RowsMove(w: World, s: State, step: Step)
    requires Can(w, s, step)
    ensures var s' := Do(w, s, step);
      if step.Commit? && step.ok && s.writer.isNew then
        && s'.rows == s.rows[w.event(s.writer.call).id := RowFor(w, s.writer.call)]
        && s'.committed == s.committed + [s.writer.call] && RowFor(w, s.writer.call).owner == s.writer.call
      else s'.rows == s.rows && s'.committed == s.committed
  {
    hide KeyOf;
    hide PathOf;
    hide Conflict;
    hide ResolveRecomputeRequests;
    match step {
      case WritePhoto(_, _) => {}
      case Refuse(_) => {}
      case Accept(_) => {}
      case Take => {}
      case Begin(_) => {}
      case Insert(_) => {}
      case Commit(_) => {}
      case Keep => {}
      case SendOne(_) => {}
      case SendDone => {}
      case Reply => {}
      case Crash => {}
    }
  }

  lemma {:induction false} RunOwners(w: World, states: seq<State>, steps: seq<Step>, n: nat)
    requires IsRun(w, states, steps) && n < |states|
    ensures OwnersCommitted(states[n])
  {
    hide Do;
    hide Can;
    if n > 0 {
      RunOwners(w, states, steps, n - 1);
      OwnersStep(w, states[n - 1], steps[n - 1]);
    }
  }

  /** What was sent for one call, in order. */
  function SentFor(sent: seq<(Call, Request)>, c: Call): seq<Request> {
    if sent == [] then [] else
    var last := sent[|sent| - 1];
    SentFor(sent[..|sent| - 1], c) + (if last.0 == c then [last.1] else [])
  }

  lemma {:induction false} SentForSum(a: seq<(Call, Request)>, b: seq<(Call, Request)>, c: Call)
    ensures SentFor(a + b, c) == SentFor(a, c) + SentFor(b, c)
    decreases |b|
  {
    if b == [] {
      assert a + b == a;
    } else {
      var n := |b| - 1;
      SentForSum(a, b[..n], c);
      assert (a + b)[..|a| + n] == a + b[..n];
    }
  }

  lemma {:induction false} SentForPrefix(w: World, d: Call, n: nat, c: Call)
    requires n <= |ResolveRecomputeRequests(w, d)|
    ensures SentFor(Prefix(w, d, n), c) == if c == d then ResolveRecomputeRequests(w, d)[..n] else []
    decreases n
  {
    hide ResolveRecomputeRequests;
    var all := ResolveRecomputeRequests(w, d);
    if n > 0 {
      SentForPrefix(w, d, n - 1, c);
      assert Prefix(w, d, n)[..n - 1] == Prefix(w, d, n - 1);
      assert all[..n] == all[..n - 1] + [all[n - 1]];
    }
  }

  /** How many of its requests a commit sent. */
  function SentCount(w: World, c: Call, published: Option<nat>): (n: nat)
    ensures n <= |ResolveRecomputeRequests(w, c)|
  {
    if published.None? then 0
    else if published.value <= |ResolveRecomputeRequests(w, c)| then published.value else |ResolveRecomputeRequests(w, c)|
  }

  lemma {:induction false} SentForFlat(w: World, committed: seq<Call>, published: seq<Option<nat>>, c: Call)
    requires |committed| == |published| && forall i, j :: 0 <= i < j < |committed| ==> committed[i] != committed[j]
    ensures c !in committed ==> SentFor(Flat(w, committed, published), c) == []
    ensures forall i :: 0 <= i < |committed| && committed[i] == c ==>
      SentFor(Flat(w, committed, published), c) == ResolveRecomputeRequests(w, c)[..SentCount(w, c, published[i])]
    decreases |committed|
  {
    hide ResolveRecomputeRequests;
    hide SentFor;
    if committed != [] {
      var n := |committed| - 1;
      var d, sent := committed[n], SentCount(w, committed[n], published[n]);
      SentForFlat(w, committed[..n], published[..n], c);
      FlatSplits(w, committed, published);
      SentForSum(Flat(w, committed[..n], published[..n]), Prefix(w, d, sent), c);
      SentForPrefix(w, d, sent, c);
      hide Flat;
      hide Prefix;
      hide SentCount;
      assert c == d ==> c !in committed[..n];
    } else {
      assert SentFor([], c) == [] by { SentForNothing(c); }
    }
  }

  lemma SentForNothing(c: Call)
    ensures SentFor([], c) == []
  {
  }

  lemma FlatSplits(w: World, committed: seq<Call>, published: seq<Option<nat>>)
    requires |committed| == |published| > 0
    ensures var n := |committed| - 1;
      Flat(w, committed, published)
      == Flat(w, committed[..n], published[..n]) + Prefix(w, committed[n], SentCount(w, committed[n], published[n]))
  {
    hide ResolveRecomputeRequests;
    var n := |committed| - 1;
    if published[n].Some? {
      assert Prefix(w, committed[n], SentCount(w, committed[n], published[n])) == Prefix(w, committed[n], published[n].value);
    } else {
      assert Prefix(w, committed[n], 0) == [];
    }
  }

  /** Recompute requests come in commit order, for each inserting call a prefix of its own, none
      twice; all of them by the time the writer is through with the call, unless the receiver was
      gone or a crash came in between; and none for any other call. */
  lemma RequestsFollowCommits(w: World, states: seq<State>, steps: seq<Step>, n: nat)
    requires IsRun(w, states, steps) && n < |states|
    ensures var s := states[n];
      && |s.committed| == |s.published| && s.sent == Flat(w, s.committed, s.published)
      && (forall i, j :: 0 <= i < j < |s.committed| ==> s.committed[i] != s.committed[j])
    ensures var s := states[n];
      forall c: Call ::
        && (c in s.committed ==> SentFor(s.sent, c) <= ResolveRecomputeRequests(w, c))
        && (c !in s.committed ==> SentFor(s.sent, c) == [])
        && (PhaseOf(s, c) == Done(Inserted) ==> c in s.committed)
        && (PhaseOf(s, c) == Done(Inserted) && !s.receiverLost ==> SentFor(s.sent, c) == ResolveRecomputeRequests(w, c))
  {
    RunInv(w, states, steps, n);
    RunOwners(w, states, steps, n);
    OutcomesAreTrue(w, states, steps, n);
    var s := states[n];
    hide IsRun;
    hide Flat;
    hide SentFor;
    hide ResolveRecomputeRequests;
    forall c: Call ensures
        && (c in s.committed ==> SentFor(s.sent, c) <= ResolveRecomputeRequests(w, c))
        && (c !in s.committed ==> SentFor(s.sent, c) == [])
        && (PhaseOf(s, c) == Done(Inserted) ==> c in s.committed)
        && (PhaseOf(s, c) == Done(Inserted) && !s.receiverLost ==> SentFor(s.sent, c) == ResolveRecomputeRequests(w, c))
    {
      SentForFlat(w, s.committed, s.published, c);
      if c in s.committed {
        var i :| 0 <= i < |s.committed| && s.committed[i] == c;
        var all := ResolveRecomputeRequests(w, c);
        assert all[..|all|] == all;
        assert PhaseOf(s, c) == Done(Inserted) ==> !Current(s, c);
      }
    }
  }
}
