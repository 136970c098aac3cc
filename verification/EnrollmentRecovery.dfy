/**
 Startup recovery of the durable checkpoints. Each checkpoint, taken in key order, is
 turned into one or two queued transactions; a crash may fall between any two of them.
 `Recovered` says, row by row, what recovery is for; the lemmas show that the sequential
 recovery computes it from any resolvable database, and that a crash anywhere inside
 recovery does not change it.
 */
module EnrollmentRecovery {
  import opened Options
  import opened EnrollmentTables

  datatype Tx =
    | CompletePush(push: PushId)
    | FailPush(push: PushId)
    | FinalizeEnrollment(enrollment: EnrollmentId)
    | CompleteBackfill(device: DeviceId, face: FaceId)
    | MarkManual(key: OperationKey)
    | CompletePurge(mapping: MappingId)
    | DeferPurge(mapping: MappingId)

  /** Identifiers drawn for mapping rows that do not exist yet. */
  type NewIds = (DeviceId, FaceId) -> MappingId

  // ------------------------------------------------------------- well-formedness

  ghost predicate UniqueFaces(db: Db) {
    forall a, b :: (a in db.employees && b in db.employees && db.employees[a].face.Some?
                    && db.employees[a].face == db.employees[b].face) ==> a == b
  }

  ghost predicate PushResolvable(db: Db, push: PushId) {
    && push in db.pushes
    && db.pushes[push].enrollment in db.enrollments
    && db.enrollments[db.pushes[push].enrollment].employee in db.employees
    && db.employees[db.enrollments[db.pushes[push].enrollment].employee].face.Some?
  }

  ghost predicate KeyResolvable(db: Db, key: OperationKey) {
    match key
    case EnrollmentPush(p) => PushResolvable(db, p)
    case BackfillPush(d, f) =>
      d in db.devices && exists e :: e in db.employees && db.employees[e].face == Some(f) && db.employees[e].active
    case PurgeDelete(m) => exists t :: t in db.mappings && db.mappings[t].id == m
  }

  /** Every checkpoint names rows that exist, so that recovery has no reason to bail out. */
  ghost predicate Resolvable(db: Db) {
    UniqueFaces(db) && forall k :: k in db.checkpoints ==> KeyResolvable(db, k)
  }

  ghost function EmployeeOf(db: Db, push: PushId): EmployeeId
    requires PushResolvable(db, push)
  {
    db.enrollments[db.pushes[push].enrollment].employee
  }

  ghost function FaceOf(db: Db, push: PushId): FaceId
    requires PushResolvable(db, push)
  {
    db.employees[EmployeeOf(db, push)].face.value
  }

  ghost predicate HasOwner(employees: Employees, face: FaceId) {
    exists e :: e in employees && employees[e].face == Some(face)
  }

  /** The employee a face identifier belongs to; faces are unique, so there is one at most. */
  ghost function OwnerOf(employees: Employees, face: FaceId): EmployeeId {
    if HasOwner(employees, face) then (var e :| e in employees && employees[e].face == Some(face); e) else 0
  }

  // ----------------------------------------------------------- what recovery does

  ghost function ApplyTx(db: Db, tx: Tx, ids: NewIds): Db {
    match tx
    case CompletePush(p) =>
      if !PushResolvable(db, p) then db else
      var d, f := db.pushes[p].device, FaceOf(db, p);
      RecoveredSuccess(db, db.pushes[p].enrollment, p, d, f, EmployeeOf(db, p), ids(d, f))
    case FailPush(p) => RecoveryFailureRecorded(db, p, true)
    case FinalizeEnrollment(e) => Finalized(db, e)
    case CompleteBackfill(d, f) =>
      if !HasOwner(db.employees, f) then db else BackfillCompleted(db, d, f, OwnerOf(db.employees, f), ids(d, f))
    case MarkManual(k) => OperationMarked(db, k, Manual)
    case CompletePurge(m) => PurgeCompleted(db, m)
    case DeferPurge(m) => PurgeDeferred(db, m)
  }

  ghost predicate Applied(db: Db, key: OperationKey) {
    key in db.checkpoints && db.checkpoints[key] == DeviceApplied
  }

  ghost function FirstTx(db: Db, key: OperationKey): Tx {
    match key
    case EnrollmentPush(p) => if Applied(db, key) then CompletePush(p) else FailPush(p)
    case BackfillPush(d, f) => if Applied(db, key) then CompleteBackfill(d, f) else MarkManual(key)
    case PurgeDelete(m) => if Applied(db, key) then CompletePurge(m) else MarkManual(key)
  }

  ghost function SecondTx(db: Db, key: OperationKey): Option<Tx> {
    if Applied(db, key) then None else
    match key
    case EnrollmentPush(p) => if p in db.pushes then Some(FinalizeEnrollment(db.pushes[p].enrollment)) else None
    case BackfillPush(_, _) => None
    case PurgeDelete(m) => Some(DeferPurge(m))
  }

  ghost function ProcessKey(db: Db, key: OperationKey, ids: NewIds): Db {
    var first := ApplyTx(db, FirstTx(db, key), ids);
    match SecondTx(db, key)
    case None => first
    case Some(tx) => ApplyTx(first, tx, ids)
  }

  ghost function ProcessKeys(db: Db, todo: seq<OperationKey>, ids: NewIds): Db
    decreases |todo|
  {
    if todo == [] then db else ProcessKeys(ProcessKey(db, todo[0], ids), todo[1..], ids)
  }

  /** The database left behind by a crash after `txs` of recovery's transactions. */
  ghost function Interrupted(db: Db, todo: seq<OperationKey>, ids: NewIds, txs: nat): Db
    decreases |todo|
  {
    if todo == [] || txs == 0 then db
    else if txs == 1 && SecondTx(db, todo[0]).Some? then ApplyTx(db, FirstTx(db, todo[0]), ids)
    else Interrupted(ProcessKey(db, todo[0], ids), todo[1..], ids,
                     txs - if SecondTx(db, todo[0]).Some? then 2 else 1)
  }

  function KindRank(key: OperationKey): nat {
    match key case BackfillPush(_, _) => 0 case EnrollmentPush(_) => 1 case PurgeDelete(_) => 2
  }

  /** The rows `ORDER BY operation_key` returns: every checkpoint once, and the three kinds
      in the order of their prefixes `backfill:`, `enrollment:`, `purge:`. */
  ghost predicate Enumerates(db: Db, todo: seq<OperationKey>) {
    && (forall k :: k in db.checkpoints <==> k in todo)
    && OrderedKeys(todo)
  }

  ghost predicate OrderedKeys(todo: seq<OperationKey>) {
    forall i, j :: 0 <= i < j < |todo| ==> todo[i] != todo[j] && KindRank(todo[i]) <= KindRank(todo[j])
  }

  // ------------------------------------------------------- what recovery is for

  ghost function PushesRecovered(db: Db): Pushes {
    map p | p in db.pushes ::
      if EnrollmentPush(p) !in db.checkpoints then db.pushes[p]
      else db.pushes[p].(status := if Applied(db, EnrollmentPush(p)) then Success else Failed)
  }

  ghost function CheckpointsRecovered(db: Db): Checkpoints {
    map k | k in db.checkpoints && !Applied(db, k) :: Manual
  }

  ghost predicate Touched(db: Db, enrollment: EnrollmentId) {
    exists p :: p in db.pushes && EnrollmentPush(p) in db.checkpoints && db.pushes[p].enrollment == enrollment
  }

  ghost function EnrollmentsRecovered(db: Db): map<EnrollmentId, EnrollmentRow> {
    map e | e in db.enrollments ::
      if Touched(db, e) && Settled(PushesRecovered(db), e)
      then db.enrollments[e].(status := VerdictOf(PushesRecovered(db), e))
      else db.enrollments[e]
  }

  ghost function TargetOf(db: Db, key: OperationKey): (DeviceId, FaceId)
    requires !key.PurgeDelete? && KeyResolvable(db, key)
  {
    match key
    case EnrollmentPush(p) => (db.pushes[p].device, FaceOf(db, p))
    case BackfillPush(d, f) => (d, f)
  }

  /** The device templates that a confirmed device call has put in place. */
  ghost function Confirmed(db: Db): set<(DeviceId, FaceId)>
    requires Resolvable(db)
  {
    set k | k in db.checkpoints && !k.PurgeDelete? && Applied(db, k) :: TargetOf(db, k)
  }

  /** The mapping rows once every confirmed template is recorded as active ... */
  ghost function Overlaid(mappings: Mappings, confirmed: set<(DeviceId, FaceId)>,
                          employees: Employees, ids: NewIds): Mappings {
    map t | t in mappings.Keys + confirmed ::
      if t in confirmed
      then MappingRow(if t in mappings then mappings[t].id else ids(t.0, t.1), OwnerOf(employees, t.1), Active)
      else mappings[t]
  }

  /** ... and every purge is carried out or deferred. */
  ghost function Purged(mappings: Mappings, checkpoints: Checkpoints): Mappings {
    map t | t in mappings
         && (PurgeDelete(mappings[t].id) in checkpoints ==> checkpoints[PurgeDelete(mappings[t].id)] != DeviceApplied) ::
      if PurgeDelete(mappings[t].id) in checkpoints then mappings[t].(state := PendingDelete) else mappings[t]
  }

  ghost function MappingsRecovered(db: Db, ids: NewIds): Mappings
    requires Resolvable(db)
  {
    Purged(Overlaid(db.mappings, Confirmed(db), db.employees, ids), db.checkpoints)
  }

  ghost function Recovered(db: Db, ids: NewIds): Db
    requires Resolvable(db)
  {
    Db(PushesRecovered(db), CheckpointsRecovered(db), MappingsRecovered(db, ids),
       EnrollmentsRecovered(db), db.employees, db.devices)
  }

  // ------------------------------------------- one transaction preserves the goal

  /** The transactions recovery may issue in a database: each is justified by a checkpoint,
      and purges wait until no confirmed template is left to record. */
  ghost predicate Due(db: Db, tx: Tx)
    requires Resolvable(db)
  {
    match tx
    case CompletePush(p) => Applied(db, EnrollmentPush(p))
    case FailPush(p) => EnrollmentPush(p) in db.checkpoints && !Applied(db, EnrollmentPush(p))
    case FinalizeEnrollment(e) =>
      exists p :: EnrollmentPush(p) in db.checkpoints && !Applied(db, EnrollmentPush(p)) && db.pushes[p].enrollment == e
    case CompleteBackfill(d, f) => Applied(db, BackfillPush(d, f))
    case MarkManual(k) => k in db.checkpoints && !Applied(db, k)
    case CompletePurge(m) => Applied(db, PurgeDelete(m)) && Confirmed(db) == {}
    case DeferPurge(m) =>
      PurgeDelete(m) in db.checkpoints && !Applied(db, PurgeDelete(m)) && Confirmed(db) == {}
  }

  /** A verdict depends on the pushes of its own enrollment only. */
  lemma VerdictCongruence(a: Pushes, b: Pushes, e: EnrollmentId)
    requires forall p :: p in a && a[p].enrollment == e ==> p in b && b[p] == a[p]
    requires forall p :: p in b && b[p].enrollment == e ==> p in a && b[p] == a[p]
    ensures Settled(a, e) == Settled(b, e) && VerdictOf(a, e) == VerdictOf(b, e)
  {
    forall s: PushStatus ensures CountStatus(a, e, s) == CountStatus(b, e, s) {
      assert (set p | p in a && a[p].enrollment == e && a[p].status == s)
          == (set p | p in b && b[p].enrollment == e && b[p].status == s);
    }
    assert PushesOf(a, e) == PushesOf(b, e);
  }

  /** Recovery only ever makes pushes terminal. */
  lemma RecoveredStaysSettled(db: Db, e: EnrollmentId)
    ensures Settled(db.pushes, e) ==> Settled(PushesRecovered(db), e)
    ensures !Touched(db, e) ==>
      Settled(db.pushes, e) == Settled(PushesRecovered(db), e) && VerdictOf(db.pushes, e) == VerdictOf(PushesRecovered(db), e)
  {
    SettledMeaning(db.pushes, e);
    SettledMeaning(PushesRecovered(db), e);
    assert PushesOf(PushesRecovered(db), e) == PushesOf(db.pushes, e);
    if !Touched(db, e) { VerdictCongruence(db.pushes, PushesRecovered(db), e); }
  }

  /** Two databases that differ in recovery's own columns only. */
  ghost predicate SameStatics(db: Db, db': Db) {
    && db'.employees == db.employees && db'.devices == db.devices
    && db'.enrollments.Keys == db.enrollments.Keys && db'.pushes.Keys == db.pushes.Keys
    && (forall e :: e in db.enrollments ==> db'.enrollments[e].employee == db.enrollments[e].employee)
    && (forall p :: p in db.pushes ==>
          db'.pushes[p].enrollment == db.pushes[p].enrollment && db'.pushes[p].device == db.pushes[p].device)
  }

  lemma StaticsKeepKey(db: Db, db': Db, key: OperationKey)
    requires SameStatics(db, db') && KeyResolvable(db, key)
    requires key.PurgeDelete? ==>
      forall t :: t in db.mappings && db.mappings[t].id == key.mapping ==> t in db'.mappings && db'.mappings[t].id == key.mapping
    ensures KeyResolvable(db', key)
    ensures !key.PurgeDelete? ==> TargetOf(db', key) == TargetOf(db, key)
  {
    if key.PurgeDelete? {
      var t :| t in db.mappings && db.mappings[t].id == key.mapping;
      assert t in db'.mappings;
    }
  }

  lemma OverlayStep(mappings: Mappings, confirmed: set<(DeviceId, FaceId)>, rest: set<(DeviceId, FaceId)>,
                    t: (DeviceId, FaceId), employees: Employees, ids: NewIds)
    requires confirmed == rest + {t}
    ensures Overlaid(Upserted(mappings, t.0, t.1, OwnerOf(employees, t.1), ids(t.0, t.1)), rest, employees, ids)
         == Overlaid(mappings, confirmed, employees, ids)
  {
  }

  lemma ConfirmedStep(db: Db, db': Db, key: OperationKey)
    requires Resolvable(db) && Resolvable(db') && SameStatics(db, db')
    requires Applied(db, key) && !key.PurgeDelete? && db'.checkpoints == db.checkpoints - {key}
    ensures Confirmed(db) == Confirmed(db') + {TargetOf(db, key)}
  {
    forall k | k in db.checkpoints && !k.PurgeDelete? && k != key
      ensures k in db'.checkpoints && TargetOf(db', k) == TargetOf(db, k)
    {
      StaticsKeepKey(db, db', k);
    }
  }

  lemma PurgedStep(mappings: Mappings, before: Checkpoints, after: Checkpoints, key: OperationKey)
    requires !key.PurgeDelete? && after == before - {key}
    ensures Purged(mappings, after) == Purged(mappings, before)
  {
  }

  lemma PurgedManual(mappings: Mappings, before: Checkpoints, key: OperationKey)
    requires key in before && before[key] != DeviceApplied
    ensures Purged(mappings, before[key := Manual]) == Purged(mappings, before)
  {
  }

  lemma PurgedOnce(mappings: Mappings, before: Checkpoints, m: MappingId)
    requires PurgeDelete(m) in before
    ensures before[PurgeDelete(m)] == DeviceApplied
      ==> Purged(WithoutMapping(mappings, m), before - {PurgeDelete(m)}) == Purged(mappings, before)
    ensures before[PurgeDelete(m)] != DeviceApplied
      ==> Purged(MappingPendingDelete(mappings, m), before) == Purged(mappings, before)
  {
  }

  lemma ResolvableStep(db: Db, db': Db, key: OperationKey)
    requires Resolvable(db) && SameStatics(db, db') && db'.checkpoints.Keys <= db.checkpoints.Keys
    requires forall t | t in db.mappings && PurgeDelete(db.mappings[t].id) in db'.checkpoints ::
      t in db'.mappings && db'.mappings[t].id == db.mappings[t].id
    ensures Resolvable(db')
  {
    forall k | k in db'.checkpoints ensures KeyResolvable(db', k) {
      assert k in db.checkpoints;
      StaticsKeepKey(db, db', k);
    }
  }

  /** Recording a confirmed template that is still to be recorded changes nothing in the end. */
  lemma UpsertKeepsGoal(db: Db, db': Db, key: OperationKey, ids: NewIds)
    requires Resolvable(db) && Applied(db, key) && !key.PurgeDelete? && SameStatics(db, db')
    requires var t := TargetOf(db, key);
      db'.mappings == Upserted(db.mappings, t.0, t.1, OwnerOf(db.employees, t.1), ids(t.0, t.1))
    requires db'.checkpoints == db.checkpoints - {key}
    ensures Resolvable(db') && MappingsRecovered(db', ids) == MappingsRecovered(db, ids)
  {
    var t := TargetOf(db, key);
    ResolvableStep(db, db', key);
    ConfirmedStep(db, db', key);
    OverlayStep(db.mappings, Confirmed(db), Confirmed(db'), t, db.employees, ids);
    PurgedStep(Overlaid(db.mappings, Confirmed(db), db.employees, ids), db.checkpoints, db'.checkpoints, key);
  }

  lemma CompletePushKeepsPushes(db: Db, p: PushId, db': Db)
    requires PushResolvable(db, p) && Applied(db, EnrollmentPush(p))
    requires db'.pushes == WithStatus(db.pushes, p, Success) && db'.checkpoints == db.checkpoints - {EnrollmentPush(p)}
    ensures PushesRecovered(db') == PushesRecovered(db)
    ensures SameStatics(db, db'.(enrollments := db.enrollments, employees := db.employees, devices := db.devices))
    ensures Touched(db, db.pushes[p].enrollment)
  {
  }

  lemma EnrollmentRecoveredIs(db: Db, e: EnrollmentId)
    requires e in db.enrollments
    ensures EnrollmentsRecovered(db)[e]
      == if Touched(db, e) && Settled(PushesRecovered(db), e)
         then db.enrollments[e].(status := VerdictOf(PushesRecovered(db), e)) else db.enrollments[e]
  {
    hide Touched;
    hide Settled;
    hide VerdictOf;
    hide PushesRecovered;
  }

  lemma FinalizedRow(db: Db, x: EnrollmentId, e: EnrollmentId)
    requires e in db.enrollments
    ensures var db' := Finalized(db, x);
      && e in db'.enrollments && db'.(enrollments := db.enrollments) == db
      && db'.enrollments[e] == if e == x && Settled(db.pushes, x) then db.enrollments[e].(status := VerdictOf(db.pushes, x))
                               else db.enrollments[e]
  {
    hide Settled;
    hide VerdictOf;
  }

  lemma TouchedByOthers(db: Db, db': Db, p: PushId, e: EnrollmentId)
    requires p in db.pushes && db'.checkpoints == db.checkpoints - {EnrollmentPush(p)} && db'.pushes == WithStatus(db.pushes, p, Success)
    ensures e != db.pushes[p].enrollment ==> Touched(db', e) == Touched(db, e)
  {
    if e != db.pushes[p].enrollment && Touched(db, e) {
      var q :| q in db.pushes && EnrollmentPush(q) in db.checkpoints && db.pushes[q].enrollment == e;
      assert q in db'.pushes && EnrollmentPush(q) in db'.checkpoints;
    }
  }

  lemma CompletePushKeepsEnrollment(db: Db, p: PushId, db': Db, e: EnrollmentId)
    requires PushResolvable(db, p) && Applied(db, EnrollmentPush(p)) && e in db.enrollments && p in db.pushes
    requires var done := db.(pushes := WithStatus(db.pushes, p, Success), mappings := db'.mappings,
                             checkpoints := db.checkpoints - {EnrollmentPush(p)});
      db' == Finalized(done, db.pushes[p].enrollment)
    ensures PushesRecovered(db') == PushesRecovered(db) && e in db'.enrollments
    ensures EnrollmentsRecovered(db').Keys == db'.enrollments.Keys && EnrollmentsRecovered(db).Keys == db.enrollments.Keys
    ensures EnrollmentsRecovered(db')[e] == EnrollmentsRecovered(db)[e]
  {
    RecoveredKeys(db);
    RecoveredKeys(db');
    hide *;
    var done := db.(pushes := WithStatus(db.pushes, p, Success), mappings := db'.mappings,
                    checkpoints := db.checkpoints - {EnrollmentPush(p)});
    var x := db.pushes[p].enrollment;
    FinalizedRow(done, x, e);
    CompletePushKeepsPushes(db, p, db');
    RecoveredStaysSettled(db', e);
    TouchedByOthers(db, db', p, e);
    EnrollmentRecoveredIs(db, e);
    EnrollmentRecoveredIs(db', e);
  }

  lemma RecoveredKeys(db: Db)
    ensures EnrollmentsRecovered(db).Keys == db.enrollments.Keys
  {
  }

  lemma CheckpointsStep(db: Db, db': Db, key: OperationKey)
    requires Applied(db, key) && db'.checkpoints == db.checkpoints - {key}
    ensures CheckpointsRecovered(db') == CheckpointsRecovered(db)
  {
  }

  lemma CompletePushEffect(db: Db, p: PushId, ids: NewIds)
    requires Resolvable(db) && Applied(db, EnrollmentPush(p))
    ensures PushResolvable(db, p) && OwnerOf(db.employees, FaceOf(db, p)) == EmployeeOf(db, p)
    ensures var db' := ApplyTx(db, CompletePush(p), ids);
      var t := TargetOf(db, EnrollmentPush(p));
      && SameStatics(db, db')
      && db'.checkpoints == db.checkpoints - {EnrollmentPush(p)}
      && db'.mappings == Upserted(db.mappings, t.0, t.1, OwnerOf(db.employees, t.1), ids(t.0, t.1))
      && db' == Finalized(db.(pushes := WithStatus(db.pushes, p, Success), mappings := db'.mappings,
                              checkpoints := db.checkpoints - {EnrollmentPush(p)}), db.pushes[p].enrollment)
  {
    hide Settled;
    hide VerdictOf;
    assert KeyResolvable(db, EnrollmentPush(p));
  }

  /** The goal is the same when each of its tables is. */
  lemma SameGoal(db: Db, db': Db, ids: NewIds)
    requires Resolvable(db) && Resolvable(db') && SameStatics(db, db')
    requires PushesRecovered(db') == PushesRecovered(db) && CheckpointsRecovered(db') == CheckpointsRecovered(db)
    requires EnrollmentsRecovered(db') == EnrollmentsRecovered(db) && MappingsRecovered(db', ids) == MappingsRecovered(db, ids)
    ensures Recovered(db', ids) == Recovered(db, ids)
  {
    hide PushesRecovered;
    hide CheckpointsRecovered;
    hide EnrollmentsRecovered;
    hide MappingsRecovered;
    hide Resolvable;
  }

  lemma CompletePushKeepsEnrollments(db: Db, p: PushId, ids: NewIds)
    requires Resolvable(db) && Applied(db, EnrollmentPush(p))
    ensures var db' := ApplyTx(db, CompletePush(p), ids);
      PushesRecovered(db') == PushesRecovered(db) && EnrollmentsRecovered(db') == EnrollmentsRecovered(db)
  {
    CompletePushEffect(db, p, ids);
    var db' := ApplyTx(db, CompletePush(p), ids);
    hide ApplyTx;
    hide Settled;
    hide VerdictOf;
    hide Resolvable;
    hide Upserted;
    hide OwnerOf;
    hide Finalized;
    assert db.pushes[p].enrollment in db.enrollments;
    forall e | e in db.enrollments
      ensures PushesRecovered(db') == PushesRecovered(db) && EnrollmentsRecovered(db')[e] == EnrollmentsRecovered(db)[e]
    {
      CompletePushKeepsEnrollment(db, p, db', e);
    }
  }

  lemma CompletePushKeepsGoal(db: Db, p: PushId, ids: NewIds)
    requires Resolvable(db) && Applied(db, EnrollmentPush(p))
    ensures var db' := ApplyTx(db, CompletePush(p), ids);
      SameStatics(db, db') && Resolvable(db') && Recovered(db', ids) == Recovered(db, ids)
  {
    CompletePushEffect(db, p, ids);
    hide *;
    var db' := ApplyTx(db, CompletePush(p), ids);
    CompletePushKeepsEnrollments(db, p, ids);
    CheckpointsStep(db, db', EnrollmentPush(p));
    UpsertKeepsGoal(db, db', EnrollmentPush(p), ids);
    SameGoal(db, db', ids);
  }

  lemma UntouchedPushes(db: Db, db': Db)
    requires db'.pushes == db.pushes && db'.enrollments == db.enrollments
    requires forall p :: EnrollmentPush(p) in db'.checkpoints <==> EnrollmentPush(p) in db.checkpoints
    requires forall p :: Applied(db', EnrollmentPush(p)) == Applied(db, EnrollmentPush(p))
    ensures PushesRecovered(db') == PushesRecovered(db) && EnrollmentsRecovered(db') == EnrollmentsRecovered(db)
  {
    hide Settled;
    hide VerdictOf;
    assert PushesRecovered(db') == PushesRecovered(db);
    forall e ensures Touched(db', e) == Touched(db, e) {}
  }

  lemma CompleteBackfillKeepsGoal(db: Db, d: DeviceId, f: FaceId, ids: NewIds)
    requires Resolvable(db) && Applied(db, BackfillPush(d, f))
    ensures var db' := ApplyTx(db, CompleteBackfill(d, f), ids);
      SameStatics(db, db') && Resolvable(db') && Recovered(db', ids) == Recovered(db, ids)
  {
    hide Settled;
    hide VerdictOf;
    var key := BackfillPush(d, f);
    var db' := ApplyTx(db, CompleteBackfill(d, f), ids);
    assert KeyResolvable(db, key);
    assert db' == BackfillCompleted(db, d, f, OwnerOf(db.employees, f), ids(d, f));
    CheckpointsStep(db, db', key);
    UntouchedPushes(db, db');
    UpsertKeepsGoal(db, db', key, ids);
  }

  /** Nothing confirmed is added or lost when checkpoints keep their keys and their confirmations. */
  lemma SameConfirmed(db: Db, db': Db)
    requires Resolvable(db) && SameStatics(db, db') && Resolvable(db')
    requires forall k: OperationKey | !k.PurgeDelete? :: Applied(db', k) == Applied(db, k)
    ensures Confirmed(db') == Confirmed(db)
  {
    forall k | k in db.checkpoints && !k.PurgeDelete? && Applied(db, k) ensures TargetOf(db', k) == TargetOf(db, k) {
      StaticsKeepKey(db, db', k);
    }
  }

  lemma ManualKeepsPushes(db: Db, key: OperationKey, db': Db)
    requires key in db.checkpoints && !Applied(db, key)
    requires db'.(pushes := db.pushes) == db.(checkpoints := db.checkpoints[key := Manual])
    requires db'.pushes == db.pushes || (key.EnrollmentPush? && db'.pushes == WithStatus(db.pushes, key.push, Failed))
    ensures PushesRecovered(db') == PushesRecovered(db) && CheckpointsRecovered(db') == CheckpointsRecovered(db)
    ensures EnrollmentsRecovered(db') == EnrollmentsRecovered(db)
    ensures SameStatics(db, db') && forall k :: Applied(db', k) == Applied(db, k)
  {
    hide Settled;
    hide VerdictOf;
    assert forall k :: Applied(db', k) == Applied(db, k);
    assert PushesRecovered(db') == PushesRecovered(db);
    assert EnrollmentsRecovered(db') == EnrollmentsRecovered(db) by {
      forall e ensures Touched(db', e) == Touched(db, e) {}
    }
  }

  /** Turning an unconfirmed checkpoint manual, and failing its push, is what recovery wants. */
  lemma ManualKeepsGoal(db: Db, key: OperationKey, db': Db, ids: NewIds)
    requires Resolvable(db) && key in db.checkpoints && !Applied(db, key)
    requires db'.(pushes := db.pushes) == db.(checkpoints := db.checkpoints[key := Manual])
    requires db'.pushes == db.pushes || (key.EnrollmentPush? && db'.pushes == WithStatus(db.pushes, key.push, Failed))
    ensures SameStatics(db, db') && Resolvable(db') && Recovered(db', ids) == Recovered(db, ids)
  {
    ManualKeepsPushes(db, key, db');
    hide Settled;
    hide VerdictOf;
    hide SameStatics;
    hide Resolvable;
    hide PushesRecovered;
    hide CheckpointsRecovered;
    hide EnrollmentsRecovered;
    hide WithStatus;
    ResolvableStep(db, db', key);
    SameConfirmed(db, db');
    PurgedManual(Overlaid(db.mappings, Confirmed(db), db.employees, ids), db.checkpoints, key);
    hide Overlaid;
    hide Purged;
    SameGoal(db, db', ids);
  }

  lemma FinalizeKeepsGoal(db: Db, p: PushId, ids: NewIds)
    requires Resolvable(db) && EnrollmentPush(p) in db.checkpoints && KeyResolvable(db, EnrollmentPush(p))
    ensures var db' := ApplyTx(db, FinalizeEnrollment(db.pushes[p].enrollment), ids);
      SameStatics(db, db') && Resolvable(db') && Recovered(db', ids) == Recovered(db, ids)
  {
    hide Settled;
    hide VerdictOf;
    var e := db.pushes[p].enrollment;
    var db' := ApplyTx(db, FinalizeEnrollment(e), ids);
    assert Touched(db, e);
    RecoveredStaysSettled(db, e);
    assert PushesRecovered(db') == PushesRecovered(db);
    assert CheckpointsRecovered(db') == CheckpointsRecovered(db);
    assert EnrollmentsRecovered(db') == EnrollmentsRecovered(db) by {
      forall x ensures Touched(db', x) == Touched(db, x) {}
    }
    ResolvableStep(db, db', EnrollmentPush(p));
    SameConfirmed(db, db');
  }

  lemma NothingOverlaid(mappings: Mappings, employees: Employees, ids: NewIds)
    ensures Overlaid(mappings, {}, employees, ids) == mappings
  {
  }

  lemma PurgeEffect(db: Db, m: MappingId, db': Db)
    requires Resolvable(db) && PurgeDelete(m) in db.checkpoints
    requires db' == if Applied(db, PurgeDelete(m)) then PurgeCompleted(db, m) else PurgeDeferred(db, m)
    ensures SameStatics(db, db') && Resolvable(db') && CheckpointsRecovered(db') == CheckpointsRecovered(db)
    ensures forall k: OperationKey | !k.PurgeDelete? :: (k in db'.checkpoints <==> k in db.checkpoints) && Applied(db', k) == Applied(db, k)
    ensures Purged(db'.mappings, db'.checkpoints) == Purged(db.mappings, db.checkpoints)
  {
    PurgedOnce(db.mappings, db.checkpoints, m);
    ResolvableStep(db, db', PurgeDelete(m));
    hide Resolvable;
  }

  lemma PurgeKeepsGoal(db: Db, m: MappingId, db': Db, ids: NewIds)
    requires Resolvable(db) && PurgeDelete(m) in db.checkpoints && Confirmed(db) == {}
    requires db' == if Applied(db, PurgeDelete(m)) then PurgeCompleted(db, m) else PurgeDeferred(db, m)
    ensures SameStatics(db, db') && Resolvable(db') && Recovered(db', ids) == Recovered(db, ids)
  {
    assert db'.pushes == db.pushes && db'.enrollments == db.enrollments && db'.employees == db.employees;
    PurgeEffect(db, m, db');
    hide Settled;
    hide VerdictOf;
    hide Resolvable;
    hide Applied;
    hide PurgeCompleted;
    hide PurgeDeferred;
    hide Purged;
    hide Confirmed;
    UntouchedPushes(db, db');
    SameConfirmed(db, db');
    NothingOverlaid(db.mappings, db.employees, ids);
    NothingOverlaid(db'.mappings, db.employees, ids);
    hide PushesRecovered;
    hide EnrollmentsRecovered;
    hide CheckpointsRecovered;
    SameGoal(db, db', ids);
  }

  /** The heart of re-entrancy: no transaction that recovery may issue moves the goal. */
  lemma DueKeepsGoal(db: Db, tx: Tx, ids: NewIds)
    requires Resolvable(db) && Due(db, tx)
    ensures SameStatics(db, ApplyTx(db, tx, ids))
    ensures Resolvable(ApplyTx(db, tx, ids)) && Recovered(ApplyTx(db, tx, ids), ids) == Recovered(db, ids)
  {
    hide Settled;
    hide VerdictOf;
    hide Recovered;
    match tx
    case CompletePush(p) => CompletePushKeepsGoal(db, p, ids);
    case FailPush(p) =>
      assert KeyResolvable(db, EnrollmentPush(p));
      ManualKeepsGoal(db, EnrollmentPush(p), ApplyTx(db, tx, ids), ids);
    case FinalizeEnrollment(e) =>
      var p :| EnrollmentPush(p) in db.checkpoints && !Applied(db, EnrollmentPush(p)) && db.pushes[p].enrollment == e;
      assert KeyResolvable(db, EnrollmentPush(p));
      FinalizeKeepsGoal(db, p, ids);
    case CompleteBackfill(d, f) => CompleteBackfillKeepsGoal(db, d, f, ids);
    case MarkManual(k) => ManualKeepsGoal(db, k, ApplyTx(db, tx, ids), ids);
    case CompletePurge(m) => PurgeKeepsGoal(db, m, ApplyTx(db, tx, ids), ids);
    case DeferPurge(m) => PurgeKeepsGoal(db, m, ApplyTx(db, tx, ids), ids);
  }

  // --------------------------------------------------- whole runs of recovery

  /** A checkpoint that recovery has dealt with for good. */
  ghost predicate Done(db: Db, key: OperationKey) {
    key in db.checkpoints ==>
      && db.checkpoints[key] == Manual
      && match key {
        case EnrollmentPush(p) =>
          && PushResolvable(db, p) && db.pushes[p].status == Failed
          && var e := db.pushes[p].enrollment;
             (Settled(db.pushes, e) ==> db.enrollments[e].status == VerdictOf(db.pushes, e))
        case BackfillPush(_, _) => true
        case PurgeDelete(m) =>
          forall t :: t in db.mappings && db.mappings[t].id == m ==> db.mappings[t].state == PendingDelete
      }
  }

  lemma NothingPurged(mappings: Mappings, checkpoints: Checkpoints)
    requires forall k :: k in checkpoints ==> checkpoints[k] == Manual
    requires forall t :: t in mappings && PurgeDelete(mappings[t].id) in checkpoints ==> mappings[t].state == PendingDelete
    ensures Purged(mappings, checkpoints) == mappings
  {
  }

  lemma DonePushes(db: Db)
    requires forall k :: k in db.checkpoints ==> Done(db, k)
    ensures PushesRecovered(db) == db.pushes && EnrollmentsRecovered(db) == db.enrollments
  {
    hide Settled;
    hide VerdictOf;
    assert PushesRecovered(db) == db.pushes;
  }

  /** Where every checkpoint is done, recovery has nothing left to change. */
  lemma DoneIsRecovered(db: Db, ids: NewIds)
    requires Resolvable(db) && forall k :: k in db.checkpoints ==> Done(db, k)
    ensures Recovered(db, ids) == db
  {
    DonePushes(db);
    assert CheckpointsRecovered(db) == db.checkpoints;
    NothingPurged(db.mappings, db.checkpoints);
    hide Settled;
    hide VerdictOf;
    hide Purged;
    hide PushesRecovered;
    hide EnrollmentsRecovered;
    NothingConfirmed(db);
    NothingOverlaid(db.mappings, db.employees, ids);
  }

  /** Processing one checkpoint keeps the goal, also if a crash hits between its transactions. */
  lemma KeyKeepsGoal(db: Db, key: OperationKey, ids: NewIds)
    requires Resolvable(db) && key in db.checkpoints && (key.PurgeDelete? ==> Confirmed(db) == {})
    ensures var half := ApplyTx(db, FirstTx(db, key), ids);
      SameStatics(db, half) && Resolvable(half) && Recovered(half, ids) == Recovered(db, ids)
    ensures var db' := ProcessKey(db, key, ids);
      SameStatics(db, db') && Resolvable(db') && Recovered(db', ids) == Recovered(db, ids)
  {
    hide Settled;
    hide VerdictOf;
    hide Recovered;
    assert KeyResolvable(db, key);
    var half := ApplyTx(db, FirstTx(db, key), ids);
    assert Due(db, FirstTx(db, key));
    DueKeepsGoal(db, FirstTx(db, key), ids);
    if SecondTx(db, key).Some? {
      assert half.checkpoints == db.checkpoints[key := Manual];
      SameConfirmed(db, half);
      assert Due(half, SecondTx(db, key).value);
      DueKeepsGoal(half, SecondTx(db, key).value, ids);
    }
  }

  lemma PushKeyEffect(db: Db, p: PushId, ids: NewIds)
    requires Resolvable(db) && EnrollmentPush(p) in db.checkpoints
    ensures PushResolvable(db, p)
    ensures var db' := ProcessKey(db, EnrollmentPush(p), ids);
      var st := if Applied(db, EnrollmentPush(p)) then Success else Failed;
      var e := db.pushes[p].enrollment;
      && db'.pushes == WithStatus(db.pushes, p, st)
      && db'.enrollments == Finalized(db.(pushes := db'.pushes), e).enrollments
      && db'.employees == db.employees
      && db'.checkpoints == (if Applied(db, EnrollmentPush(p)) then db.checkpoints - {EnrollmentPush(p)}
                             else db.checkpoints[EnrollmentPush(p) := Manual])
  {
    hide Settled;
    hide VerdictOf;
    assert KeyResolvable(db, EnrollmentPush(p));
  }

  lemma PushKeyGetsDone(db: Db, key: OperationKey, k: OperationKey, ids: NewIds)
    requires Resolvable(db) && key in db.checkpoints && key.EnrollmentPush? && !k.PurgeDelete?
    requires k == key || (k in db.checkpoints && Done(db, k))
    ensures Done(ProcessKey(db, key, ids), k)
  {
    hide Settled;
    hide VerdictOf;
    PushKeyEffect(db, key.push, ids);
    hide ProcessKey;
    var db' := ProcessKey(db, key, ids);
    if k.EnrollmentPush? && k in db'.checkpoints {
      assert KeyResolvable(db, k);
      var e := db.pushes[k.push].enrollment;
      if e != db.pushes[key.push].enrollment { VerdictCongruence(db.pushes, db'.pushes, e); }
    }
  }

  lemma OtherKeyEffect(db: Db, key: OperationKey, ids: NewIds)
    requires Resolvable(db) && key in db.checkpoints && !key.EnrollmentPush?
    ensures var db' := ProcessKey(db, key, ids);
      && db'.pushes == db.pushes && db'.enrollments == db.enrollments && db'.employees == db.employees
      && db'.checkpoints == (if Applied(db, key) then db.checkpoints - {key} else db.checkpoints[key := Manual])
      && (key.PurgeDelete? ==> db'.mappings == if Applied(db, key) then WithoutMapping(db.mappings, key.mapping)
                                               else MappingPendingDelete(db.mappings, key.mapping))
  {
    assert KeyResolvable(db, key);
  }

  /** Processing a checkpoint finishes it, and leaves finished checkpoints finished. */
  lemma KeyGetsDone(db: Db, key: OperationKey, ids: NewIds)
    requires Resolvable(db) && key in db.checkpoints
    ensures var db' := ProcessKey(db, key, ids);
      && db'.checkpoints == (if Applied(db, key) then db.checkpoints - {key} else db.checkpoints[key := Manual])
      && Done(db', key)
      && forall k :: Done(db, k) && k in db.checkpoints && KindRank(k) <= KindRank(key) ==> Done(db', k)
  {
    hide Settled;
    hide VerdictOf;
    if key.EnrollmentPush? {
      PushKeyEffect(db, key.push, ids);
      hide ProcessKey;
      PushKeyGetsDone(db, key, key, ids);
      forall k | Done(db, k) && k in db.checkpoints && KindRank(k) <= KindRank(key)
        ensures Done(ProcessKey(db, key, ids), k)
      {
        PushKeyGetsDone(db, key, k, ids);
      }
    } else {
      OtherKeyEffect(db, key, ids);
      hide ProcessKey;
    }
  }

  /** Only confirmed templates make `Confirmed` non-empty. */
  lemma NothingConfirmed(db: Db)
    requires Resolvable(db) && forall k :: k in db.checkpoints && !k.PurgeDelete? ==> db.checkpoints[k] == Manual
    ensures Confirmed(db) == {}
  {
  }

  /** The part of a recovery still to be run: the remaining keys in order, the others done. */
  ghost predicate Remaining(db: Db, todo: seq<OperationKey>) {
    && OrderedKeys(todo)
    && (forall k :: k in todo ==> k in db.checkpoints)
    && (forall k :: k in db.checkpoints && k !in todo ==>
          Done(db, k) && (todo != [] ==> KindRank(k) <= KindRank(todo[0])))
  }

  lemma HeadHasLeastRank(todo: seq<OperationKey>)
    requires OrderedKeys(todo) && todo != []
    ensures forall k :: k in todo ==> KindRank(todo[0]) <= KindRank(k)
  {
    forall i | 0 <= i < |todo| ensures KindRank(todo[0]) <= KindRank(todo[i]) {}
  }

  lemma PurgesWait(db: Db, todo: seq<OperationKey>)
    requires Resolvable(db) && Remaining(db, todo) && todo != [] && todo[0].PurgeDelete?
    ensures Confirmed(db) == {}
  {
    HeadHasLeastRank(todo);
    NothingConfirmed(db);
  }

  lemma RemainingStep(db: Db, todo: seq<OperationKey>, ids: NewIds)
    requires Resolvable(db) && Remaining(db, todo) && todo != []
    ensures Remaining(ProcessKey(db, todo[0], ids), todo[1..])
  {
    hide *;
    RemainingHead(db, todo);
    KeyGetsDone(db, todo[0], ids);
    RemainingTail(db, todo, ProcessKey(db, todo[0], ids));
  }

  lemma RemainingHead(db: Db, todo: seq<OperationKey>)
    requires Remaining(db, todo) && todo != []
    ensures todo[0] in db.checkpoints
  {
    hide Done;
  }

  lemma RemainingTail(db: Db, todo: seq<OperationKey>, db': Db)
    requires Remaining(db, todo) && todo != []
    requires var key := todo[0];
      && db'.checkpoints == (if Applied(db, key) then db.checkpoints - {key} else db.checkpoints[key := Manual])
      && Done(db', key)
      && forall k :: Done(db, k) && k in db.checkpoints && KindRank(k) <= KindRank(key) ==> Done(db', k)
    ensures Remaining(db', todo[1..])
  {
    hide Done;
    var key, rest := todo[0], todo[1..];
    HeadHasLeastRank(todo);
    assert key !in rest && forall k :: k in todo <==> k == key || k in rest;
    if rest != [] { assert KindRank(todo[0]) <= KindRank(todo[1]); }
  }

  /** One checkpoint of a recovery under way. */
  lemma RecoveryStep(db: Db, todo: seq<OperationKey>, ids: NewIds)
    requires Resolvable(db) && Remaining(db, todo) && todo != []
    ensures var half := ApplyTx(db, FirstTx(db, todo[0]), ids);
      Resolvable(half) && Recovered(half, ids) == Recovered(db, ids)
    ensures var next := ProcessKey(db, todo[0], ids);
      Resolvable(next) && Recovered(next, ids) == Recovered(db, ids) && Remaining(next, todo[1..])
  {
    hide Recovered;
    hide SameStatics;
    RemainingStep(db, todo, ids);
    if todo[0].PurgeDelete? { PurgesWait(db, todo); }
    assert todo[0] in db.checkpoints;
    KeyKeepsGoal(db, todo[0], ids);
  }

  /** Recovery, run to its end without a crash, produces exactly the recovered database. */
  lemma {:induction false} RecoveryReachesGoal(db: Db, todo: seq<OperationKey>, ids: NewIds)
    requires Resolvable(db) && Remaining(db, todo)
    ensures ProcessKeys(db, todo, ids) == Recovered(db, ids)
    decreases |todo|
  {
    hide *;
    ProcessKeysUnfold(db, todo, ids);
    if todo == [] {
      NothingRemains(db, ids);
    } else {
      RecoveryStep(db, todo, ids);
      RecoveryReachesGoal(ProcessKey(db, todo[0], ids), todo[1..], ids);
    }
  }

  lemma NothingRemains(db: Db, ids: NewIds)
    requires Resolvable(db) && Remaining(db, [])
    ensures Recovered(db, ids) == db
  {
    hide Recovered;
    DoneIsRecovered(db, ids);
  }

  lemma ProcessKeysUnfold(db: Db, todo: seq<OperationKey>, ids: NewIds)
    ensures ProcessKeys(db, todo, ids)
      == if todo == [] then db else ProcessKeys(ProcessKey(db, todo[0], ids), todo[1..], ids)
  {
    hide ProcessKey;
  }

  lemma InterruptedAtOnce(db: Db, todo: seq<OperationKey>, ids: NewIds, txs: nat)
    ensures todo == [] || txs == 0 ==> Interrupted(db, todo, ids, txs) == db
  {
  }

  lemma InterruptedUnfold(db: Db, todo: seq<OperationKey>, ids: NewIds, txs: nat)
    requires todo != [] && txs != 0
    ensures txs == 1 && SecondTx(db, todo[0]).Some? ==>
      Interrupted(db, todo, ids, txs) == ApplyTx(db, FirstTx(db, todo[0]), ids)
    ensures !(txs == 1 && SecondTx(db, todo[0]).Some?) ==>
      Interrupted(db, todo, ids, txs)
        == Interrupted(ProcessKey(db, todo[0], ids), todo[1..], ids, txs - if SecondTx(db, todo[0]).Some? then 2 else 1)
  {
    hide ApplyTx;
    hide FirstTx;
    hide SecondTx;
    hide ProcessKey;
  }

  /** Wherever a crash stops recovery, the goal is still the same. */
  lemma {:induction false} InterruptionKeepsGoal(db: Db, todo: seq<OperationKey>, ids: NewIds, txs: nat)
    requires Resolvable(db) && Remaining(db, todo)
    ensures var db' := Interrupted(db, todo, ids, txs);
      Resolvable(db') && Recovered(db', ids) == Recovered(db, ids)
    decreases |todo|
  {
    hide *;
    InterruptedAtOnce(db, todo, ids, txs);
    if todo != [] && txs != 0 {
      RecoveryStep(db, todo, ids);
      InterruptedUnfold(db, todo, ids, txs);
      if !(txs == 1 && SecondTx(db, todo[0]).Some?) {
        InterruptionKeepsGoal(ProcessKey(db, todo[0], ids), todo[1..], ids, txs - if SecondTx(db, todo[0]).Some? then 2 else 1);
      }
    }
  }

  // ---------------------------------------- identifiers drawn anew at every boot

  /** The target that processing `key` may record a mapping for. */
  ghost function Placed(db: Db, key: OperationKey): set<(DeviceId, FaceId)>
    requires Resolvable(db)
  {
    if Applied(db, key) && !key.PurgeDelete? then {TargetOf(db, key)} else {}
  }

  /** `own` for the targets in `at`, `later` for all others. */
  ghost function Mixed(own: NewIds, later: NewIds, at: set<(DeviceId, FaceId)>): NewIds {
    (d, f) => if (d, f) in at then own(d, f) else later(d, f)
  }

  /** Every identifier is one of the two. */
  ghost predicate MixOf(ids: NewIds, own: NewIds, later: NewIds) {
    forall d, f :: ids(d, f) == own(d, f) || ids(d, f) == later(d, f)
  }

  lemma KeyReadsOneId(db: Db, key: OperationKey, a: NewIds, b: NewIds)
    requires Resolvable(db) && key in db.checkpoints
    requires forall t :: t in Placed(db, key) ==> a(t.0, t.1) == b(t.0, t.1)
    ensures ApplyTx(db, FirstTx(db, key), a) == ApplyTx(db, FirstTx(db, key), b)
    ensures ProcessKey(db, key, a) == ProcessKey(db, key, b)
    ensures forall t :: t in Placed(db, key) ==>
      t in ApplyTx(db, FirstTx(db, key), a).mappings && t in ProcessKey(db, key, a).mappings
  {
    hide Settled;
    hide VerdictOf;
    assert KeyResolvable(db, key);
    if Placed(db, key) != {} {
      var t := TargetOf(db, key);
      assert t in Placed(db, key);
      if key.EnrollmentPush? {
        CompletePushEffect(db, key.push, a);
      }
    }
  }

  /** Recovery has no use for an identifier of a mapping that exists. */
  lemma RecoveredReadsNewIds(db: Db, a: NewIds, b: NewIds)
    requires Resolvable(db) && forall d: DeviceId, f: FaceId :: (d, f) !in db.mappings ==> a(d, f) == b(d, f)
    ensures Recovered(db, a) == Recovered(db, b)
  {
    var confirmed := Confirmed(db);
    assert forall t: (DeviceId, FaceId) :: t == (t.0, t.1);
    assert Overlaid(db.mappings, confirmed, db.employees, a) == Overlaid(db.mappings, confirmed, db.employees, b);
    hide Confirmed;
    hide Overlaid;
    hide Purged;
    hide PushesRecovered;
    hide EnrollmentsRecovered;
    hide CheckpointsRecovered;
  }

  /** One checkpoint, processed with identifiers of its own in a recovery that goes on with others. */
  lemma KeyMixesIds(db: Db, todo: seq<OperationKey>, own: NewIds, later: NewIds) returns (ids: NewIds)
    requires Resolvable(db) && Remaining(db, todo) && todo != []
    ensures MixOf(ids, own, later)
    ensures var half := ApplyTx(db, FirstTx(db, todo[0]), own);
      Resolvable(half) && Recovered(half, later) == Recovered(db, ids)
    ensures var next := ProcessKey(db, todo[0], own);
      Resolvable(next) && Recovered(next, later) == Recovered(db, ids) && Remaining(next, todo[1..])
  {
    ids := Mixed(own, later, Placed(db, todo[0]));
    MixedIs(own, later, Placed(db, todo[0]));
    assert todo[0] in db.checkpoints;
    hide *;
    KeyReadsOneId(db, todo[0], own, ids);
    RecoveryStep(db, todo, ids);
    RecoveredReadsNewIds(ApplyTx(db, FirstTx(db, todo[0]), own), ids, later);
    RecoveredReadsNewIds(ProcessKey(db, todo[0], own), ids, later);
  }

  lemma MixedIs(own: NewIds, later: NewIds, at: set<(DeviceId, FaceId)>)
    ensures var ids := Mixed(own, later, at);
      && MixOf(ids, own, later)
      && (forall t :: t in at ==> own(t.0, t.1) == ids(t.0, t.1))
      && forall d: DeviceId, f: FaceId :: (d, f) !in at ==> ids(d, f) == later(d, f)
  {
    assert forall t: (DeviceId, FaceId) :: t == (t.0, t.1);
  }

  lemma {:induction false} InterruptionMixesIds(db: Db, todo: seq<OperationKey>, own: NewIds, txs: nat, later: NewIds)
    returns (ids: NewIds)
    requires Resolvable(db) && Remaining(db, todo)
    ensures MixOf(ids, own, later)
    ensures var db' := Interrupted(db, todo, own, txs);
      Resolvable(db') && Recovered(db', later) == Recovered(db, ids)
    decreases |todo|
  {
    hide *;
    InterruptedAtOnce(db, todo, own, txs);
    if todo == [] || txs == 0 {
      ids := later;
      MixOfAny(own, later, later);
    } else {
      InterruptedUnfold(db, todo, own, txs);
      if txs == 1 && SecondTx(db, todo[0]).Some? {
        ids := KeyMixesIds(db, todo, own, later);
      } else {
        RecoveryStep(db, todo, own);
        var behind := InterruptionMixesIds(ProcessKey(db, todo[0], own), todo[1..], own,
                                           txs - if SecondTx(db, todo[0]).Some? then 2 else 1, later);
        ids := KeyMixesIds(db, todo, own, behind);
        MixOfAny(own, later, behind);
        MixOfMix(ids, own, behind, later);
      }
    }
  }

  lemma MixOfAny(own: NewIds, later: NewIds, ids: NewIds)
    ensures MixOf(later, own, later) && MixOf(own, own, later)
  {
  }

  lemma MixOfMix(ids: NewIds, own: NewIds, behind: NewIds, later: NewIds)
    requires MixOf(ids, own, behind) && MixOf(behind, own, later)
    ensures MixOf(ids, own, later)
  {
  }

  /** A boot that crashed during recovery: the key list it read, how many transactions it got
      through, and the identifiers it drew; within a boot a target is recorded anew once at most. */
  datatype CrashedBoot = CrashedBoot(todo: seq<OperationKey>, txs: nat, ids: NewIds)

  ghost function AfterBoots(db: Db, boots: seq<CrashedBoot>): Db
    decreases |boots|
  {
    if boots == [] then db else AfterBoots(Interrupted(db, boots[0].todo, boots[0].ids, boots[0].txs), boots[1..])
  }

  ghost predicate BootsEnumerate(db: Db, boots: seq<CrashedBoot>)
    decreases |boots|
  {
    boots != [] ==>
      Enumerates(db, boots[0].todo)
      && BootsEnumerate(Interrupted(db, boots[0].todo, boots[0].ids, boots[0].txs), boots[1..])
  }

  /** Every identifier was drawn by one of the boots, or by the last one. */
  ghost predicate DrawnBy(ids: NewIds, boots: seq<CrashedBoot>, last: NewIds) {
    forall d, f :: ids(d, f) == last(d, f) || exists i :: 0 <= i < |boots| && ids(d, f) == boots[i].ids(d, f)
  }

  lemma DrawnByNext(ids: NewIds, boots: seq<CrashedBoot>, behind: NewIds, last: NewIds)
    requires boots != [] && MixOf(ids, boots[0].ids, behind) && DrawnBy(behind, boots[1..], last)
    ensures DrawnBy(ids, boots, last)
  {
    forall d, f ensures ids(d, f) == last(d, f) || exists i :: 0 <= i < |boots| && ids(d, f) == boots[i].ids(d, f) {
      if ids(d, f) == boots[0].ids(d, f) {
      } else if behind(d, f) != last(d, f) {
        var i :| 0 <= i < |boots[1..]| && behind(d, f) == boots[1..][i].ids(d, f);
        assert boots[1..][i] == boots[i + 1];
      }
    }
  }

  /** Any number of boots, each crashing anywhere inside recovery, followed by one that completes,
      leave exactly the database that a single undisturbed recovery leaves, up to which of them
      drew the identifier of a mapping that is new. */
  lemma {:induction false} RecoveryIsReentrant(db: Db, boots: seq<CrashedBoot>, todo: seq<OperationKey>, last: NewIds)
    requires Resolvable(db) && BootsEnumerate(db, boots) && Enumerates(AfterBoots(db, boots), todo)
    ensures exists ids :: DrawnBy(ids, boots, last) && ProcessKeys(AfterBoots(db, boots), todo, last) == Recovered(db, ids)
    decreases |boots|
  {
    hide Recovered;
    if boots == [] {
      RecoveryReachesGoal(db, todo, last);
      assert DrawnBy(last, boots, last);
    } else {
      var boot := boots[0];
      InterruptionKeepsGoal(db, boot.todo, boot.ids, boot.txs);
      RecoveryIsReentrant(Interrupted(db, boot.todo, boot.ids, boot.txs), boots[1..], todo, last);
      var behind :| DrawnBy(behind, boots[1..], last)
        && ProcessKeys(AfterBoots(db, boots), todo, last) == Recovered(Interrupted(db, boot.todo, boot.ids, boot.txs), behind);
      var ids := InterruptionMixesIds(db, boot.todo, boot.ids, boot.txs, behind);
      DrawnByNext(ids, boots, behind, last);
    }
  }

  /** What the recovered database says about the protocol: no checkpoint is left that promises
      or confirms a call; a confirmed push is a success whose mapping is active unless a purge of
      that very mapping is itself checkpointed; every other checkpointed push is failed and manual. */
  lemma RecoveredMeaning(db: Db, ids: NewIds)
    requires Resolvable(db)
    ensures var r := Recovered(db, ids);
      && (forall k :: k in r.checkpoints <==> k in db.checkpoints && !Applied(db, k))
      && (forall k :: k in r.checkpoints ==> r.checkpoints[k] == Manual)
      && r.pushes.Keys == db.pushes.Keys
      && (forall p :: p in db.pushes && EnrollmentPush(p) in db.checkpoints ==>
            r.pushes[p] == db.pushes[p].(status := if Applied(db, EnrollmentPush(p)) then Success else Failed))
      && (forall p :: EnrollmentPush(p) in db.checkpoints ==> p in db.pushes)
      && (forall p :: p in db.pushes && EnrollmentPush(p) !in db.checkpoints ==> r.pushes[p] == db.pushes[p])
      && (forall e :: e in db.enrollments && Touched(db, e) && Settled(r.pushes, e) ==>
            r.enrollments[e] == db.enrollments[e].(status := VerdictOf(r.pushes, e)))
      && r.enrollments.Keys == db.enrollments.Keys
      && (forall e :: e in db.enrollments && !(Touched(db, e) && Settled(r.pushes, e)) ==> r.enrollments[e] == db.enrollments[e])
      && r.employees == db.employees && r.devices == db.devices
    ensures forall p :: Applied(db, EnrollmentPush(p)) ==> MappingStands(db, p, ids) == (PurgeDelete(NewMappingId(db, p, ids)) !in db.checkpoints)
  {
    forall p | Applied(db, EnrollmentPush(p))
      ensures MappingStands(db, p, ids) == (PurgeDelete(NewMappingId(db, p, ids)) !in db.checkpoints)
    {
      MappingOfPush(db, p, ids);
    }
    forall p | EnrollmentPush(p) in db.checkpoints ensures p in db.pushes { assert KeyResolvable(db, EnrollmentPush(p)); }
    hide Settled;
    hide VerdictOf;
    hide MappingStands;
    hide NewMappingId;
  }

  /** The identifier under which a confirmed push is recorded. */
  ghost function NewMappingId(db: Db, p: PushId, ids: NewIds): MappingId
    requires Resolvable(db) && Applied(db, EnrollmentPush(p))
  {
    var t := TargetOf(db, EnrollmentPush(p));
    if t in db.mappings then db.mappings[t].id else ids(t.0, t.1)
  }

  /** The mapping of a confirmed push is recorded, active and the employee's. */
  ghost predicate MappingStands(db: Db, p: PushId, ids: NewIds)
    requires Resolvable(db) && Applied(db, EnrollmentPush(p))
  {
    assert KeyResolvable(db, EnrollmentPush(p));
    var r, t := MappingsRecovered(db, ids), TargetOf(db, EnrollmentPush(p));
    t in r && r[t] == MappingRow(NewMappingId(db, p, ids), EmployeeOf(db, p), Active)
  }

  lemma MappingOfPush(db: Db, p: PushId, ids: NewIds)
    requires Resolvable(db) && Applied(db, EnrollmentPush(p))
    ensures MappingStands(db, p, ids) == (PurgeDelete(NewMappingId(db, p, ids)) !in db.checkpoints)
  {
    assert KeyResolvable(db, EnrollmentPush(p));
    var t := TargetOf(db, EnrollmentPush(p));
    assert t in Confirmed(db);
    assert OwnerOf(db.employees, t.1) == EmployeeOf(db, p);
    var m := Overlaid(db.mappings, Confirmed(db), db.employees, ids);
    assert m[t] == MappingRow(NewMappingId(db, p, ids), EmployeeOf(db, p), Active);
  }

  /** A checkpointed device call put this face on this device, as an enrolment or as a backfill. */
  ghost predicate PutInPlace(db: Db, device: DeviceId, face: FaceId)
    requires Resolvable(db)
  {
    || (BackfillPush(device, face) in db.checkpoints && db.checkpoints[BackfillPush(device, face)] == DeviceApplied)
    || exists p :: p in db.pushes && PushPutInPlace(db, p, device, face)
  }

  ghost predicate PushPutInPlace(db: Db, p: PushId, device: DeviceId, face: FaceId)
    requires Resolvable(db) && p in db.pushes
  {
    assert EnrollmentPush(p) in db.checkpoints ==> KeyResolvable(db, EnrollmentPush(p));
    && EnrollmentPush(p) in db.checkpoints && db.checkpoints[EnrollmentPush(p)] == DeviceApplied
    && db.pushes[p].device == device && db.employees[db.enrollments[db.pushes[p].enrollment].employee].face == Some(face)
  }

  lemma ConfirmedMeans(db: Db)
    requires Resolvable(db)
    ensures forall d: DeviceId, f: FaceId :: (d, f) in Confirmed(db) <==> PutInPlace(db, d, f)
  {
    forall d: DeviceId, f: FaceId ensures (d, f) in Confirmed(db) <==> PutInPlace(db, d, f) {
      if PutInPlace(db, d, f) {
        if BackfillPush(d, f) in db.checkpoints && db.checkpoints[BackfillPush(d, f)] == DeviceApplied {
          assert TargetOf(db, BackfillPush(d, f)) == (d, f);
        } else {
          var p :| p in db.pushes && PushPutInPlace(db, p, d, f);
          assert KeyResolvable(db, EnrollmentPush(p)) && TargetOf(db, EnrollmentPush(p)) == (d, f);
        }
      }
      if (d, f) in Confirmed(db) {
        var k :| k in db.checkpoints && !k.PurgeDelete? && Applied(db, k) && TargetOf(db, k) == (d, f);
        assert KeyResolvable(db, k);
        if k.EnrollmentPush? { assert PushPutInPlace(db, k.push, d, f); }
      }
    }
  }

  lemma OwnerIs(db: Db, device: DeviceId, face: FaceId)
    requires Resolvable(db) && PutInPlace(db, device, face)
    ensures var e := OwnerOf(db.employees, face); e in db.employees && db.employees[e].face == Some(face)
  {
    if BackfillPush(device, face) in db.checkpoints && db.checkpoints[BackfillPush(device, face)] == DeviceApplied {
      assert KeyResolvable(db, BackfillPush(device, face));
    } else {
      var p :| p in db.pushes && PushPutInPlace(db, p, device, face);
      assert KeyResolvable(db, EnrollmentPush(p));
    }
    assert HasOwner(db.employees, face);
  }

  /** The mappings, row by row: a face a confirmed call put in place has one, of its employee; a
      confirmed purge of a mapping removes it, any other leaves it to be deleted; and what no
      checkpoint is about stays as it is. */
  lemma RecoveredMappings(db: Db, ids: NewIds, device: DeviceId, face: FaceId)
    requires Resolvable(db)
    ensures var before, after, t := db.mappings, Recovered(db, ids).mappings, (device, face);
      var id := if t in before then before[t].id else ids(device, face);
      var purge := PurgeDelete(id);
      && (t in after <==>
            (t in before || PutInPlace(db, device, face))
            && !(purge in db.checkpoints && db.checkpoints[purge] == DeviceApplied))
      && (t in after ==>
            && after[t].id == id
            && (if PutInPlace(db, device, face) then
                  after[t].employee in db.employees && db.employees[after[t].employee].face == Some(face)
                else t in before && after[t].employee == before[t].employee)
            && (if purge in db.checkpoints then after[t].state == PendingDelete
                else if PutInPlace(db, device, face) then after[t].state == Active
                else t in before && after[t].state == before[t].state))
  {
    ConfirmedMeans(db);
    if PutInPlace(db, device, face) { OwnerIs(db, device, face); }
    hide Confirmed;
    hide PutInPlace;
    hide OwnerOf;
    hide PushesRecovered;
    hide EnrollmentsRecovered;
    hide CheckpointsRecovered;
    hide Resolvable;
  }

  /** A confirmed push of employee 0 to device 0, and a purge of the mapping they already have. */
  function PushBesidePurge(purge: CheckpointState): Db {
    Db(map[0 := PushRow(0, 0, InProgress)], map[EnrollmentPush(0) := DeviceApplied, PurgeDelete(0) := purge],
       map[(0, 0) := MappingRow(0, 0, PendingDelete)], map[0 := EnrollmentRow(0, Ongoing)],
       map[0 := EmployeeRow(Some(0), true)], {0})
  }

  /** Both checkpoints are resolvable, and recovery ends with a push that succeeded and a mapping
      that is gone, or still to be deleted. */
  lemma PurgeUndoesPush(purge: CheckpointState, ids: NewIds)
    ensures var db := PushBesidePurge(purge);
      Resolvable(db)
      && var r := Recovered(db, ids);
      && 0 in r.pushes && r.pushes[0].status == Success && EnrollmentPush(0) !in r.checkpoints
      && (if purge == DeviceApplied then (0, 0) !in r.mappings
          else (0, 0) in r.mappings && r.mappings[(0, 0)] == MappingRow(0, 0, PendingDelete))
  {
    var db := PushBesidePurge(purge);
    PushBesidePurgeIs(purge);
    RecoveredMeaning(db, ids);
    RecoveredMappings(db, ids, 0, 0);
    hide Recovered;
    hide Resolvable;
    hide PutInPlace;
    hide Settled;
    hide VerdictOf;
  }

  lemma PushBesidePurgeIs(purge: CheckpointState)
    ensures var db := PushBesidePurge(purge); Resolvable(db) && PutInPlace(db, 0, 0)
  {
    var db := PushBesidePurge(purge);
    assert PushResolvable(db, 0);
    forall k | k in db.checkpoints ensures KeyResolvable(db, k) {
      if k.PurgeDelete? { assert (0, 0) in db.mappings; }
    }
    assert PushPutInPlace(db, 0, 0, 0);
  }
}
