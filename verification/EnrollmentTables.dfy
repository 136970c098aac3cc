/**
 The tables touched by the enrollment device-operation protocol, and each queued
 transaction as a function on their contents. Timestamps, error texts and version
 counters carry no control flow and are not columns here.
 */
module EnrollmentTables {
  import opened Options

  type PushId = nat
  type EnrollmentId = nat
  type EmployeeId = nat
  type DeviceId = nat
  type FaceId = nat
  type MappingId = nat

  datatype PushStatus = Pending | InProgress | Success | Failed {
    predicate Terminal() { Success? || Failed? }
  }

  datatype CheckpointState = Prepared | DeviceApplied | Manual

  datatype EnrollmentStatus = Ongoing | AllSucceeded | Partial | NoneSucceeded

  datatype MappingState = Active | PendingDelete

  /** The primary key of a checkpoint row; its constructor is the `operation` column. */
  datatype OperationKey =
    | EnrollmentPush(push: PushId)
    | BackfillPush(device: DeviceId, face: FaceId)
    | PurgeDelete(mapping: MappingId)

  datatype PushRow = PushRow(enrollment: EnrollmentId, device: DeviceId, status: PushStatus)
  datatype EnrollmentRow = EnrollmentRow(employee: EmployeeId, status: EnrollmentStatus)
  datatype EmployeeRow = EmployeeRow(face: Option<FaceId>, active: bool)
  datatype MappingRow = MappingRow(id: MappingId, employee: EmployeeId, state: MappingState)

  type Pushes = map<PushId, PushRow>
  type Checkpoints = map<OperationKey, CheckpointState>
  type Mappings = map<(DeviceId, FaceId), MappingRow>

  type Employees = map<EmployeeId, EmployeeRow>

  datatype Db = Db(
    pushes: Pushes,
    checkpoints: Checkpoints,
    mappings: Mappings,
    enrollments: map<EnrollmentId, EnrollmentRow>,
    employees: Employees,
    devices: set<DeviceId>)

  // ---------------------------------------------------------------- statements

  /** `UPDATE enrollment_device_pushes SET status=... WHERE id=...`. */
  function WithStatus(pushes: Pushes, push: PushId, status: PushStatus): Pushes {
    if push in pushes then pushes[push := pushes[push].(status := status)] else pushes
  }

  /** `INSERT ... ON CONFLICT(device_id, face_id) DO UPDATE`: a conflicting row keeps its id. */
  function Upserted(mappings: Mappings, device: DeviceId, face: FaceId,
                    employee: EmployeeId, newId: MappingId): Mappings {
    var id := if (device, face) in mappings then mappings[(device, face)].id else newId;
    mappings[(device, face) := MappingRow(id, employee, Active)]
  }

  /** `DELETE FROM device_face_mappings WHERE id=...`. */
  function WithoutMapping(mappings: Mappings, id: MappingId): Mappings {
    map k | k in mappings && mappings[k].id != id :: mappings[k]
  }

  /** `UPDATE device_face_mappings SET state='pending_delete' WHERE id=...`. */
  function MappingPendingDelete(mappings: Mappings, id: MappingId): Mappings {
    map k | k in mappings ::
      if mappings[k].id == id then mappings[k].(state := PendingDelete) else mappings[k]
  }

  /** `UPDATE device_operation_checkpoints SET state=... WHERE operation_key=...`. */
  function WithCheckpoint(checkpoints: Checkpoints, key: OperationKey, state: CheckpointState): Checkpoints {
    if key in checkpoints then checkpoints[key := state] else checkpoints
  }

  // ------------------------------------------------- verdict of an enrollment

  function PushesOf(pushes: Pushes, enrollment: EnrollmentId): set<PushId> {
    set p | p in pushes && pushes[p].enrollment == enrollment
  }

  function CountStatus(pushes: Pushes, enrollment: EnrollmentId, status: PushStatus): nat {
    |set p | p in pushes && pushes[p].enrollment == enrollment && pushes[p].status == status|
  }

  predicate Settled(pushes: Pushes, enrollment: EnrollmentId) {
    CountStatus(pushes, enrollment, Pending) + CountStatus(pushes, enrollment, InProgress) == 0
  }

  function FinalStatus(success: nat, failed: nat, total: nat): EnrollmentStatus {
    if total == 0 || success == 0 then NoneSucceeded
    else if failed == 0 then AllSucceeded
    else Partial
  }

  function VerdictOf(pushes: Pushes, enrollment: EnrollmentId): EnrollmentStatus {
    FinalStatus(CountStatus(pushes, enrollment, Success),
                CountStatus(pushes, enrollment, Failed),
                |PushesOf(pushes, enrollment)|)
  }

  lemma CountZero(pushes: Pushes, enrollment: EnrollmentId, status: PushStatus)
    ensures (CountStatus(pushes, enrollment, status) == 0)
      == (forall p :: p in PushesOf(pushes, enrollment) ==> pushes[p].status != status)
  {
    var counted := set p | p in pushes && pushes[p].enrollment == enrollment && pushes[p].status == status;
    assert CountStatus(pushes, enrollment, status) == 0 <==> counted == {};
    assert forall p :: p in PushesOf(pushes, enrollment) && pushes[p].status == status <==> p in counted;
  }

  /** What the counters of the aggregate query mean, push by push. */
  lemma SettledMeaning(pushes: Pushes, enrollment: EnrollmentId)
    ensures Settled(pushes, enrollment)
      == (forall p :: p in PushesOf(pushes, enrollment) ==> pushes[p].status.Terminal())
  {
    CountZero(pushes, enrollment, Pending);
    CountZero(pushes, enrollment, InProgress);
  }

  /** The verdict of a settled enrollment: success iff there is a push and all succeeded,
      failed iff none did, partial otherwise. */
  lemma VerdictMeaning(pushes: Pushes, enrollment: EnrollmentId)
    requires Settled(pushes, enrollment)
    ensures (VerdictOf(pushes, enrollment) == AllSucceeded)
      == (PushesOf(pushes, enrollment) != {}
          && forall p :: p in PushesOf(pushes, enrollment) ==> pushes[p].status == Success)
    ensures (VerdictOf(pushes, enrollment) == NoneSucceeded)
      == (forall p :: p in PushesOf(pushes, enrollment) ==> pushes[p].status == Failed)
    ensures VerdictOf(pushes, enrollment) != Ongoing
  {
    SettledMeaning(pushes, enrollment);
    CountZero(pushes, enrollment, Success);
    CountZero(pushes, enrollment, Failed);
    assert |PushesOf(pushes, enrollment)| == 0 <==> PushesOf(pushes, enrollment) == {};
  }

  // -------------------------------------------------------------- transactions
  // Each is the database after the transaction committed; a transaction that
  // bails out is the identity, as the queue rolls it back.

  function Enrolled(db: Db, enrollment: EnrollmentId, employee: EmployeeId, newFace: FaceId,
                    targets: map<PushId, DeviceId>): Db {
    if employee !in db.employees then db else
    var face := if db.employees[employee].face.Some? then db.employees[employee].face else Some(newFace);
    db.(enrollments := db.enrollments[enrollment := EnrollmentRow(employee, Ongoing)],
        employees := db.employees[employee := db.employees[employee].(face := face)],
        pushes := db.pushes + PendingRows(enrollment, targets, targets.Keys),
        checkpoints := db.checkpoints + PreparedRows(targets.Keys))
  }

  function PendingRows(enrollment: EnrollmentId, targets: map<PushId, DeviceId>, pushes: set<PushId>): Pushes
    requires pushes <= targets.Keys
  {
    map p | p in pushes :: PushRow(enrollment, targets[p], Pending)
  }

  function PreparedRows(pushes: set<PushId>): Checkpoints {
    map k | k in PushKeys(pushes) :: Prepared
  }

  function PushKeys(pushes: set<PushId>): set<OperationKey> {
    set p | p in pushes :: EnrollmentPush(p)
  }

  predicate Retryable(db: Db, push: PushId) {
    push in db.pushes && db.pushes[push].status == Failed && EnrollmentPush(push) !in db.checkpoints
  }

  function Retried(db: Db, push: PushId): Db {
    if !Retryable(db, push) then db else
    db.(pushes := WithStatus(db.pushes, push, Pending),
        checkpoints := db.checkpoints[EnrollmentPush(push) := Prepared])
  }

  function MarkedInProgress(db: Db, push: PushId): Db {
    db.(pushes := WithStatus(db.pushes, push, InProgress))
  }

  function OperationMarked(db: Db, key: OperationKey, state: CheckpointState): Db {
    db.(checkpoints := WithCheckpoint(db.checkpoints, key, state))
  }

  function PushSucceeded(db: Db, push: PushId, device: DeviceId, face: FaceId,
                         employee: EmployeeId, newId: MappingId): Db {
    if push !in db.pushes then db else
    db.(pushes := WithStatus(db.pushes, push, Success),
        mappings := Upserted(db.mappings, device, face, employee, newId),
        checkpoints := db.checkpoints - {EnrollmentPush(push)})
  }

  function PushFailed(db: Db, push: PushId): Db {
    if push !in db.pushes then db else
    db.(pushes := WithStatus(db.pushes, push, Failed),
        checkpoints := db.checkpoints - {EnrollmentPush(push)})
  }

  function RecoveryFailureRecorded(db: Db, push: PushId, manual: bool): Db {
    if push !in db.pushes then db else
    db.(checkpoints := if manual then WithCheckpoint(db.checkpoints, EnrollmentPush(push), Manual) else db.checkpoints,
        pushes := WithStatus(db.pushes, push, Failed))
  }

  function Terminalized(db: Db, push: PushId): Db {
    var key := EnrollmentPush(push);
    db.(checkpoints := if key in db.checkpoints && db.checkpoints[key] == Prepared
                       then db.checkpoints[key := Manual] else db.checkpoints,
        pushes := if push in db.pushes && !db.pushes[push].status.Terminal()
                  then WithStatus(db.pushes, push, Failed) else db.pushes)
  }

  function Finalized(db: Db, enrollment: EnrollmentId): Db {
    if !Settled(db.pushes, enrollment) || enrollment !in db.enrollments then db else
    db.(enrollments := db.enrollments[enrollment :=
          db.enrollments[enrollment].(status := VerdictOf(db.pushes, enrollment))])
  }

  /** Startup completion of a confirmed device call: push, mapping, enrollment and
      checkpoint in one transaction, all or nothing. */
  function RecoveredSuccess(db: Db, enrollment: EnrollmentId, push: PushId, device: DeviceId,
                            face: FaceId, employee: EmployeeId, newId: MappingId): Db {
    if push !in db.pushes || db.pushes[push].enrollment != enrollment then db else
    var done := PushSucceeded(db, push, device, face, employee, newId);
    if Settled(done.pushes, enrollment) && enrollment !in db.enrollments then db
    else Finalized(done, enrollment)
  }

  function BackfillCompleted(db: Db, device: DeviceId, face: FaceId, employee: EmployeeId, newId: MappingId): Db {
    db.(mappings := Upserted(db.mappings, device, face, employee, newId),
        checkpoints := db.checkpoints - {BackfillPush(device, face)})
  }

  function PurgeCompleted(db: Db, mapping: MappingId): Db {
    db.(mappings := WithoutMapping(db.mappings, mapping),
        checkpoints := db.checkpoints - {PurgeDelete(mapping)})
  }

  function PurgeDeferred(db: Db, mapping: MappingId): Db {
    db.(mappings := MappingPendingDelete(db.mappings, mapping))
  }
}
