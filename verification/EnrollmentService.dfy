/**
 The enrollment service over its tables, statement by statement. A transaction that bails
 out leaves the tables as they were; `committed` tells the caller which happened.
 */
module EnrollmentService {
  import opened Options
  import opened EnrollmentTables
  import R = EnrollmentRecovery

  datatype RetryOutcome = NoSuchPush | NotRetryable | ReconciliationRequired | Retrying(push: PushId)

  /** One pending push with a prepared checkpoint per target, and every other row as it was. */
  ghost predicate RowsOpened(pushes: Pushes, checkpoints: Checkpoints, pushes': Pushes, checkpoints': Checkpoints,
                             enrollment: EnrollmentId, targets: map<PushId, DeviceId>)
  {
    && pushes'.Keys == pushes.Keys + targets.Keys
    && (forall q :: q in pushes ==> q in pushes' && pushes'[q] == pushes[q])
    && (forall p :: p in targets ==>
          && p in pushes' && pushes'[p] == PushRow(enrollment, targets[p], Pending)
          && EnrollmentPush(p) in checkpoints' && checkpoints'[EnrollmentPush(p)] == Prepared)
    && forall k: OperationKey :: !(k.EnrollmentPush? && k.push in targets) ==>
         (k in checkpoints' <==> k in checkpoints) && (k in checkpoints' ==> checkpoints'[k] == checkpoints[k])
  }

  /** What opening an enrolment leaves: those rows, the enrolment, the face if there was none, and
      everything else as it was. */
  ghost predicate Opened(before: Db, after: Db, enrollment: EnrollmentId, employee: EmployeeId, newFace: FaceId,
                         targets: map<PushId, DeviceId>)
  {
    && RowsOpened(before.pushes, before.checkpoints, after.pushes, after.checkpoints, enrollment, targets)
    && after.enrollments == before.enrollments[enrollment := EnrollmentRow(employee, Ongoing)]
    && employee in before.employees
    && after.employees == before.employees[employee := EmployeeRow(
         if before.employees[employee].face.Some? then before.employees[employee].face else Some(newFace),
         before.employees[employee].active)]
    && after.mappings == before.mappings && after.devices == before.devices
  }

  lemma NewRowsOpen(pushes: Pushes, checkpoints: Checkpoints, enrollment: EnrollmentId, targets: map<PushId, DeviceId>)
    requires targets.Keys !! pushes.Keys
    ensures RowsOpened(pushes, checkpoints, pushes + PendingRows(enrollment, targets, targets.Keys),
                       checkpoints + PreparedRows(targets.Keys), enrollment, targets)
  {
  }

  /** The employee with a face: the one there is, or the new one. */
  lemma WithFace(employees: Employees, employee: EmployeeId, newFace: FaceId)
    requires employee in employees
    ensures var row := employees[employee];
      && employees[employee := EmployeeRow(if row.face.Some? then row.face else Some(newFace), row.active)]
         == (if row.face.None? then employees[employee := row.(face := Some(newFace))] else employees)
      && row.(face := if row.face.Some? then row.face else Some(newFace))
         == EmployeeRow(if row.face.Some? then row.face else Some(newFace), row.active)
  {
  }

  lemma EnrolledIs(db: Db, enrollment: EnrollmentId, employee: EmployeeId, newFace: FaceId, targets: map<PushId, DeviceId>)
    requires employee in db.employees
    ensures Enrolled(db, enrollment, employee, newFace, targets)
      == Db(db.pushes + PendingRows(enrollment, targets, targets.Keys), db.checkpoints + PreparedRows(targets.Keys), db.mappings,
            db.enrollments[enrollment := EnrollmentRow(employee, Ongoing)],
            if db.employees[employee].face.None?
            then db.employees[employee := db.employees[employee].(face := Some(newFace))] else db.employees, db.devices)
  {
    WithFace(db.employees, employee, newFace);
    hide PendingRows;
    hide PreparedRows;
    hide PushKeys;
  }

  lemma EnrolledOpens(db: Db, enrollment: EnrollmentId, employee: EmployeeId, newFace: FaceId, targets: map<PushId, DeviceId>)
    requires employee in db.employees && targets.Keys !! db.pushes.Keys
    ensures Opened(db, Enrolled(db, enrollment, employee, newFace, targets), enrollment, employee, newFace, targets)
  {
    EnrolledIs(db, enrollment, employee, newFace, targets);
    NewRowsOpen(db.pushes, db.checkpoints, enrollment, targets);
    WithFace(db.employees, employee, newFace);
    hide Enrolled;
    hide PendingRows;
    hide PreparedRows;
    hide PushKeys;
    hide RowsOpened;
  }

  class EnrollmentDatabase {
    var pushes: Pushes
    var checkpoints: Checkpoints
    var mappings: Mappings
    var enrollments: map<EnrollmentId, EnrollmentRow>
    var employees: Employees
    var devices: set<DeviceId>

    constructor (db: Db)
      ensures Contents() == db
    {
      pushes, checkpoints, mappings := db.pushes, db.checkpoints, db.mappings;
      enrollments, employees, devices := db.enrollments, db.employees, db.devices;
    }

    ghost function Contents(): Db
      reads this
    {
      Db(pushes, checkpoints, mappings, enrollments, employees, devices)
    }

    // ------------------------------------------------------------ transactions

    method StartEnrollment(enrollment: EnrollmentId, employee: EmployeeId, newFace: FaceId,
                           targets: map<PushId, DeviceId>) returns (committed: bool)
      requires enrollment !in enrollments && targets.Keys !! pushes.Keys
      modifies this
      ensures committed == (employee in old(employees)) && (!committed ==> Contents() == old(Contents()))
      ensures committed ==> Opened(old(Contents()), Contents(), enrollment, employee, newFace, targets)
      ensures Contents() == Enrolled(old(Contents()), enrollment, employee, newFace, targets)
    {
      hide PendingRows;
      hide PreparedRows;
      hide PushKeys;
      hide Opened;
      if employee !in employees { return false; }
      EnrolledIs(Contents(), enrollment, employee, newFace, targets);
      EnrolledOpens(Contents(), enrollment, employee, newFace, targets);
      enrollments := enrollments[enrollment := EnrollmentRow(employee, Ongoing)];
      if employees[employee].face.None? {
        employees := employees[employee := employees[employee].(face := Some(newFace))];
      }
      InsertTargets(enrollment, targets);
      committed := true;
    }

    /** One push row and one `prepared` checkpoint per active device. */
    method InsertTargets(enrollment: EnrollmentId, targets: map<PushId, DeviceId>)
      requires targets.Keys !! pushes.Keys
      modifies this`pushes, this`checkpoints
      ensures pushes == old(pushes) + PendingRows(enrollment, targets, targets.Keys)
      ensures checkpoints == old(checkpoints) + PreparedRows(targets.Keys)
    {
      var todo := targets.Keys;
      while todo != {}
        invariant todo <= targets.Keys
        invariant pushes == old(pushes) + PendingRows(enrollment, targets, targets.Keys - todo)
        invariant checkpoints == old(checkpoints) + PreparedRows(targets.Keys - todo)
      {
        hide PendingRows;
        hide PreparedRows;
        var p :| p in todo;
        assert targets.Keys - (todo - {p}) == (targets.Keys - todo) + {p};
        InsertedPush(old(pushes), enrollment, targets, targets.Keys - todo, p);
        InsertedCheckpoint(old(checkpoints), targets.Keys - todo, p);
        pushes := pushes[p := PushRow(enrollment, targets[p], Pending)];
        checkpoints := checkpoints[EnrollmentPush(p) := Prepared];
        todo := todo - {p};
      }
      assert targets.Keys - todo == targets.Keys;
    }

    /** Public retry: the row is looked up by enrollment and device, which identify it. */
    method RetryEnrollmentPush(enrollment: EnrollmentId, device: DeviceId) returns (outcome: RetryOutcome)
      modifies this
      ensures match outcome
        case Retrying(p) =>
          && p in old(pushes) && old(pushes)[p].enrollment == enrollment && old(pushes)[p].device == device
          && old(pushes)[p].status == Failed && EnrollmentPush(p) !in old(checkpoints)
          && pushes == old(pushes)[p := PushRow(enrollment, device, Pending)]
          && checkpoints == old(checkpoints)[EnrollmentPush(p) := Prepared]
          && Retryable(old(Contents()), p) && Contents() == Retried(old(Contents()), p)
        case NoSuchPush =>
          && Contents() == old(Contents())
          && forall p :: p in pushes ==> pushes[p].enrollment != enrollment || pushes[p].device != device
        case _ =>
          && Contents() == old(Contents())
          && exists p :: p in pushes && pushes[p].enrollment == enrollment && pushes[p].device == device
               && !Retryable(Contents(), p)
               && (if outcome.NotRetryable? then pushes[p].status != Failed
                   else pushes[p].status == Failed && EnrollmentPush(p) in checkpoints)
    {
      if p :| p in pushes && pushes[p].enrollment == enrollment && pushes[p].device == device {
        if pushes[p].status != Failed { return NotRetryable; }
        if EnrollmentPush(p) in checkpoints { return ReconciliationRequired; }
        pushes := pushes[p := pushes[p].(status := Pending)];
        checkpoints := checkpoints[EnrollmentPush(p) := Prepared];
        return Retrying(p);
      }
      return NoSuchPush;
    }

    /** `INSERT OR IGNORE`, then the state of whatever row is there. */
    method AdmitDeviceOperation(key: OperationKey) returns (state: CheckpointState, isNew: bool)
      modifies this
      ensures isNew == (key !in old(checkpoints))
      ensures state == if isNew then Prepared else old(checkpoints)[key]
      ensures Contents() == old(Contents()).(checkpoints := old(checkpoints)[key := state])
    {
      isNew := key !in checkpoints;
      if isNew { checkpoints := checkpoints[key := Prepared]; }
      state := checkpoints[key];
    }

    method MarkDeviceOperation(key: OperationKey, state: CheckpointState)
      modifies this`checkpoints
      ensures checkpoints == if key in old(checkpoints) then old(checkpoints)[key := state] else old(checkpoints)
      ensures Contents() == OperationMarked(old(Contents()), key, state)
    {
      if key in checkpoints { checkpoints := checkpoints[key := state]; }
    }

    method MarkPushInProgress(push: PushId)
      modifies this`pushes
      ensures pushes.Keys == old(pushes).Keys && forall q :: q in pushes ==>
        pushes[q] == if q == push then PushRow(old(pushes)[q].enrollment, old(pushes)[q].device, InProgress) else old(pushes)[q]
      ensures Contents() == MarkedInProgress(old(Contents()), push)
    {
      if push in pushes { pushes := pushes[push := pushes[push].(status := InProgress)]; }
    }

    method UpsertMapping(device: DeviceId, face: FaceId, employee: EmployeeId, newId: MappingId)
      modifies this`mappings
      ensures (device, face) in mappings && mappings[(device, face)].employee == employee && mappings[(device, face)].state == Active
      ensures mappings[(device, face)].id == if (device, face) in old(mappings) then old(mappings)[(device, face)].id else newId
      ensures forall t :: t != (device, face) ==>
        (t in mappings <==> t in old(mappings)) && (t in mappings ==> mappings[t] == old(mappings)[t])
      ensures mappings == Upserted(old(mappings), device, face, employee, newId)
    {
      if (device, face) in mappings {
        mappings := mappings[(device, face) := mappings[(device, face)].(employee := employee, state := Active)];
      } else {
        mappings := mappings[(device, face) := MappingRow(newId, employee, Active)];
      }
    }

    method CompletePushSuccess(push: PushId, device: DeviceId, face: FaceId, employee: EmployeeId, newId: MappingId)
      returns (committed: bool)
      modifies this`pushes, this`mappings, this`checkpoints
      ensures committed == (push in old(pushes)) && (!committed ==> Contents() == old(Contents()))
      ensures committed ==>
        && pushes == old(pushes)[push := PushRow(old(pushes)[push].enrollment, old(pushes)[push].device, Success)]
        && checkpoints == old(checkpoints) - {EnrollmentPush(push)}
        && (device, face) in mappings && mappings[(device, face)].employee == employee && mappings[(device, face)].state == Active
      ensures Contents() == PushSucceeded(old(Contents()), push, device, face, employee, newId)
    {
      if push !in pushes { return false; }
      pushes := pushes[push := pushes[push].(status := Success)];
      UpsertMapping(device, face, employee, newId);
      checkpoints := checkpoints - {EnrollmentPush(push)};
      committed := true;
    }

    method CompletePushFailure(push: PushId) returns (committed: bool)
      modifies this`pushes, this`checkpoints
      ensures committed == (push in old(pushes)) && (!committed ==> Contents() == old(Contents()))
      ensures committed ==>
        && pushes == old(pushes)[push := PushRow(old(pushes)[push].enrollment, old(pushes)[push].device, Failed)]
        && checkpoints == old(checkpoints) - {EnrollmentPush(push)}
      ensures Contents() == PushFailed(old(Contents()), push)
    {
      if push !in pushes { return false; }
      pushes := pushes[push := pushes[push].(status := Failed)];
      checkpoints := checkpoints - {EnrollmentPush(push)};
      committed := true;
    }

    /** The checkpoint is updated first; a missing push row rolls that back. */
    method RecordPushRecoveryFailure(push: PushId, manual: bool) returns (committed: bool)
      modifies this`pushes, this`checkpoints
      ensures committed == (push in old(pushes)) && (!committed ==> Contents() == old(Contents()))
      ensures committed ==>
        && pushes == old(pushes)[push := PushRow(old(pushes)[push].enrollment, old(pushes)[push].device, Failed)]
        && checkpoints == (if manual && EnrollmentPush(push) in old(checkpoints) then old(checkpoints)[EnrollmentPush(push) := Manual]
                           else old(checkpoints))
      ensures Contents() == RecoveryFailureRecorded(old(Contents()), push, manual)
    {
      var key, before := EnrollmentPush(push), checkpoints;
      if manual && key in checkpoints { checkpoints := checkpoints[key := Manual]; }
      if push !in pushes {
        checkpoints := before;
        return false;
      }
      pushes := pushes[push := pushes[push].(status := Failed)];
      committed := true;
    }

    method TerminalizeAuthorizedFailure(push: PushId)
      modifies this`pushes, this`checkpoints
      ensures checkpoints == if EnrollmentPush(push) in old(checkpoints) && old(checkpoints)[EnrollmentPush(push)] == Prepared
                             then old(checkpoints)[EnrollmentPush(push) := Manual] else old(checkpoints)
      ensures pushes.Keys == old(pushes).Keys && forall q :: q in pushes ==>
        pushes[q] == if q == push && old(pushes)[q].status in {Pending, InProgress}
                     then PushRow(old(pushes)[q].enrollment, old(pushes)[q].device, Failed) else old(pushes)[q]
      ensures Contents() == Terminalized(old(Contents()), push)
    {
      var key := EnrollmentPush(push);
      if key in checkpoints && checkpoints[key] == Prepared { checkpoints := checkpoints[key := Manual]; }
      if push in pushes && (pushes[push].status == Pending || pushes[push].status == InProgress) {
        pushes := pushes[push := pushes[push].(status := Failed)];
      }
    }

    /** Counts and verdict in one transaction; a settled enrollment without a row bails out. */
    method FinalizeEnrollment(enrollment: EnrollmentId) returns (committed: bool)
      modifies this`enrollments
      ensures (exists p :: p in pushes && pushes[p].enrollment == enrollment && pushes[p].status in {Pending, InProgress}) ==>
        committed && enrollments == old(enrollments)
      ensures (forall p :: p in pushes && pushes[p].enrollment == enrollment ==> pushes[p].status.Terminal()) ==>
        committed == (enrollment in old(enrollments))
        && (committed ==> enrollments == old(enrollments)[enrollment := EnrollmentRow(old(enrollments)[enrollment].employee,
              if forall p :: p in pushes && pushes[p].enrollment == enrollment ==> pushes[p].status == Failed then NoneSucceeded
              else if forall p :: p in pushes && pushes[p].enrollment == enrollment ==> pushes[p].status == Success then AllSucceeded
              else Partial)])
      ensures !committed ==> enrollments == old(enrollments)
      ensures committed == (!Settled(old(pushes), enrollment) || enrollment in old(enrollments))
      ensures Contents() == Finalized(old(Contents()), enrollment)
    {
      var success := CountStatus(pushes, enrollment, Success);
      var failed := CountStatus(pushes, enrollment, Failed);
      var total := |PushesOf(pushes, enrollment)|;
      var nonterminal := CountStatus(pushes, enrollment, Pending) + CountStatus(pushes, enrollment, InProgress);
      SettledMeaning(pushes, enrollment);
      if nonterminal != 0 { return true; }
      VerdictByRows(pushes, enrollment);
      if enrollment !in enrollments { return false; }
      var verdict := Partial;
      if total == 0 || success == 0 { verdict := NoneSucceeded; } else if failed == 0 { verdict := AllSucceeded; }
      enrollments := enrollments[enrollment := enrollments[enrollment].(status := verdict)];
      committed := true;
    }

    method CompleteRecoveredPushSuccess(enrollment: EnrollmentId, push: PushId, device: DeviceId, face: FaceId,
                                        employee: EmployeeId, newId: MappingId) returns (committed: bool)
      modifies this`pushes, this`mappings, this`checkpoints, this`enrollments
      ensures !committed ==> Contents() == old(Contents())
      ensures committed ==>
        && push in old(pushes) && pushes == old(pushes)[push := PushRow(enrollment, old(pushes)[push].device, Success)]
        && checkpoints == old(checkpoints) - {EnrollmentPush(push)}
        && (device, face) in mappings && mappings[(device, face)].employee == employee && mappings[(device, face)].state == Active
      ensures Contents() == RecoveredSuccess(old(Contents()), enrollment, push, device, face, employee, newId)
      ensures committed == (push in old(pushes) && old(pushes)[push].enrollment == enrollment
        && (enrollment in old(enrollments) || !Settled(WithStatus(old(pushes), push, Success), enrollment)))
    {
      if push !in pushes || pushes[push].enrollment != enrollment { return false; }
      var beforePushes, beforeMappings, beforeCheckpoints := pushes, mappings, checkpoints;
      pushes := pushes[push := pushes[push].(status := Success)];
      UpsertMapping(device, face, employee, newId);
      checkpoints := checkpoints - {EnrollmentPush(push)};
      committed := FinalizeEnrollment(enrollment);
      if !committed {
        pushes, mappings, checkpoints := beforePushes, beforeMappings, beforeCheckpoints;
      }
    }

    method CompleteBackfillMapping(device: DeviceId, face: FaceId, employee: EmployeeId, newId: MappingId)
      modifies this`mappings, this`checkpoints
      ensures checkpoints == old(checkpoints) - {BackfillPush(device, face)}
      ensures (device, face) in mappings && mappings[(device, face)].employee == employee && mappings[(device, face)].state == Active
      ensures Contents() == BackfillCompleted(old(Contents()), device, face, employee, newId)
    {
      UpsertMapping(device, face, employee, newId);
      checkpoints := checkpoints - {BackfillPush(device, face)};
    }

    method CompletePurgeMapping(mapping: MappingId)
      modifies this`mappings, this`checkpoints
      ensures checkpoints == old(checkpoints) - {PurgeDelete(mapping)}
      ensures forall t :: t in mappings <==> t in old(mappings) && old(mappings)[t].id != mapping
      ensures forall t :: t in mappings ==> mappings[t] == old(mappings)[t]
      ensures Contents() == PurgeCompleted(old(Contents()), mapping)
    {
      mappings := map k | k in mappings && mappings[k].id != mapping :: mappings[k];
      checkpoints := checkpoints - {PurgeDelete(mapping)};
    }

    method MarkMappingPendingDelete(mapping: MappingId)
      modifies this`mappings
      ensures mappings.Keys == old(mappings).Keys && forall t :: t in mappings ==>
        mappings[t] == if old(mappings)[t].id == mapping then MappingRow(mapping, old(mappings)[t].employee, PendingDelete) else old(mappings)[t]
      ensures Contents() == PurgeDeferred(old(Contents()), mapping)
    {
      mappings := map k | k in mappings ::
        if mappings[k].id == mapping then mappings[k].(state := PendingDelete) else mappings[k];
    }

    // --------------------------------------------------------- startup recovery

    method RecoverPush(p: PushId, ids: R.NewIds) returns (ok: bool)
      requires R.UniqueFaces(Contents()) && EnrollmentPush(p) in checkpoints
      modifies this
      ensures ok == R.PushResolvable(old(Contents()), p)
      ensures Contents() == if ok then R.ProcessKey(old(Contents()), EnrollmentPush(p), ids) else old(Contents())
    {
      if p !in pushes || pushes[p].enrollment !in enrollments { return false; }
      var enrollment := pushes[p].enrollment;
      var employee := enrollments[enrollment].employee;
      if employee !in employees || employees[employee].face.None? { return false; }
      var device, face := pushes[p].device, employees[employee].face.value;
      if checkpoints[EnrollmentPush(p)] == DeviceApplied {
        ok := CompleteRecoveredPushSuccess(enrollment, p, device, face, employee, ids(device, face));
      } else {
        ok := RecordPushRecoveryFailure(p, true);
        ok := FinalizeEnrollment(enrollment);
      }
    }

    method RecoverBackfill(device: DeviceId, face: FaceId, ids: R.NewIds) returns (ok: bool)
      requires R.UniqueFaces(Contents()) && BackfillPush(device, face) in checkpoints
      modifies this
      ensures ok == R.KeyResolvable(old(Contents()), BackfillPush(device, face))
      ensures Contents() == if ok then R.ProcessKey(old(Contents()), BackfillPush(device, face), ids) else old(Contents())
    {
      if employee :| employee in employees && employees[employee].face == Some(face) && employees[employee].active {
        if device !in devices { return false; }
        if checkpoints[BackfillPush(device, face)] == DeviceApplied {
          CompleteBackfillMapping(device, face, employee, ids(device, face));
        } else {
          MarkDeviceOperation(BackfillPush(device, face), Manual);
        }
        ok := true;
      } else {
        ok := false;
      }
    }

    method RecoverPurge(mapping: MappingId, ids: R.NewIds) returns (ok: bool)
      requires PurgeDelete(mapping) in checkpoints
      modifies this
      ensures ok == R.KeyResolvable(old(Contents()), PurgeDelete(mapping))
      ensures Contents() == if ok then R.ProcessKey(old(Contents()), PurgeDelete(mapping), ids) else old(Contents())
    {
      if t :| t in mappings && mappings[t].id == mapping {
        if checkpoints[PurgeDelete(mapping)] == DeviceApplied {
          CompletePurgeMapping(mapping);
        } else {
          MarkDeviceOperation(PurgeDelete(mapping), Manual);
          MarkMappingPendingDelete(mapping);
        }
        ok := true;
      } else {
        ok := false;
      }
    }

    method RecoverCheckpoint(key: OperationKey, ids: R.NewIds) returns (ok: bool)
      requires R.UniqueFaces(Contents()) && key in checkpoints
      modifies this
      ensures ok == R.KeyResolvable(old(Contents()), key)
      ensures Contents() == if ok then R.ProcessKey(old(Contents()), key, ids) else old(Contents())
      ensures employees == old(employees)
      ensures forall k :: k in old(checkpoints) && k != key ==> k in checkpoints
    {
      match key
      case EnrollmentPush(p) => ok := RecoverPush(p, ids);
      case BackfillPush(d, f) => ok := RecoverBackfill(d, f, ids);
      case PurgeDelete(m) => ok := RecoverPurge(m, ids);
      hide Settled;
      hide VerdictOf;
    }

    /** `rows` is what the ordered checkpoint query returned. From any resolvable database the
        loop runs to its end and leaves the recovered tables; it stops only at a checkpoint that
        names missing rows. */
    method RecoverStartupCheckpoints(rows: seq<OperationKey>, ids: R.NewIds) returns (ok: bool)
      requires R.UniqueFaces(Contents()) && R.Enumerates(Contents(), rows)
      modifies this
      ensures R.Resolvable(old(Contents())) ==> ok && Contents() == R.Recovered(old(Contents()), ids)
    {
      ghost var db0 := Contents();
      ghost var resolvable := R.Resolvable(db0);
      var i := 0;
      assert rows[0..] == rows;
      while i < |rows|
        invariant 0 <= i <= |rows|
        invariant R.UniqueFaces(Contents()) && forall k :: k in rows[i..] ==> k in checkpoints
        invariant resolvable ==> R.Resolvable(db0) && R.Resolvable(Contents()) && R.Remaining(Contents(), rows[i..])
        invariant resolvable ==> R.Recovered(Contents(), ids) == R.Recovered(db0, ids)
      {
        hide *;
        RestOfRows(rows, i);
        ghost var before := Contents();
        if resolvable {
          R.RecoveryStep(before, rows[i..], ids);
          ResolvableKey(before, rows[i]);
        }
        assert rows[i] in checkpoints;
        ok := RecoverCheckpoint(rows[i], ids);
        if !ok { return false; }
        FacesOf(before, Contents());
        OtherRows(before, rows, i, checkpoints);
        i := i + 1;
      }
      if resolvable { R.NothingRemains(Contents(), ids); }
      ok := true;
    }
  }

  /** The verdict of a settled enrollment, row by row. */
  lemma VerdictByRows(pushes: Pushes, enrollment: EnrollmentId)
    requires Settled(pushes, enrollment)
    ensures VerdictOf(pushes, enrollment)
      == if forall p :: p in pushes && pushes[p].enrollment == enrollment ==> pushes[p].status == Failed then NoneSucceeded
         else if forall p :: p in pushes && pushes[p].enrollment == enrollment ==> pushes[p].status == Success then AllSucceeded
         else Partial
  {
    VerdictMeaning(pushes, enrollment);
    hide Settled;
    hide VerdictOf;
    assert forall p :: p in PushesOf(pushes, enrollment) <==> p in pushes && pushes[p].enrollment == enrollment;
  }

  lemma InsertedPush(before: Pushes, e: EnrollmentId, targets: map<PushId, DeviceId>, done: set<PushId>, p: PushId)
    requires done + {p} <= targets.Keys
    ensures (before + PendingRows(e, targets, done))[p := PushRow(e, targets[p], Pending)]
         == before + PendingRows(e, targets, done + {p})
  {
  }

  lemma InsertedCheckpoint(before: Checkpoints, done: set<PushId>, p: PushId)
    ensures (before + PreparedRows(done))[EnrollmentPush(p) := Prepared] == before + PreparedRows(done + {p})
  {
    assert PushKeys(done + {p}) == PushKeys(done) + {EnrollmentPush(p)};
  }

  lemma RestOfRows(rows: seq<OperationKey>, i: nat)
    requires i < |rows|
    ensures rows[i..] != [] && rows[i..][0] == rows[i] && rows[i..][1..] == rows[i + 1..] && rows[i] in rows[i..]
  {
  }

  lemma ResolvableKey(db: Db, key: OperationKey)
    requires R.Resolvable(db) && key in db.checkpoints
    ensures R.KeyResolvable(db, key)
  {
  }

  lemma FacesOf(db: Db, db': Db)
    requires R.UniqueFaces(db) && db'.employees == db.employees
    ensures R.UniqueFaces(db')
  {
  }

  lemma OtherRows(db: Db, rows: seq<OperationKey>, i: nat, after: Checkpoints)
    requires R.OrderedKeys(rows) && i < |rows|
    requires forall k :: k in rows[i..] ==> k in db.checkpoints
    requires forall k :: k in db.checkpoints && k != rows[i] ==> k in after
    ensures forall k :: k in rows[i + 1..] ==> k in after
  {
    forall k | k in rows[i + 1..] ensures k in rows[i..] && k != rows[i] {}
  }
}
