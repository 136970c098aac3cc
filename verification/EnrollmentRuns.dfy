/**
 What the protocol of `EnrollmentProtocol` can do, so that what holds of its runs is not said of
 nothing: enrolments and retries hand their commands over, the code of an authorized target goes
 through step by step, and a start recovers and serves. And what commands carry, on every run.
 */
module EnrollmentRuns {
  import opened Options
  import opened EnrollmentTables
  import opened EnrollmentProtocol
  import opened EnrollmentPusher
  import R = EnrollmentRecovery

  // ------------------------------------------------------------------ paths

  ghost predicate Path(s: Sys, steps: seq<Step>, s': Sys)
    decreases |steps|
  {
    if steps == [] then s' == s else exists mid :: Next(s, steps[0], mid) && Path(mid, steps[1..], s')
  }

  lemma PathFirst(s: Sys, step: Step, mid: Sys, steps: seq<Step>, s': Sys)
    requires Next(s, step, mid) && Path(mid, steps, s')
    ensures Path(s, [step] + steps, s')
  {
    hide Next;
    assert ([step] + steps)[1..] == steps;
  }

  lemma {:induction false} PathMore(s: Sys, a: seq<Step>, mid: Sys, b: seq<Step>, s': Sys)
    requires Path(s, a, mid) && Path(mid, b, s')
    ensures Path(s, a + b, s')
    decreases |a|
  {
    hide Next;
    if a == [] {
      assert a + b == b;
    } else {
      var next :| Next(s, a[0], next) && Path(next, a[1..], mid);
      PathMore(next, a[1..], mid, b, s');
      assert [a[0]] + (a[1..] + b) == a + b;
      PathFirst(s, a[0], next, a[1..] + b, s');
    }
  }

  // ------------------------------------------------------------------ attempts

  /** The code of an attempt, step by step: the machine goes where the code goes, and nothing but
      the attempt, its history and its tables moves. */
  lemma {:induction false} AttemptPath(s: Sys, i: nat, script: seq<Event>) returns (steps: seq<Step>, s': Sys)
    requires s.phase == Serving && i in s.attempts && Replay(s.db, s.attempts[i], script).Some?
    ensures Path(s, steps, s') && s'.phase == Serving
    ensures var (db, pc) := Replay(s.db, s.attempts[i], script).value;
      s'.db == db && s'.attempts == s.attempts[i := s.attempts[i].(pc := pc)]
    decreases |script|
  {
    hide Advance;
    hide NextHistory;
    if script == [] {
      steps, s' := [], s;
    } else {
      var a := s.attempts[i];
      var (db, pc) := Advance(s.db, a, script[0]).value;
      var mid := s.(db := db, attempts := s.attempts[i := a.(pc := pc)], calls := NextHistory(s.calls, a, script[0]));
      assert Next(s, Work(i, script[0]), mid);
      hide Next;
      var more;
      more, s' := AttemptPath(mid, i, script[1..]);
      PathFirst(s, Work(i, script[0]), mid, more, s');
      steps := [Work(i, script[0])] + more;
    }
  }

  /** A number no attempt has. */
  lemma FreshId(attempts: map<nat, Attempt>) returns (i: nat)
    ensures i !in attempts
  {
    i := Above(attempts.Keys);
  }

  lemma {:induction false} Above(ids: set<nat>) returns (bound: nat)
    ensures forall i :: i in ids ==> i < bound
    decreases |ids|
  {
    if ids == {} {
      bound := 0;
    } else {
      var i :| i in ids;
      var rest := Above(ids - {i});
      bound := if rest > i then rest else i + 1;
      forall j | j in ids ensures j < bound { assert j == i || j in ids - {i}; }
    }
  }

  /** The face an enrolment is for: the one the employee has, or the new one. */
  function FaceFor(employees: Employees, employee: EmployeeId, newFace: FaceId): FaceId
    requires employee in employees
  {
    if employees[employee].face.Some? then employees[employee].face.value else newFace
  }

  lemma OneHandedOver(s: Sys, db': Db, i: nat, a: Attempt, pushes: set<PushId>)
    requires i !in s.attempts && a.pc == Queued && a.push in pushes && ReadFrom(db', a)
    ensures HandsOver(s, db', map[i := a], pushes) && s.attempts + map[i := a] == s.attempts[i := a]
  {
    hide ReadFrom;
  }

  lemma EnrolledReads(db: Db, e: EnrollmentId, employee: EmployeeId, newFace: FaceId, targets: map<PushId, DeviceId>, p: PushId, newId: MappingId)
    requires employee in db.employees && targets.Keys !! db.pushes.Keys && p in targets
    ensures ReadFrom(Enrolled(db, e, employee, newFace, targets),
                     Attempt(p, targets[p], FaceFor(db.employees, employee, newFace), employee, newId, Queued))
  {
    EnrolledRow(db, e, employee, newFace, targets, p);
    hide Enrolled;
  }

  lemma EnrolledRow(db: Db, e: EnrollmentId, employee: EmployeeId, newFace: FaceId, targets: map<PushId, DeviceId>, p: PushId)
    requires employee in db.employees && targets.Keys !! db.pushes.Keys && p in targets
    ensures var db' := Enrolled(db, e, employee, newFace, targets);
      && p in db'.pushes && db'.pushes[p] == PushRow(e, targets[p], Pending)
      && e in db'.enrollments && db'.enrollments[e].employee == employee
      && employee in db'.employees && db'.employees[employee].face == Some(FaceFor(db.employees, employee, newFace))
  {
  }

  /** While the service runs, an employee can be enrolled for any targets, with a command for any of
      them: it names the target's device, the employee and the employee's face. */
  lemma EnrollStep(s: Sys, e: EnrollmentId, employee: EmployeeId, newFace: FaceId, targets: map<PushId, DeviceId>, p: PushId, newId: MappingId)
    returns (i: nat, s': Sys, step: Step)
    requires s.phase == Serving && e !in s.db.enrollments && employee in s.db.employees && !R.HasOwner(s.db.employees, newFace)
    requires targets.Keys !! s.db.pushes.Keys && p in targets
    ensures Next(s, step, s') && s'.db == Enrolled(s.db, e, employee, newFace, targets) && s'.phase == Serving
    ensures i !in s.attempts
    ensures s'.attempts
      == s.attempts[i := Attempt(p, targets[p], FaceFor(s.db.employees, employee, newFace), employee, newId, Queued)]
  {
    hide Enrolled;
    hide HandsOver;
    hide ReadFrom;
    hide FaceFor;
    hide R.HasOwner;
    i := FreshId(s.attempts);
    var a := Attempt(p, targets[p], FaceFor(s.db.employees, employee, newFace), employee, newId, Queued);
    var db' := Enrolled(s.db, e, employee, newFace, targets);
    EnrolledReads(s.db, e, employee, newFace, targets, p, newId);
    OneHandedOver(s, db', i, a, targets.Keys);
    s' := s.(db := db', attempts := s.attempts + map[i := a]);
    step := Enroll(e, employee, newFace, targets, map[i := a]);
  }

  /** So can a push that may be retried, with the columns of its rows. */
  lemma RetryStep(s: Sys, p: PushId, newId: MappingId) returns (i: nat, s': Sys, step: Step)
    requires s.phase == Serving && Retryable(s.db, p) && R.PushResolvable(s.db, p)
    ensures Next(s, step, s') && s'.db == Retried(s.db, p) && s'.phase == Serving && i !in s.attempts
    ensures s'.attempts
      == s.attempts[i := Attempt(p, s.db.pushes[p].device, R.FaceOf(s.db, p), R.EmployeeOf(s.db, p), newId, Queued)]
  {
    i := FreshId(s.attempts);
    var a := Attempt(p, s.db.pushes[p].device, R.FaceOf(s.db, p), R.EmployeeOf(s.db, p), newId, Queued);
    var db' := Retried(s.db, p);
    assert ReadFrom(db', a) by { assert R.PushResolvable(db', p); }
    hide Retried;
    hide Retryable;
    hide HandsOver;
    hide ReadFrom;
    hide R.FaceOf;
    hide R.EmployeeOf;
    hide R.PushResolvable;
    OneHandedOver(s, db', i, a, {p});
    s' := s.(db := db', attempts := s.attempts + map[i := a]);
    step := Retry(p, map[i := a]);
  }

  /** An enrolled target from the request to the end of its attempt, whatever the world does: push and
      checkpoint end as the code says, and a success has put down the mapping of the target's device
      and the employee's face. */
  lemma EnrolmentGoesThrough(s: Sys, e: EnrollmentId, employee: EmployeeId, newFace: FaceId, targets: map<PushId, DeviceId>,
                             p: PushId, newId: MappingId, world: World) returns (steps: seq<Step>, s': Sys)
    requires s.phase == Serving && e !in s.db.enrollments && employee in s.db.employees && !R.HasOwner(s.db.employees, newFace)
    requires targets.Keys !! s.db.pushes.Keys && p in targets
    ensures Path(s, steps, s') && s'.phase == Serving
    ensures p in s'.db.pushes && s'.db.pushes[p] == PushRow(e, targets[p], EndStatus(world, Pending))
    ensures CheckpointOf(s'.db, p) == EndCheckpoint(world, Some(Prepared))
    ensures Succeeds(world) ==>
      var t := (targets[p], FaceFor(s.db.employees, employee, newFace));
      t in s'.db.mappings && s'.db.mappings[t].employee == employee && s'.db.mappings[t].state == Active
  {
    hide *;
    var i, mid, step := EnrollStep(s, e, employee, newFace, targets, p, newId);
    EnrolledTarget(s.db, e, employee, newFace, targets, p);
    AttemptEnds(mid.db, mid.attempts[i], world);
    var more;
    more, s' := AttemptPath(mid, i, Script(world));
    PathFirst(s, step, mid, more, s');
    steps := [step] + more;
    LeavesRow(mid.db, s'.db, p, EndStatus(world, Pending), EndCheckpoint(world, Some(Prepared)));
  }

  lemma EnrolledTarget(db: Db, e: EnrollmentId, employee: EmployeeId, newFace: FaceId, targets: map<PushId, DeviceId>, p: PushId)
    requires employee in db.employees && targets.Keys !! db.pushes.Keys && p in targets
    ensures var db' := Enrolled(db, e, employee, newFace, targets);
      p in db'.pushes && db'.pushes[p] == PushRow(e, targets[p], Pending) && CheckpointOf(db', p) == Some(Prepared)
  {
    assert EnrollmentPush(p) in PushKeys(targets.Keys);
  }

  lemma LeavesRow(before: Db, after: Db, p: PushId, status: PushStatus, checkpoint: Option<CheckpointState>)
    requires Leaves(before, after, p, status, checkpoint)
    ensures p in before.pushes && p in after.pushes && CheckpointOf(after, p) == checkpoint
    ensures after.pushes[p] == PushRow(before.pushes[p].enrollment, before.pushes[p].device, status)
  {
  }

  // ------------------------------------------------------------------ recovery

  /** One checkpoint, in one or two transactions. */
  lemma KeyPath(s: Sys, ids: R.NewIds) returns (steps: seq<Step>, s': Sys)
    requires s.phase.Recovering? && s.phase.todo != [] && !s.phase.half && s.phase.todo[0] in s.db.checkpoints
    ensures Path(s, steps, s')
    ensures s' == s.(db := R.ProcessKey(s.db, s.phase.todo[0], ids), phase := Recovering(s.phase.todo[1..], false))
  {
    var todo := s.phase.todo;
    var key := todo[0];
    var first := R.ApplyTx(s.db, R.FirstTx(s.db, key), ids);
    if R.SecondTx(s.db, key).None? {
      s' := s.(db := first, phase := Recovering(todo[1..], false));
      hide R.ApplyTx;
      hide R.FirstTx;
      hide R.SecondTx;
      assert Next(s, RecoverNext(ids), s');
      hide Next;
      PathFirst(s, RecoverNext(ids), s', [], s');
      steps := [RecoverNext(ids)] + [];
    } else {
      HalfFacts(s.db, key, ids);
      hide R.ApplyTx;
      hide R.FirstTx;
      hide R.SecondTx;
      var mid := s.(db := first, phase := Recovering(todo, true));
      s' := s.(db := R.ApplyTx(first, R.SecondTx(s.db, key).value, ids), phase := Recovering(todo[1..], false));
      assert Next(s, RecoverNext(ids), mid);
      assert Next(mid, RecoverNext(ids), s');
      hide Next;
      PathFirst(mid, RecoverNext(ids), s', [], s');
      PathFirst(s, RecoverNext(ids), mid, [RecoverNext(ids)] + [], s');
      steps := [RecoverNext(ids)] + ([RecoverNext(ids)] + []);
    }
  }

  lemma {:induction false} TodoPath(s: Sys, ids: R.NewIds) returns (steps: seq<Step>, s': Sys)
    requires s.phase.Recovering? && !s.phase.half && R.Resolvable(s.db) && R.Remaining(s.db, s.phase.todo)
    ensures Path(s, steps, s') && s' == s.(db := R.Recovered(s.db, ids), phase := Recovering([], false))
    decreases |s.phase.todo|
  {
    if s.phase.todo == [] {
      R.NothingRemains(s.db, ids);
      hide *;
      steps, s' := [], s;
      PathNowhere(s);
    } else {
      hide *;
      R.RemainingHead(s.db, s.phase.todo);
      R.RecoveryStep(s.db, s.phase.todo, ids);
      var first, mid := KeyPath(s, ids);
      var more;
      more, s' := TodoPath(mid, ids);
      PathMore(s, first, mid, more, s');
      steps := first + more;
    }
  }

  lemma PathNowhere(s: Sys)
    ensures Path(s, [], s)
  {
  }

  /** A process that is down can start: it processes the checkpoints in the order the database lists
      them, ends with the recovered tables, and serves. */
  lemma BootGoesThrough(s: Sys, order: seq<OperationKey>, ids: R.NewIds) returns (steps: seq<Step>, s': Sys)
    requires s.phase == Down && R.Resolvable(s.db) && R.Enumerates(s.db, order)
    ensures Path(s, steps, s') && s' == s.(db := R.Recovered(s.db, ids), phase := Serving)
  {
    var booted := s.(phase := Recovering(order, false));
    assert Next(s, Boot(order), booted);
    assert R.Remaining(s.db, order);
    hide *;
    var more, done := TodoPath(booted, ids);
    s' := done.(phase := Serving);
    ServeStep(done, s');
    PathNowhere(s');
    PathFirst(done, Serve, s', [], s');
    PathMore(booted, more, done, [Serve] + [], s');
    PathFirst(s, Boot(order), booted, more + ([Serve] + []), s');
    steps := [Boot(order)] + (more + ([Serve] + []));
  }

  lemma ServeStep(s: Sys, s': Sys)
    requires s.phase == Recovering([], false) && s' == s.(phase := Serving)
    ensures Next(s, Serve, s')
  {
  }

  // ------------------------------------------------------- what commands carry

  /** An attempt works with the columns of its push: the device of the row, and the employee of its
      enrolment with that employee's face. */
  ghost predicate Faithful(db: Db, a: Attempt) {
    && a.push in db.pushes && a.device == db.pushes[a.push].device
    && db.pushes[a.push].enrollment in db.enrollments
    && a.employee == db.enrollments[db.pushes[a.push].enrollment].employee
    && a.employee in db.employees && db.employees[a.employee].face == Some(a.face)
  }

  ghost predicate AllFaithful(s: Sys) { forall i :: i in s.attempts ==> Faithful(s.db, s.attempts[i]) }

  /** Rows and their references stay, and so do faces once there. */
  ghost predicate Steady(db: Db, db': Db) {
    && (forall p :: p in db.pushes ==> p in db'.pushes && db'.pushes[p].device == db.pushes[p].device
                                       && db'.pushes[p].enrollment == db.pushes[p].enrollment)
    && (forall e :: e in db.enrollments ==> e in db'.enrollments && db'.enrollments[e].employee == db.enrollments[e].employee)
    && (forall x :: x in db.employees ==> x in db'.employees && (db.employees[x].face.Some? ==> db'.employees[x].face == db.employees[x].face))
  }

  lemma SteadyKeeps(db: Db, db': Db, a: Attempt)
    requires Steady(db, db') && Faithful(db, a)
    ensures Faithful(db', a)
  {
  }

  lemma LocalIsSteady(db: Db, db': Db, p: PushId)
    requires Local(db, db', p)
    ensures Steady(db, db')
  {
  }

  lemma EnrolledIsSteady(db: Db, e: EnrollmentId, employee: EmployeeId, face: FaceId, targets: map<PushId, DeviceId>)
    requires e !in db.enrollments && targets.Keys !! db.pushes.Keys
    ensures Steady(db, Enrolled(db, e, employee, face, targets))
  {
  }

  lemma OthersAreSteady(db: Db, p: PushId, e: EnrollmentId)
    ensures Steady(db, Retried(db, p)) && Steady(db, Finalized(db, e))
  {
    hide Settled;
    hide VerdictOf;
  }

  lemma HandedOverIsFaithful(s: Sys, db': Db, commands: map<nat, Attempt>, pushes: set<PushId>, i: nat)
    requires HandsOver(s, db', commands, pushes) && i in commands
    ensures Faithful(db', commands[i])
  {
  }

  /** What a step does to the attempts there are, and which ones it brings. */
  lemma StepIsSteady(s: Sys, step: Step, s': Sys)
    requires PhaseInv(s.db, s.attempts, s.phase) && Next(s, step, s')
    ensures s'.attempts != map[] ==> Steady(s.db, s'.db)
    ensures forall i :: i in s'.attempts && i in s.attempts ==> s'.attempts[i].(pc := s.attempts[i].pc) == s.attempts[i]
    ensures forall i :: i in s'.attempts && i !in s.attempts ==> Faithful(s'.db, s'.attempts[i])
  {
    hide Enrolled;
    hide Retried;
    hide Finalized;
    hide Advance;
    hide Local;
    hide Steady;
    hide Faithful;
    hide HandsOver;
    hide R.HasOwner;
    hide Retryable;
    match step {
      case Enroll(e, employee, face, targets, commands) =>
        EnrolledIsSteady(s.db, e, employee, face, targets);
        AllHandedOver(s, s'.db, commands, targets.Keys);
      case Retry(p, commands) =>
        OthersAreSteady(s.db, p, 0);
        AllHandedOver(s, s'.db, commands, {p});
      case Work(i, event) =>
        AdvanceIsLocal(s.db, s.attempts[i], event);
        LocalIsSteady(s.db, s'.db, s.attempts[i].push);
      case Finalize(e) => OthersAreSteady(s.db, 0, e);
      case Crash => {}
      case Boot(_) => {}
      case RecoverNext(_) => {}
      case Serve => {}
    }
  }

  lemma AllHandedOver(s: Sys, db': Db, commands: map<nat, Attempt>, pushes: set<PushId>)
    requires HandsOver(s, db', commands, pushes)
    ensures commands.Keys !! s.attempts.Keys && forall i :: i in commands ==> Faithful(db', commands[i])
  {
    forall i | i in commands ensures Faithful(db', commands[i]) { HandedOverIsFaithful(s, db', commands, pushes, i); }
    hide Faithful;
    hide ReadFrom;
  }

  lemma SamePlace(db: Db, a: Attempt, b: Attempt)
    requires Faithful(db, a) && b.(pc := a.pc) == a
    ensures Faithful(db, b)
  {
  }

  lemma FaithfulStep(s: Sys, step: Step, s': Sys)
    requires PhaseInv(s.db, s.attempts, s.phase) && AllFaithful(s) && Next(s, step, s')
    ensures AllFaithful(s')
  {
    StepIsSteady(s, step, s');
    hide Next;
    hide Faithful;
    hide Steady;
    hide PhaseInv;
    forall i | i in s'.attempts ensures Faithful(s'.db, s'.attempts[i]) {
      if i in s.attempts {
        SteadyKeeps(s.db, s'.db, s.attempts[i]);
        SamePlace(s'.db, s.attempts[i], s'.attempts[i]);
      }
    }
  }

  /** In every reachable state. */
  lemma {:induction false} AttemptsAreFaithful(states: seq<Sys>, steps: seq<Step>, n: nat)
    requires IsRun(states, steps) && n < |states|
    ensures forall i :: i in states[n].attempts ==> Faithful(states[n].db, states[n].attempts[i])
  {
    hide Next;
    hide Inv;
    if n > 0 {
      AttemptsAreFaithful(states, steps, n - 1);
      RunInv(states, steps, n - 1);
      InvParts(states[n - 1]);
      FaithfulStep(states[n - 1], steps[n - 1], states[n]);
    }
  }
}
