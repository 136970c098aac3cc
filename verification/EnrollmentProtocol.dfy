/**
 The enrollment device-operation protocol as a state machine over its atomic steps: queued
 transactions, device replies, crashes and restarts, for any number of concurrent attempts.
 The main result is that a device call for a push is never repeated once a call for it was
 applied or has an unknown outcome.
 */
module EnrollmentProtocol {
  import opened Options
  import opened EnrollmentTables
  import R = EnrollmentRecovery

  // --------------------------------------------------------- one authorized attempt

  /** Where an authorized attempt stands; each is the point before its next atomic step. */
  datatype Pc =
    | Queued            // handed to the dispatcher after its transaction committed
    | Refused           // the tracker no longer admits it
    | MarkLost          // the in-progress mark did not commit
    | Building          // marked in progress; the reader is still to be built
    | Unreachable       // no reader could be built: the call was never made
    | Calling           // the device call is out
    | Confirmed         // the device accepted the face
    | CheckpointLost    // ... but that could not be recorded
    | Checkpointed      // ... and that is durable
    | MappingLost       // ... but completion did not commit
    | Denied            // the device definitely rejected the call
    | Ambiguous         // error without a device answer, or timeout
    | Terminalizing     // the wrapper's catch-all is still to run
    | Finished

  datatype Event = Land | Lose | NotAdmitted | Connected | BadConnection | Accepted | Rejected | Unclear | Panicked

  datatype Attempt = Attempt(push: PushId, device: DeviceId, face: FaceId, employee: EmployeeId, newId: MappingId, pc: Pc)

  predicate Live(pc: Pc) { pc != Terminalizing && pc != Finished }

  /** One atomic step of an attempt: the database and the program point it leads to. A write
      that is lost (`Lose`), or bails out because the push row is gone, changes nothing. */
  function Advance(db: Db, a: Attempt, event: Event): Option<(Db, Pc)> {
    var p := a.push;
    match (a.pc, event)
    case (Queued, NotAdmitted) => Some((db, Refused))
    case (Refused, Land) => Some((RecoveryFailureRecorded(db, p, true), Finished))
    case (Refused, Lose) => Some((db, Finished))
    case (Queued, Land) => Some((MarkedInProgress(db, p), Building))
    case (Queued, Lose) => Some((db, MarkLost))
    case (MarkLost, Land) => Some((RecoveryFailureRecorded(db, p, true), Terminalizing))
    case (MarkLost, Lose) => Some((db, Terminalizing))
    case (Building, Connected) => Some((db, Calling))
    case (Building, BadConnection) => Some((db, Unreachable))
    case (Unreachable, Land) => Some((PushFailed(db, p), Terminalizing))
    case (Unreachable, Lose) => Some((db, Terminalizing))
    case (Calling, Accepted) => Some((db, Confirmed))
    case (Calling, Rejected) => Some((db, Denied))
    case (Calling, Unclear) => Some((db, Ambiguous))
    case (Confirmed, Land) => Some((OperationMarked(db, EnrollmentPush(p), DeviceApplied), Checkpointed))
    case (Confirmed, Lose) => Some((db, CheckpointLost))
    case (CheckpointLost, Land) => Some((RecoveryFailureRecorded(db, p, true), Terminalizing))
    case (CheckpointLost, Lose) => Some((db, Terminalizing))
    case (Checkpointed, Land) =>
      if p in db.pushes then Some((PushSucceeded(db, p, a.device, a.face, a.employee, a.newId), Finished))
      else Some((db, MappingLost))
    case (Checkpointed, Lose) => Some((db, MappingLost))
    case (MappingLost, Land) => Some((RecoveryFailureRecorded(db, p, false), Terminalizing))
    case (MappingLost, Lose) => Some((db, Terminalizing))
    case (Denied, Land) => Some((PushFailed(db, p), Terminalizing))
    case (Denied, Lose) => Some((db, Terminalizing))
    case (Ambiguous, Land) => Some((RecoveryFailureRecorded(db, p, true), Terminalizing))
    case (Ambiguous, Lose) => Some((db, Terminalizing))
    case (Terminalizing, Land) => Some((Terminalized(db, p), Finished))
    case (Terminalizing, Lose) => Some((db, Finished))
    case (pc, Panicked) => if Live(pc) && pc != Refused then Some((db, Terminalizing)) else None
    case _ => None
  }

  // ------------------------------------------------------------ ghost call history

  /** What is known of a device call: still out, applied, definitely declined, or unknown. */
  datatype Outcome = InCall | Applied | Declined | Unknown

  type History = map<PushId, seq<Outcome>>

  function CallsOf(calls: History, push: PushId): seq<Outcome> {
    if push in calls then calls[push] else []
  }

  function Settle(calls: History, push: PushId, outcome: Outcome): History {
    var h := CallsOf(calls, push);
    if h == [] then calls else calls[push := h[|h| - 1 := outcome]]
  }

  function NextHistory(calls: History, a: Attempt, event: Event): History {
    match (a.pc, event)
    case (Building, Connected) => calls[a.push := CallsOf(calls, a.push) + [InCall]]
    case (Calling, Accepted) => Settle(calls, a.push, Applied)
    case (Calling, Rejected) => Settle(calls, a.push, Declined)
    case (Calling, Unclear) => Settle(calls, a.push, Unknown)
    case (Calling, Panicked) => Settle(calls, a.push, Unknown)
    case _ => calls
  }

  /** A crash leaves every call that was out with an unknown outcome. */
  function CrashHistory(calls: History): History {
    map p | p in calls :: if calls[p] != [] && calls[p][|calls[p]| - 1] == InCall
                          then calls[p][|calls[p]| - 1 := Unknown] else calls[p]
  }

  // ----------------------------------------------------------------- the machine

  /** `half` says that the first of a checkpoint's two recovery transactions has committed. */
  datatype Phase = Serving | Down | Recovering(todo: seq<OperationKey>, half: bool)

  datatype Sys = Sys(db: Db, attempts: map<nat, Attempt>, calls: History, phase: Phase)

  datatype Step =
    | Enroll(enrollment: EnrollmentId, employee: EmployeeId, newFace: FaceId,
             targets: map<PushId, DeviceId>, commands: map<nat, Attempt>)
    | Retry(push: PushId, commands: map<nat, Attempt>)
    | Work(id: nat, event: Event)
    | Finalize(enrollment: EnrollmentId)
    | Crash
    | Boot(order: seq<OperationKey>)
    | RecoverNext(ids: R.NewIds)
    | Serve

  /** A command carries the columns its own transaction has just read. */
  ghost predicate ReadFrom(db: Db, a: Attempt) {
    && R.PushResolvable(db, a.push)
    && a.device == db.pushes[a.push].device
    && a.employee == R.EmployeeOf(db, a.push)
    && a.face == R.FaceOf(db, a.push)
  }

  /** The authorized commands a committed transaction hands over: at most one per push it
      prepared, and none at all when the dispatcher refuses the hand-over. */
  ghost predicate HandsOver(s: Sys, db': Db, commands: map<nat, Attempt>, pushes: set<PushId>) {
    && commands.Keys !! s.attempts.Keys
    && (forall i :: i in commands ==> commands[i].pc == Queued && commands[i].push in pushes && ReadFrom(db', commands[i]))
    && (forall i, j :: i in commands && j in commands && commands[i].push == commands[j].push ==> i == j)
  }

  ghost predicate Next(s: Sys, step: Step, s': Sys) {
    match step
    case Enroll(e, employee, face, targets, commands) =>
      && s.phase == Serving
      && e !in s.db.enrollments && employee in s.db.employees && !R.HasOwner(s.db.employees, face)
      && targets.Keys !! s.db.pushes.Keys
      && var db' := Enrolled(s.db, e, employee, face, targets);
      && HandsOver(s, db', commands, targets.Keys)
      && s' == s.(db := db', attempts := s.attempts + commands)
    case Retry(p, commands) =>
      && s.phase == Serving && Retryable(s.db, p) && HandsOver(s, Retried(s.db, p), commands, {p})
      && s' == s.(db := Retried(s.db, p), attempts := s.attempts + commands)
    case Work(i, event) =>
      && s.phase == Serving && i in s.attempts
      && var a := s.attempts[i];
      && Advance(s.db, a, event).Some?
      && var (db', pc') := Advance(s.db, a, event).value;
      && s' == s.(db := db', attempts := s.attempts[i := a.(pc := pc')], calls := NextHistory(s.calls, a, event))
    case Finalize(e) =>
      s.phase == Serving && s' == s.(db := Finalized(s.db, e))
    case Crash =>
      s' == Sys(s.db, map[], CrashHistory(s.calls), Down)
    case Boot(order) =>
      s.phase == Down && R.Enumerates(s.db, order) && s' == s.(phase := Recovering(order, false))
    case RecoverNext(ids) =>
      && s.phase.Recovering? && s.phase.todo != []
      && var todo, half := s.phase.todo, s.phase.half;
      var key := todo[0];
      if half then
        R.SecondTx(s.db, key).Some?
        && s' == s.(db := R.ApplyTx(s.db, R.SecondTx(s.db, key).value, ids), phase := Recovering(todo[1..], false))
      else
        s' == s.(db := R.ApplyTx(s.db, R.FirstTx(s.db, key), ids),
                 phase := if R.SecondTx(s.db, key).Some? then Recovering(todo, true) else Recovering(todo[1..], false))
    case Serve =>
      s.phase.Recovering? && s.phase.todo == [] && s' == s.(phase := Serving)
  }

  /** Before the first enrollment: nothing pushed, nothing called, process not started. */
  ghost predicate Init(s: Sys) {
    && s.db.pushes == map[] && s.db.enrollments == map[]
    && (forall k :: k in s.db.checkpoints ==> !k.EnrollmentPush?)
    && R.Resolvable(s.db)
    && s.attempts == map[] && s.calls == map[] && s.phase == Down
  }

  ghost predicate IsRun(states: seq<Sys>, steps: seq<Step>) {
    && |states| == |steps| + 1
    && Init(states[0])
    && forall i :: 0 <= i < |steps| ==> Next(states[i], steps[i], states[i + 1])
  }

  // ------------------------------------------------------------------ invariant

  function Last(h: seq<Outcome>): Outcome { if h == [] then Declined else h[|h| - 1] }

  /** What the program point of a live attempt says about the push's latest call. */
  predicate Matches(pc: Pc, last: Outcome) {
    match pc
    case Calling => last == InCall
    case Confirmed | CheckpointLost | Checkpointed | MappingLost => last == Applied
    case Ambiguous => last == Unknown
    case _ => last == Declined
  }

  /** Every call before the latest one was definitely declined. */
  predicate DeclinedBefore(h: seq<Outcome>) {
    forall k :: 0 <= k < |h| - 1 ==> h[k] == Declined
  }

  /** A live attempt owns its push: it is the only one, and a checkpoint guards it. */
  ghost predicate Ownership(db: Db, attempts: map<nat, Attempt>) {
    && (forall i :: i in attempts ==> attempts[i].push in db.pushes)
    && (forall i :: i in attempts && Live(attempts[i].pc) ==> EnrollmentPush(attempts[i].push) in db.checkpoints)
    && (forall i, j | i in attempts && j in attempts && Live(attempts[i].pc) && Live(attempts[j].pc) ::
          attempts[i].push == attempts[j].push ==> i == j)
  }

  ghost predicate Histories(attempts: map<nat, Attempt>, calls: History) {
    && (forall p :: DeclinedBefore(CallsOf(calls, p)))
    && (forall i :: i in attempts && Live(attempts[i].pc) ==> Matches(attempts[i].pc, Last(CallsOf(calls, attempts[i].push))))
    && (forall p :: Last(CallsOf(calls, p)) == InCall ==> exists i :: i in attempts && attempts[i].push == p && attempts[i].pc == Calling)
  }

  /** A push whose latest call was applied, is unknown or is out cannot be retried: its
      checkpoint stands, or it is already a success. */
  ghost predicate Sealed(db: Db, calls: History) {
    && (forall p :: p in calls ==> p in db.pushes)
    && forall p :: Last(CallsOf(calls, p)) != Declined ==>
      p in db.pushes && (EnrollmentPush(p) in db.checkpoints || db.pushes[p].status == Success)
  }

  ghost predicate Referential(db: Db) {
    R.Resolvable(db) && forall p :: p in db.pushes ==> R.PushResolvable(db, p)
  }

  /** Where a recovery stands: between two checkpoints, or between the two transactions of one. */
  ghost predicate UnderWay(db: Db, todo: seq<OperationKey>, half: bool) {
    if half then todo != [] && exists db0 :: HalfWay(db0, todo, db) else R.Remaining(db, todo)
  }

  ghost predicate HalfWay(db0: Db, todo: seq<OperationKey>, db: Db)
    requires todo != []
  {
    && R.Resolvable(db0) && R.Remaining(db0, todo) && R.SecondTx(db0, todo[0]).Some?
    && forall ids :: R.ApplyTx(db0, R.FirstTx(db0, todo[0]), ids) == db
  }

  ghost predicate PhaseInv(db: Db, attempts: map<nat, Attempt>, phase: Phase) {
    && (phase != Serving ==> attempts == map[])
    && (phase.Recovering? ==> UnderWay(db, phase.todo, phase.half))
  }

  ghost predicate Inv(s: Sys) {
    && Ownership(s.db, s.attempts)
    && Histories(s.attempts, s.calls)
    && Sealed(s.db, s.calls)
    && Referential(s.db)
    && PhaseInv(s.db, s.attempts, s.phase)
  }

  lemma InitInv(s: Sys)
    requires Init(s)
    ensures Inv(s)
  {
  }

  lemma CrashCalls(calls: History, p: PushId)
    ensures var h, h' := CallsOf(calls, p), CallsOf(CrashHistory(calls), p);
      && Last(h') == (if Last(h) == InCall then Unknown else Last(h))
      && (DeclinedBefore(h) ==> DeclinedBefore(h'))
  {
  }

  lemma CrashHistories(attempts: map<nat, Attempt>, calls: History)
    requires Histories(attempts, calls)
    ensures Histories(map[], CrashHistory(calls))
    ensures forall p :: Last(CallsOf(CrashHistory(calls), p)) != Declined ==> Last(CallsOf(calls, p)) != Declined
  {
    forall p
      ensures Last(CallsOf(CrashHistory(calls), p)) != InCall && DeclinedBefore(CallsOf(CrashHistory(calls), p))
      ensures Last(CallsOf(CrashHistory(calls), p)) != Declined ==> Last(CallsOf(calls, p)) != Declined
    {
      CrashCalls(calls, p);
    }
  }

  lemma CrashInv(s: Sys, s': Sys)
    requires Inv(s) && Next(s, Crash, s')
    ensures Inv(s')
  {
    CrashHistories(s.attempts, s.calls);
    CrashSealed(s.db, s.calls);
    hide Referential;
    hide Histories;
    hide Sealed;
    hide CrashHistory;
  }

  lemma CrashSealed(db: Db, calls: History)
    requires Sealed(db, calls)
    requires forall p :: Last(CallsOf(CrashHistory(calls), p)) != Declined ==> Last(CallsOf(calls, p)) != Declined
    ensures Sealed(db, CrashHistory(calls))
  {
    hide CallsOf;
    hide Last;
  }

  lemma FinalizeReferential(db: Db, e: EnrollmentId)
    requires Referential(db)
    ensures Referential(Finalized(db, e))
  {
    hide Settled;
    hide VerdictOf;
    var db' := Finalized(db, e);
    assert R.SameStatics(db, db');
    R.ResolvableStep(db, db', EnrollmentPush(0));
    hide R.Resolvable;
    forall p | p in db'.pushes ensures R.PushResolvable(db', p) { assert R.PushResolvable(db, p); }
  }

  lemma FinalizeInv(s: Sys, e: EnrollmentId, s': Sys)
    requires Inv(s) && Next(s, Finalize(e), s')
    ensures Inv(s')
  {
    hide *;
    InvParts(s);
    FinalizeIs(s, e, s');
    FinalizeReferential(s.db, e);
    SameRowsKeepInv(s, s');
    InvWhole(s');
  }

  lemma FinalizeIs(s: Sys, e: EnrollmentId, s': Sys)
    requires Next(s, Finalize(e), s')
    ensures s' == s.(db := Finalized(s.db, e)) && s.phase == Serving
    ensures s'.db.pushes == s.db.pushes && s'.db.checkpoints == s.db.checkpoints
  {
    hide Settled;
    hide VerdictOf;
  }

  /** Ownership and seals speak of pushes and checkpoints only. */
  lemma SameRowsKeepInv(s: Sys, s': Sys)
    requires Ownership(s.db, s.attempts) && Sealed(s.db, s.calls) && PhaseInv(s.db, s.attempts, s.phase)
    requires s' == s.(db := s'.db) && s.phase == Serving
    requires s'.db.pushes == s.db.pushes && s'.db.checkpoints == s.db.checkpoints
    ensures Ownership(s'.db, s'.attempts) && Sealed(s'.db, s'.calls) && PhaseInv(s'.db, s'.attempts, s'.phase)
  {
    hide CallsOf;
    hide Last;
  }

  lemma InvParts(s: Sys)
    requires Inv(s)
    ensures Ownership(s.db, s.attempts) && Histories(s.attempts, s.calls) && Sealed(s.db, s.calls) && Referential(s.db)
    ensures PhaseInv(s.db, s.attempts, s.phase)
  {
    hide Ownership;
    hide Histories;
    hide Sealed;
    hide Referential;
    hide PhaseInv;
  }

  lemma InvWhole(s: Sys)
    requires Ownership(s.db, s.attempts) && Histories(s.attempts, s.calls) && Sealed(s.db, s.calls) && Referential(s.db)
    requires PhaseInv(s.db, s.attempts, s.phase)
    ensures Inv(s)
  {
    hide Ownership;
    hide Histories;
    hide Sealed;
    hide Referential;
    hide PhaseInv;
  }

  /** What a transaction of an attempt leaves alone, table by table. */
  ghost predicate PushesLocal(before: Pushes, after: Pushes, p: PushId) {
    && after.Keys == before.Keys
    && (forall q :: q in before && q != p ==> after[q] == before[q])
    && (p in before ==> after[p].(status := before[p].status) == before[p])
  }

  ghost predicate CheckpointsLocal(before: Checkpoints, after: Checkpoints, key: OperationKey) {
    && (forall k :: k != key ==> (k in after <==> k in before))
    && (forall k :: k != key && k in before ==> after[k] == before[k])
    && (key in after ==> key in before)
  }

  ghost predicate MappingsGrow(before: Mappings, after: Mappings) {
    forall t :: t in before ==> t in after && after[t].id == before[t].id
  }

  lemma StatementsAreLocal(db: Db, p: PushId)
    ensures forall st :: PushesLocal(db.pushes, WithStatus(db.pushes, p, st), p)
    ensures PushesLocal(db.pushes, db.pushes, p)
    ensures forall st :: CheckpointsLocal(db.checkpoints, WithCheckpoint(db.checkpoints, EnrollmentPush(p), st), EnrollmentPush(p))
    ensures CheckpointsLocal(db.checkpoints, db.checkpoints - {EnrollmentPush(p)}, EnrollmentPush(p))
    ensures CheckpointsLocal(db.checkpoints, db.checkpoints, EnrollmentPush(p))
    ensures forall d, f, e, id :: MappingsGrow(db.mappings, Upserted(db.mappings, d, f, e, id))
    ensures MappingsGrow(db.mappings, db.mappings)
  {
  }

  lemma TerminalizedCheckpoints(db: Db, p: PushId)
    ensures Terminalized(db, p).checkpoints == db.checkpoints
         || Terminalized(db, p).checkpoints == WithCheckpoint(db.checkpoints, EnrollmentPush(p), Manual)
  {
  }

  ghost predicate Local(db: Db, db': Db, p: PushId) {
    && db'.enrollments == db.enrollments && db'.employees == db.employees && db'.devices == db.devices
    && PushesLocal(db.pushes, db'.pushes, p)
    && CheckpointsLocal(db.checkpoints, db'.checkpoints, EnrollmentPush(p))
    && MappingsGrow(db.mappings, db'.mappings)
  }

  lemma TransactionsAreLocal(db: Db, a: Attempt)
    ensures Local(db, db, a.push)
    ensures Local(db, MarkedInProgress(db, a.push), a.push)
    ensures forall manual :: Local(db, RecoveryFailureRecorded(db, a.push, manual), a.push)
    ensures Local(db, PushFailed(db, a.push), a.push)
    ensures Local(db, OperationMarked(db, EnrollmentPush(a.push), DeviceApplied), a.push)
    ensures Local(db, Terminalized(db, a.push), a.push)
    ensures Local(db, PushSucceeded(db, a.push, a.device, a.face, a.employee, a.newId), a.push)
  {
    StatementsAreLocal(db, a.push);
    TerminalizedCheckpoints(db, a.push);
    hide PushesLocal;
    hide CheckpointsLocal;
    hide MappingsGrow;
    hide WithStatus;
    hide WithCheckpoint;
    hide Upserted;
  }

  lemma AdvanceIsLocal(db: Db, a: Attempt, event: Event)
    requires Advance(db, a, event).Some?
    ensures Local(db, Advance(db, a, event).value.0, a.push)
  {
    TransactionsAreLocal(db, a);
    hide Local;
    hide MarkedInProgress;
    hide RecoveryFailureRecorded;
    hide PushFailed;
    hide OperationMarked;
    hide Terminalized;
    hide PushSucceeded;
  }

  /** A checkpoint goes away only with the last live step of its attempt, after a failure before
      the call, a definite rejection, or a recorded success. */
  lemma AdvanceKeepsGuard(db: Db, a: Attempt, event: Event)
    requires Advance(db, a, event).Some? && a.push in db.pushes
    ensures var (db', pc') := Advance(db, a, event).value;
      var key := EnrollmentPush(a.push);
      && (key in db.checkpoints && key !in db'.checkpoints ==>
            !Live(pc') && (a.pc in {Unreachable, Denied} || (a.pc == Checkpointed && db'.pushes[a.push].status == Success)))
      && (Live(pc') ==> Live(a.pc))
      && (!Live(a.pc) && db.pushes[a.push].status == Success ==> db'.pushes[a.push].status == Success)
  {
    hide Upserted;
  }

  lemma DeclinedExtends(h: seq<Outcome>, last: Outcome)
    requires DeclinedBefore(h)
    ensures Last(h) == Declined ==> DeclinedBefore(h + [last])
    ensures h != [] ==> DeclinedBefore(h[|h| - 1 := last])
  {
  }

  /** How the call history of a push follows the program point of its live attempt. */
  lemma HistoryEffect(db: Db, a: Attempt, event: Event, calls: History)
    requires Advance(db, a, event).Some?
    requires Live(a.pc) ==> Matches(a.pc, Last(CallsOf(calls, a.push)))
    requires forall p :: DeclinedBefore(CallsOf(calls, p))
    ensures var pc', calls' := Advance(db, a, event).value.1, NextHistory(calls, a, event);
      && (Live(pc') ==> Matches(pc', Last(CallsOf(calls', a.push))))
      && (forall p :: DeclinedBefore(CallsOf(calls', p)))
      && (forall p :: p != a.push ==> CallsOf(calls', p) == CallsOf(calls, p))
      && (CallsOf(calls', a.push) == CallsOf(calls, a.push) || a.pc in {Building, Calling})
      && (a.pc != Calling && Last(CallsOf(calls', a.push)) == InCall ==>
            pc' == Calling || Last(CallsOf(calls, a.push)) == InCall)
      && (a.pc == Calling ==> Last(CallsOf(calls', a.push)) != InCall)
      && calls'.Keys <= calls.Keys + {a.push}
  {
    var h := CallsOf(calls, a.push);
    forall last { DeclinedExtends(h, last); }
    var calls' := NextHistory(calls, a, event);
    forall p ensures DeclinedBefore(CallsOf(calls', p)) {
      if p != a.push { assert CallsOf(calls', p) == CallsOf(calls, p); }
    }
  }

  lemma LocalKeepsReferential(db: Db, db': Db, p: PushId)
    requires Referential(db) && Local(db, db', p)
    ensures Referential(db')
  {
    assert R.SameStatics(db, db');
    assert db'.checkpoints.Keys <= db.checkpoints.Keys;
    R.ResolvableStep(db, db', EnrollmentPush(p));
    forall q | q in db'.pushes ensures R.PushResolvable(db', q) {
      assert R.PushResolvable(db, q);
    }
  }

  lemma WorkOwnership(s: Sys, i: nat, event: Event, s': Sys)
    requires Inv(s) && Next(s, Work(i, event), s')
    ensures Ownership(s'.db, s'.attempts)
  {
    var a := s.attempts[i];
    AdvanceIsLocal(s.db, a, event);
    AdvanceKeepsGuard(s.db, a, event);
    hide *;
    WorkOwnershipStep(s.db, s.attempts, i, s'.db, s'.attempts[i].pc);
  }

  lemma WorkOwnershipStep(db: Db, attempts: map<nat, Attempt>, i: nat, db': Db, pc': Pc)
    requires Ownership(db, attempts) && i in attempts && Local(db, db', attempts[i].push)
    requires Live(pc') ==> Live(attempts[i].pc)
    requires EnrollmentPush(attempts[i].push) in db.checkpoints && EnrollmentPush(attempts[i].push) !in db'.checkpoints
      ==> Live(attempts[i].pc) && !Live(pc')
    ensures Ownership(db', attempts[i := attempts[i].(pc := pc')])
  {
  }

  lemma HistoriesStep(db: Db, attempts: map<nat, Attempt>, calls: History, i: nat, pc': Pc, calls': History)
    requires Ownership(db, attempts) && Histories(attempts, calls) && i in attempts
    requires var a := attempts[i];
      && (Live(pc') ==> Live(a.pc) && Matches(pc', Last(CallsOf(calls', a.push))))
      && (forall p :: DeclinedBefore(CallsOf(calls', p)))
      && (forall p :: p != a.push ==> CallsOf(calls', p) == CallsOf(calls, p))
      && (CallsOf(calls', a.push) == CallsOf(calls, a.push) || Live(a.pc))
      && (a.pc != Calling && Last(CallsOf(calls', a.push)) == InCall ==>
            pc' == Calling || Last(CallsOf(calls, a.push)) == InCall)
      && (a.pc == Calling ==> Last(CallsOf(calls', a.push)) != InCall)
    ensures Histories(attempts[i := attempts[i].(pc := pc')], calls')
  {
    hide CallsOf;
    hide Last;
    hide Matches;
    hide DeclinedBefore;
    var a, after := attempts[i], attempts[i := attempts[i].(pc := pc')];
    forall p | Last(CallsOf(calls', p)) == InCall
      ensures exists j :: j in after && after[j].push == p && after[j].pc == Calling
    {
      if p == a.push && pc' == Calling {
        assert after[i].pc == Calling;
      } else {
        assert Last(CallsOf(calls, p)) == InCall;
        var j :| j in attempts && attempts[j].push == p && attempts[j].pc == Calling;
        assert after[j] == attempts[j];
      }
    }
    forall j | j in after && Live(after[j].pc) ensures Matches(after[j].pc, Last(CallsOf(calls', after[j].push))) {
      if j != i { assert after[j] == attempts[j]; }
    }
  }

  lemma WorkHistories(s: Sys, i: nat, event: Event, s': Sys)
    requires Inv(s) && Next(s, Work(i, event), s')
    ensures Histories(s'.attempts, s'.calls)
  {
    var a := s.attempts[i];
    HistoryEffect(s.db, a, event, s.calls);
    AdvanceKeepsGuard(s.db, a, event);
    hide *;
    HistoriesStep(s.db, s.attempts, s.calls, i, s'.attempts[i].pc, s'.calls);
  }

  lemma SealedStep(db: Db, a: Attempt, calls: History, db': Db, calls': History)
    requires Sealed(db, calls) && Local(db, db', a.push) && a.push in db.pushes
    requires Live(a.pc) ==> EnrollmentPush(a.push) in db.checkpoints
    requires forall p :: p != a.push ==> CallsOf(calls', p) == CallsOf(calls, p)
    requires calls'.Keys <= calls.Keys + {a.push}
    requires !Live(a.pc) ==> CallsOf(calls', a.push) == CallsOf(calls, a.push)
    requires !Live(a.pc) && db.pushes[a.push].status == Success ==> db'.pushes[a.push].status == Success
    requires EnrollmentPush(a.push) in db.checkpoints && EnrollmentPush(a.push) !in db'.checkpoints ==>
      Last(CallsOf(calls', a.push)) == Declined || db'.pushes[a.push].status == Success
    ensures Sealed(db', calls')
  {
    hide Last;
    forall p | Last(CallsOf(calls', p)) != Declined
      ensures p in db'.pushes && (EnrollmentPush(p) in db'.checkpoints || db'.pushes[p].status == Success)
    {
      if p == a.push && Live(a.pc) {
      } else {
        assert Last(CallsOf(calls, p)) != Declined;
      }
    }
  }

  lemma WorkSealed(s: Sys, i: nat, event: Event, s': Sys)
    requires Inv(s) && Next(s, Work(i, event), s')
    ensures Sealed(s'.db, s'.calls)
  {
    hide *;
    InvParts(s);
    WorkParts(s, i, event, s');
    var a := s.attempts[i];
    HistoryEffect(s.db, a, event, s.calls);
    AdvanceIsLocal(s.db, a, event);
    AdvanceKeepsGuard(s.db, a, event);
    PointsOfCalls(a.pc, Last(CallsOf(s.calls, a.push)));
    SealedStep(s.db, a, s.calls, s'.db, s'.calls);
  }

  lemma WorkParts(s: Sys, i: nat, event: Event, s': Sys)
    requires Inv(s) && Next(s, Work(i, event), s')
    ensures i in s.attempts && s.phase == Serving
    ensures var a := s.attempts[i];
      && a.push in s.db.pushes
      && (Live(a.pc) ==> Matches(a.pc, Last(CallsOf(s.calls, a.push))) && EnrollmentPush(a.push) in s.db.checkpoints)
      && (forall p :: DeclinedBefore(CallsOf(s.calls, p)))
      && Advance(s.db, a, event).Some?
      && s'.db == Advance(s.db, a, event).value.0 && s'.calls == NextHistory(s.calls, a, event)
      && s' == s.(db := s'.db, attempts := s.attempts[i := a.(pc := Advance(s.db, a, event).value.1)], calls := s'.calls)
  {
    hide Advance;
    hide NextHistory;
    hide Sealed;
    hide Referential;
    hide PhaseInv;
    hide Matches;
    hide DeclinedBefore;
    hide CallsOf;
    hide Last;
  }

  lemma PointsOfCalls(pc: Pc, last: Outcome)
    ensures pc in {Building, Calling, Unreachable, Denied, Checkpointed} ==> Live(pc)
    ensures pc in {Unreachable, Denied} && Matches(pc, last) ==> last == Declined && pc != Building && pc != Calling
  {
  }

  lemma WorkInv(s: Sys, i: nat, event: Event, s': Sys)
    requires Inv(s) && Next(s, Work(i, event), s')
    ensures Inv(s')
  {
    WorkOwnership(s, i, event, s');
    WorkHistories(s, i, event, s');
    WorkSealed(s, i, event, s');
    AdvanceIsLocal(s.db, s.attempts[i], event);
    LocalKeepsReferential(s.db, s'.db, s.attempts[i].push);
  }

  // ------------------------------------------------- enrollment and public retry

  /** Tables that only gained rows and faces. */
  ghost predicate Extends(db: Db, db': Db) {
    && db.devices == db'.devices && db.mappings == db'.mappings
    && (forall p :: p in db.pushes ==> p in db'.pushes && db'.pushes[p].enrollment == db.pushes[p].enrollment)
    && (forall e :: e in db.enrollments ==> e in db'.enrollments && db'.enrollments[e].employee == db.enrollments[e].employee)
    && (forall x :: x in db.employees ==> x in db'.employees && db'.employees[x].active == db.employees[x].active)
    && (forall x :: x in db.employees && db.employees[x].face.Some? ==> db'.employees[x].face == db.employees[x].face)
  }

  lemma ExtendsKeepsPush(db: Db, db': Db, p: PushId)
    requires Extends(db, db') && R.PushResolvable(db, p)
    ensures R.PushResolvable(db', p)
  {
  }

  lemma ExtendsKeepsKey(db: Db, db': Db, k: OperationKey)
    requires Extends(db, db') && R.KeyResolvable(db, k)
    ensures R.KeyResolvable(db', k)
  {
    match k
    case EnrollmentPush(p) => ExtendsKeepsPush(db, db', p);
    case BackfillPush(d, f) =>
      var x :| x in db.employees && db.employees[x].face == Some(f) && db.employees[x].active;
      assert x in db'.employees;
    case PurgeDelete(m) =>
  }

  lemma ExtendsKeepsReferential(db: Db, db': Db)
    requires Referential(db) && Extends(db, db') && R.UniqueFaces(db')
    requires forall p :: p in db'.pushes && p !in db.pushes ==> R.PushResolvable(db', p)
    requires forall k :: k in db'.checkpoints && k !in db.checkpoints ==> R.KeyResolvable(db', k)
    ensures Referential(db')
  {
    hide Extends;
    hide R.KeyResolvable;
    hide R.PushResolvable;
    forall p | p in db'.pushes ensures R.PushResolvable(db', p) { if p in db.pushes { ExtendsKeepsPush(db, db', p); } }
    forall k | k in db'.checkpoints ensures R.KeyResolvable(db', k) { if k in db.checkpoints { ExtendsKeepsKey(db, db', k); } }
  }

  lemma EnrollExtends(db: Db, e: EnrollmentId, employee: EmployeeId, face: FaceId, targets: map<PushId, DeviceId>)
    requires Referential(db) && e !in db.enrollments && employee in db.employees && !R.HasOwner(db.employees, face)
    requires targets.Keys !! db.pushes.Keys
    ensures Extends(db, Enrolled(db, e, employee, face, targets))
  {
  }

  lemma EnrollReferential(db: Db, e: EnrollmentId, employee: EmployeeId, face: FaceId, targets: map<PushId, DeviceId>)
    requires Referential(db) && e !in db.enrollments && employee in db.employees && !R.HasOwner(db.employees, face)
    requires targets.Keys !! db.pushes.Keys
    ensures Referential(Enrolled(db, e, employee, face, targets))
  {
    var db' := Enrolled(db, e, employee, face, targets);
    EnrollExtends(db, e, employee, face, targets);
    assert forall x :: x in db'.employees && x != employee ==> db'.employees[x] == db.employees[x];
    assert forall p :: p in targets ==> db'.pushes[p].enrollment == e && R.PushResolvable(db', p);
    ExtendsKeepsReferential(db, db');
  }

  /** New commands on pushes that no live attempt owns, and that were never called without a
      definite rejection, respect ownership and histories. */
  lemma HandOverInv(s: Sys, db': Db, commands: map<nat, Attempt>, pushes: set<PushId>)
    requires Ownership(s.db, s.attempts) && Histories(s.attempts, s.calls)
    requires HandsOver(s, db', commands, pushes)
    requires s.db.pushes.Keys <= db'.pushes.Keys && s.db.checkpoints.Keys <= db'.checkpoints.Keys
    requires forall p :: p in pushes ==> p in db'.pushes && EnrollmentPush(p) in db'.checkpoints
    requires forall i :: i in s.attempts && s.attempts[i].push in pushes ==> !Live(s.attempts[i].pc)
    requires forall p :: p in pushes ==> Last(CallsOf(s.calls, p)) == Declined
    ensures Ownership(db', s.attempts + commands) && Histories(s.attempts + commands, s.calls)
  {
    hide CallsOf;
    hide Last;
    hide DeclinedBefore;
    hide ReadFrom;
    var all := s.attempts + commands;
    assert forall i :: i in s.attempts ==> all[i] == s.attempts[i];
    forall p | Last(CallsOf(s.calls, p)) == InCall
      ensures exists i :: i in all && all[i].push == p && all[i].pc == Calling
    {
      var i :| i in s.attempts && s.attempts[i].push == p && s.attempts[i].pc == Calling;
      assert all[i] == s.attempts[i];
    }
  }

  lemma EnrollSealed(db: Db, calls: History, e: EnrollmentId, employee: EmployeeId, face: FaceId, targets: map<PushId, DeviceId>)
    requires Sealed(db, calls) && targets.Keys !! db.pushes.Keys && employee in db.employees
    ensures var db' := Enrolled(db, e, employee, face, targets);
      && Sealed(db', calls)
      && db.pushes.Keys <= db'.pushes.Keys && db.checkpoints.Keys <= db'.checkpoints.Keys
      && (forall p :: p in targets ==> p in db'.pushes && EnrollmentPush(p) in db'.checkpoints && Last(CallsOf(calls, p)) == Declined)
  {
    forall p | p in targets ensures EnrollmentPush(p) in Enrolled(db, e, employee, face, targets).checkpoints {
      assert EnrollmentPush(p) in PushKeys(targets.Keys);
    }
  }

  lemma EnrollInv(s: Sys, e: EnrollmentId, employee: EmployeeId, face: FaceId,
                  targets: map<PushId, DeviceId>, commands: map<nat, Attempt>, s': Sys)
    requires Inv(s) && Next(s, Enroll(e, employee, face, targets, commands), s')
    ensures Inv(s')
  {
    EnrollReferential(s.db, e, employee, face, targets);
    EnrollSealed(s.db, s.calls, e, employee, face, targets);
    hide Referential;
    hide Sealed;
    hide Enrolled;
    HandOverInv(s, s'.db, commands, targets.Keys);
  }

  lemma RetryReferential(db: Db, p: PushId)
    requires Referential(db) && Retryable(db, p)
    ensures Referential(Retried(db, p))
  {
    var db' := Retried(db, p);
    assert Extends(db, db');
    assert R.PushResolvable(db', p) by { ExtendsKeepsPush(db, db', p); }
    ExtendsKeepsReferential(db, db');
  }

  lemma RetrySealed(db: Db, calls: History, p: PushId)
    requires Sealed(db, calls) && Retryable(db, p)
    ensures Last(CallsOf(calls, p)) == Declined
    ensures var db' := Retried(db, p);
      && Sealed(db', calls) && db'.pushes.Keys == db.pushes.Keys
      && db'.checkpoints.Keys == db.checkpoints.Keys + {EnrollmentPush(p)}
  {
    hide CallsOf;
    hide Last;
  }

  lemma RetryInv(s: Sys, p: PushId, commands: map<nat, Attempt>, s': Sys)
    requires Inv(s) && Next(s, Retry(p, commands), s')
    ensures Inv(s')
  {
    hide *;
    InvParts(s);
    RetryIs(s, p, commands, s');
    RetryReferential(s.db, p);
    RetrySealed(s.db, s.calls, p);
    RetryIsFree(s, p);
    HandOverInv(s, s'.db, commands, {p});
    InvWhole(s');
  }

  lemma RetryIs(s: Sys, p: PushId, commands: map<nat, Attempt>, s': Sys)
    requires Next(s, Retry(p, commands), s')
    ensures Retryable(s.db, p) && HandsOver(s, s'.db, commands, {p})
    ensures s' == s.(db := Retried(s.db, p), attempts := s.attempts + commands)
    ensures PhaseInv(s'.db, s'.attempts, s'.phase)
  {
    hide Retried;
    hide Retryable;
    hide HandsOver;
  }

  /** No live attempt owns a push that may be retried. */
  lemma RetryIsFree(s: Sys, p: PushId)
    requires Ownership(s.db, s.attempts) && Retryable(s.db, p)
    ensures p in s.db.pushes && p in Retried(s.db, p).pushes && EnrollmentPush(p) in Retried(s.db, p).checkpoints
    ensures forall i :: i in s.attempts && s.attempts[i].push in {p} ==> !Live(s.attempts[i].pc)
  {
  }

  // -------------------------------------------------------------------- recovery

  /** A recovery transaction unseals nothing: it drops a push's checkpoint only together with
      recording its success, and fails a push only while its checkpoint stands. */
  lemma RecoveryTxSealed(db: Db, tx: R.Tx, ids: R.NewIds, calls: History)
    requires Sealed(db, calls) && Referential(db)
    requires tx.FailPush? ==> EnrollmentPush(tx.push) in db.checkpoints
    ensures Sealed(R.ApplyTx(db, tx, ids), calls)
  {
    hide Settled;
    hide VerdictOf;
    hide Last;
    hide CallsOf;
    hide R.Resolvable;
    hide Upserted;
  }

  lemma StaticsKeepPushes(db: Db, db': Db)
    requires Referential(db) && R.SameStatics(db, db') && R.Resolvable(db')
    ensures Referential(db')
  {
    forall p | p in db'.pushes ensures R.PushResolvable(db', p) { assert R.PushResolvable(db, p); }
  }

  /** Between the two transactions of a checkpoint, the second is still the one to run. */
  lemma HalfFacts(db: Db, key: OperationKey, ids: R.NewIds)
    requires R.SecondTx(db, key).Some? && key in db.checkpoints
    ensures R.SecondTx(R.ApplyTx(db, R.FirstTx(db, key), ids), key) == R.SecondTx(db, key)
    ensures forall ids' :: R.ApplyTx(db, R.FirstTx(db, key), ids') == R.ApplyTx(db, R.FirstTx(db, key), ids)
    ensures !R.SecondTx(db, key).value.FailPush?
    ensures R.FirstTx(db, key).FailPush? ==> EnrollmentPush(R.FirstTx(db, key).push) == key
  {
    hide Settled;
    hide VerdictOf;
  }

  lemma RecoverHalf(db0: Db, todo: seq<OperationKey>, ids: R.NewIds, calls: History)
    requires Referential(db0) && Sealed(db0, calls) && todo != [] && R.Remaining(db0, todo)
    ensures var half := R.ApplyTx(db0, R.FirstTx(db0, todo[0]), ids);
      Referential(half) && Sealed(half, calls) && (R.SecondTx(db0, todo[0]).Some? ==> HalfWay(db0, todo, half))
  {
    var key := todo[0];
    assert key in db0.checkpoints && R.KeyResolvable(db0, key);
    if key.PurgeDelete? { R.PurgesWait(db0, todo); }
    R.KeyKeepsGoal(db0, key, ids);
    hide R.ApplyTx;
    hide Sealed;
    StaticsKeepPushes(db0, R.ApplyTx(db0, R.FirstTx(db0, key), ids));
    RecoveryTxSealed(db0, R.FirstTx(db0, key), ids, calls);
    if R.SecondTx(db0, key).Some? { HalfFacts(db0, key, ids); }
  }

  /** What finishing a checkpoint yields, from the database it started with. */
  lemma RecoverWhole(db0: Db, todo: seq<OperationKey>, ids: R.NewIds)
    requires R.Resolvable(db0) && todo != [] && R.Remaining(db0, todo)
    ensures var next := R.ProcessKey(db0, todo[0], ids);
      && R.Resolvable(next) && R.Remaining(next, todo[1..])
      && R.SameStatics(R.ApplyTx(db0, R.FirstTx(db0, todo[0]), ids), next)
  {
    if todo[0].PurgeDelete? { R.PurgesWait(db0, todo); }
    assert todo[0] in db0.checkpoints;
    R.KeyKeepsGoal(db0, todo[0], ids);
    R.RemainingStep(db0, todo, ids);
    hide R.Resolvable;
    hide R.Remaining;
    hide R.ApplyTx;
    hide R.ProcessKey;
  }

  /** The state a recovery transaction leads to, in terms of the database `db0` its checkpoint
      started from. */
  lemma RecoverNextShape(s: Sys, ids: R.NewIds, s': Sys)
    requires Inv(s) && Next(s, RecoverNext(ids), s')
    ensures s'.attempts == s.attempts && s'.calls == s.calls && s'.phase.Recovering?
    ensures !s.phase.half ==> s'.db == R.ApplyTx(s.db, R.FirstTx(s.db, s.phase.todo[0]), ids)
    ensures !s.phase.half && R.SecondTx(s.db, s.phase.todo[0]).Some? ==> s'.phase == Recovering(s.phase.todo, true)
    ensures !s.phase.half && R.SecondTx(s.db, s.phase.todo[0]).None? ==>
      s'.phase == Recovering(s.phase.todo[1..], false) && s'.db == R.ProcessKey(s.db, s.phase.todo[0], ids)
    ensures s.phase.half ==> s'.phase == Recovering(s.phase.todo[1..], false)
    ensures s.phase.half ==>
      forall db0 :: HalfWay(db0, s.phase.todo, s.db) ==> s'.db == R.ProcessKey(db0, s.phase.todo[0], ids)
  {
    if s.phase.half {
      forall db0 | HalfWay(db0, s.phase.todo, s.db) ensures s'.db == R.ProcessKey(db0, s.phase.todo[0], ids) {
        assert R.ApplyTx(db0, R.FirstTx(db0, s.phase.todo[0]), ids) == s.db;
        HalfFacts(db0, s.phase.todo[0], ids);
      }
    }
  }

  /** What is left to check of the invariant during recovery, when no attempt exists. */
  lemma RecoveringInv(s: Sys, s': Sys)
    requires Inv(s) && s.phase.Recovering? && s'.phase.Recovering? && s'.attempts == s.attempts && s'.calls == s.calls
    requires Referential(s'.db) && Sealed(s'.db, s'.calls) && UnderWay(s'.db, s'.phase.todo, s'.phase.half)
    ensures Inv(s')
  {
    hide Referential;
    hide Sealed;
    hide UnderWay;
  }

  lemma RecoveringFacts(s: Sys)
    requires Inv(s) && s.phase.Recovering?
    ensures Referential(s.db) && R.Resolvable(s.db) && Sealed(s.db, s.calls)
    ensures s.phase.half ==> s.phase.todo != [] && exists db0 :: HalfWay(db0, s.phase.todo, s.db)
    ensures !s.phase.half ==> R.Remaining(s.db, s.phase.todo)
  {
    hide HalfWay;
    hide R.Remaining;
    hide R.Resolvable;
  }

  lemma RecoverNextInv(s: Sys, ids: R.NewIds, s': Sys)
    requires Inv(s) && Next(s, RecoverNext(ids), s')
    ensures Inv(s')
  {
    RecoveringFacts(s);
    RecoverNextShape(s, ids, s');
    var todo := s.phase.todo;
    hide *;
    if s.phase.half {
      var db0 :| HalfWay(db0, todo, s.db);
      HalfWayFacts(db0, todo, s.db, ids);
      RecoverWhole(db0, todo, ids);
      RecoveryTxSealed(s.db, R.SecondTx(s.db, todo[0]).value, ids, s.calls);
      StaticsKeepPushes(s.db, s'.db);
      BetweenKeys(s'.db, todo[1..]);
    } else {
      RecoverHalf(s.db, todo, ids, s.calls);
      if R.SecondTx(s.db, todo[0]).Some? {
        WithinKey(s.db, todo, s'.db);
      } else {
        RecoverWhole(s.db, todo, ids);
        BetweenKeys(s'.db, todo[1..]);
      }
    }
    RecoveringInv(s, s');
  }

  lemma HalfWayFacts(db0: Db, todo: seq<OperationKey>, db: Db, ids: R.NewIds)
    requires todo != [] && HalfWay(db0, todo, db)
    ensures R.Resolvable(db0) && R.Remaining(db0, todo) && db == R.ApplyTx(db0, R.FirstTx(db0, todo[0]), ids)
    ensures R.SecondTx(db, todo[0]) == R.SecondTx(db0, todo[0]) && R.SecondTx(db, todo[0]).Some?
    ensures !R.SecondTx(db, todo[0]).value.FailPush?
    ensures R.ProcessKey(db0, todo[0], ids) == R.ApplyTx(db, R.SecondTx(db, todo[0]).value, ids)
  {
    assert todo[0] in db0.checkpoints;
    HalfFacts(db0, todo[0], ids);
    hide R.ApplyTx;
    hide R.FirstTx;
    hide R.SecondTx;
    hide R.Resolvable;
  }

  lemma BetweenKeys(db: Db, todo: seq<OperationKey>)
    requires R.Remaining(db, todo)
    ensures UnderWay(db, todo, false)
  {
  }

  lemma WithinKey(db0: Db, todo: seq<OperationKey>, db: Db)
    requires todo != [] && HalfWay(db0, todo, db)
    ensures UnderWay(db, todo, true)
  {
  }

  lemma NextInv(s: Sys, step: Step, s': Sys)
    requires Inv(s) && Next(s, step, s')
    ensures Inv(s')
  {
    match step
    case Enroll(e, employee, face, targets, commands) => EnrollInv(s, e, employee, face, targets, commands, s');
    case Retry(p, commands) => RetryInv(s, p, commands, s');
    case Work(i, event) => WorkInv(s, i, event, s');
    case Finalize(e) => FinalizeInv(s, e, s');
    case Crash => CrashInv(s, s');
    case Boot(order) =>
    case RecoverNext(ids) => RecoverNextInv(s, ids, s');
    case Serve =>
  }

  lemma {:induction false} RunInv(states: seq<Sys>, steps: seq<Step>, n: nat)
    requires IsRun(states, steps) && n < |states|
    ensures Inv(states[n])
  {
    hide Inv;
    hide Next;
    if n == 0 {
      InitInv(states[0]);
    } else {
      RunInv(states, steps, n - 1);
      NextInv(states[n - 1], steps[n - 1], states[n]);
    }
  }

  // ---------------------------------------------------------------- main results

  /** A call whose effect the protocol may not repeat: the device applied it, or may have. */
  ghost predicate MayHaveApplied(s: Sys, push: PushId) {
    Last(CallsOf(s.calls, push)) in {Applied, Unknown}
  }

  lemma StepKeepsCalls(s: Sys, step: Step, s': Sys, p: PushId)
    requires Inv(s) && Next(s, step, s') && MayHaveApplied(s, p)
    ensures CallsOf(s'.calls, p) == CallsOf(s.calls, p)
  {
    hide Sealed;
    hide Referential;
    if step.Work? {
      var a := s.attempts[step.id];
      HistoryEffect(s.db, a, step.event, s.calls);
    }
  }

  /** At most once: in every run, once a device call for a push was applied or has an unknown
      outcome, no later step issues another call for that push. */
  lemma {:induction false} NoCallAfterApplied(states: seq<Sys>, steps: seq<Step>, i: nat, j: nat, p: PushId)
    requires IsRun(states, steps) && i <= j < |states|
    requires MayHaveApplied(states[i], p)
    ensures CallsOf(states[j].calls, p) == CallsOf(states[i].calls, p)
    decreases j
  {
    hide Next;
    hide Inv;
    if i < j {
      NoCallAfterApplied(states, steps, i, j - 1, p);
      RunInv(states, steps, j - 1);
      StepKeepsCalls(states[j - 1], steps[j - 1], states[j], p);
    }
  }

  /** In every reachable state all calls for a push but the latest were definitely declined,
      and a call is out only while its one attempt waits for the reply. */
  lemma OnlyTheLastCallCounts(states: seq<Sys>, steps: seq<Step>, n: nat, p: PushId)
    requires IsRun(states, steps) && n < |states|
    ensures var s := states[n];
      && (forall k :: 0 <= k < |CallsOf(s.calls, p)| - 1 ==> CallsOf(s.calls, p)[k] == Declined)
      && (Last(CallsOf(s.calls, p)) == InCall ==>
            exists i :: i in s.attempts && s.attempts[i].push == p && s.attempts[i].pc == Calling)
  {
    RunInv(states, steps, n);
    hide Referential;
  }

  /** What really happened at the devices, as far as the replies constrain it. */
  ghost predicate TrueEffects(outcomes: seq<Outcome>, applied: seq<bool>) {
    && |applied| == |outcomes|
    && forall k :: 0 <= k < |outcomes| ==>
         (outcomes[k] == Applied ==> applied[k]) && (outcomes[k] == Declined ==> !applied[k])
  }

  /** Whatever the unknown calls really did, a device takes the face for a push at most once. */
  lemma DeviceAppliesAtMostOnce(states: seq<Sys>, steps: seq<Step>, n: nat, p: PushId, applied: seq<bool>, j: nat, k: nat)
    requires IsRun(states, steps) && n < |states| && TrueEffects(CallsOf(states[n].calls, p), applied)
    requires j < |applied| && k < |applied| && applied[j] && applied[k]
    ensures j == k
  {
    OnlyTheLastCallCounts(states, steps, n, p);
    hide Next;
  }

  /** A new attempt starts only after definite rejections and failures before any call. */
  lemma RetryOnlyAfterDeclined(states: seq<Sys>, steps: seq<Step>, n: nat, p: PushId)
    requires IsRun(states, steps) && n < |states| && Retryable(states[n].db, p)
    ensures forall k :: 0 <= k < |CallsOf(states[n].calls, p)| ==> CallsOf(states[n].calls, p)[k] == Declined
    ensures forall i :: i in states[n].attempts && states[n].attempts[i].push == p ==> !Live(states[n].attempts[i].pc)
  {
    RunInv(states, steps, n);
    hide Referential;
    var h := CallsOf(states[n].calls, p);
    assert Last(h) == Declined && DeclinedBefore(h);
  }

  /** A push that may be retried: nobody works on it, and only a retry of it changes that. */
  lemma StepKeepsRetryable(s: Sys, step: Step, s': Sys, p: PushId)
    requires Inv(s) && Next(s, step, s') && Retryable(s.db, p) && !(step.Retry? && step.push == p)
    ensures Retryable(s'.db, p)
  {
    hide *;
    InvParts(s);
    match step
    case Enroll(_, _, _, _, _) => EnrollKeepsRetryable(s, step, s', p);
    case Retry(_, _) => RetryKeepsRetryable(s, step, s', p);
    case Work(i, event) => WorkKeepsRetryable(s, i, event, s', p);
    case Finalize(e) =>
      FinalizeIs(s, e, s');
      SameRowsRetryable(s.db, s'.db, p);
    case RecoverNext(ids) => RecoverKeepsRetryable(s, ids, s', p);
    case _ => PhaseKeepsDb(s, step, s');
  }

  lemma SameRowsRetryable(db: Db, db': Db, p: PushId)
    requires Retryable(db, p) && db'.pushes == db.pushes && db'.checkpoints == db.checkpoints
    ensures Retryable(db', p)
  {
  }

  lemma PhaseKeepsDb(s: Sys, step: Step, s': Sys)
    requires Next(s, step, s') && (step.Crash? || step.Boot? || step.Serve?)
    ensures s'.db == s.db
  {
  }

  lemma EnrollKeepsRetryable(s: Sys, step: Step, s': Sys, p: PushId)
    requires Next(s, step, s') && step.Enroll? && Retryable(s.db, p)
    ensures Retryable(s'.db, p)
  {
    hide HandsOver;
  }

  lemma RetryKeepsRetryable(s: Sys, step: Step, s': Sys, p: PushId)
    requires Next(s, step, s') && step.Retry? && step.push != p && Retryable(s.db, p)
    ensures Retryable(s'.db, p)
  {
    hide HandsOver;
  }

  lemma WorkKeepsRetryable(s: Sys, i: nat, event: Event, s': Sys, p: PushId)
    requires Inv(s) && Next(s, Work(i, event), s') && Retryable(s.db, p)
    ensures Retryable(s'.db, p)
  {
    hide *;
    WorkParts(s, i, event, s');
    AdvanceIsLocal(s.db, s.attempts[i], event);
    if s.attempts[i].push == p {
      LateStepsKeepRetryable(s.db, s.attempts[i], event);
    } else {
      LocalKeepsRetryable(s.db, s'.db, s.attempts[i].push, p);
    }
  }

  lemma LocalKeepsRetryable(db: Db, db': Db, other: PushId, p: PushId)
    requires Local(db, db', other) && p != other && Retryable(db, p)
    ensures Retryable(db', p)
  {
  }

  /** The attempts left on it are over but for the catch-all, which finds nothing to do. */
  lemma LateStepsKeepRetryable(db: Db, a: Attempt, event: Event)
    requires Retryable(db, a.push) && (Live(a.pc) ==> EnrollmentPush(a.push) in db.checkpoints)
    requires Advance(db, a, event).Some?
    ensures Retryable(Advance(db, a, event).value.0, a.push)
  {
  }

  /** Recovery leaves alone what it finds no checkpoint for. */
  lemma RecoverKeepsRetryable(s: Sys, ids: R.NewIds, s': Sys, p: PushId)
    requires Inv(s) && Next(s, RecoverNext(ids), s') && Retryable(s.db, p)
    ensures Retryable(s'.db, p)
  {
    hide *;
    RecoverStepIs(s, ids);
    RecoveringFacts(s);
    RecoverTxIs(s, ids, s');
    if s.phase.half {
      var db0 :| HalfWay(db0, s.phase.todo, s.db);
      HalfWayFacts(db0, s.phase.todo, s.db, ids);
      SecondTxKeepsRetryable(s.db, s.phase.todo[0], ids, p);
    } else {
      R.RemainingHead(s.db, s.phase.todo);
      FirstTxKeepsRetryable(s.db, s.phase.todo[0], ids, p);
    }
  }

  lemma RecoverTxIs(s: Sys, ids: R.NewIds, s': Sys)
    requires Next(s, RecoverNext(ids), s')
    ensures s.phase.Recovering? && s.phase.todo != []
    ensures s.phase.half ==>
      R.SecondTx(s.db, s.phase.todo[0]).Some? && s'.db == R.ApplyTx(s.db, R.SecondTx(s.db, s.phase.todo[0]).value, ids)
    ensures !s.phase.half ==> s'.db == R.ApplyTx(s.db, R.FirstTx(s.db, s.phase.todo[0]), ids)
  {
    hide R.ApplyTx;
    hide R.FirstTx;
    hide R.SecondTx;
  }

  lemma FirstTxKeepsRetryable(db: Db, key: OperationKey, ids: R.NewIds, p: PushId)
    requires Retryable(db, p) && key in db.checkpoints
    ensures Retryable(R.ApplyTx(db, R.FirstTx(db, key), ids), p)
  {
    hide Settled;
    hide VerdictOf;
    hide Upserted;
  }

  lemma SecondTxKeepsRetryable(db: Db, key: OperationKey, ids: R.NewIds, p: PushId)
    requires Retryable(db, p) && R.SecondTx(db, key).Some?
    ensures Retryable(R.ApplyTx(db, R.SecondTx(db, key).value, ids), p)
  {
    hide Settled;
    hide VerdictOf;
  }

  /** The write behind a definite rejection, or a reader that could not be built. */
  predicate DefiniteFailure(s: Sys, step: Step, p: PushId) {
    step.Work? && step.event == Land && step.id in s.attempts && s.attempts[step.id].push == p
    && s.attempts[step.id].pc in {Denied, Unreachable}
  }

  lemma DefiniteFailureOpensRetry(s: Sys, step: Step, s': Sys, p: PushId)
    requires Inv(s) && Next(s, step, s') && DefiniteFailure(s, step, p)
    ensures Retryable(s'.db, p)
  {
    hide Referential;
    hide Histories;
    hide Sealed;
  }

  /** The converse: once the write behind a definite failure landed, the retry guard lets the push
      through in every later state, whatever else goes on and late catch-alls included, until
      somebody retries it. */
  lemma {:induction false} RetryableUntilRetried(states: seq<Sys>, steps: seq<Step>, n: nat, m: nat, p: PushId)
    requires IsRun(states, steps) && n < m < |states| && |states| == |steps| + 1
    requires DefiniteFailure(states[n], steps[n], p)
    requires forall i :: n < i < m ==> !(steps[i].Retry? && steps[i].push == p)
    ensures p in states[m].db.pushes && states[m].db.pushes[p].status == Failed
    ensures EnrollmentPush(p) !in states[m].db.checkpoints
    decreases m
  {
    hide *;
    RunInv(states, steps, m - 1);
    RunStep(states, steps, m - 1);
    if m == n + 1 {
      DefiniteFailureOpensRetry(states[n], steps[n], states[m], p);
    } else {
      RetryableUntilRetried(states, steps, n, m - 1, p);
      RetryableIs(states[m - 1].db, p);
      StepKeepsRetryable(states[m - 1], steps[m - 1], states[m], p);
    }
    RetryableIs(states[m].db, p);
  }

  /** The guard of a retry. */
  lemma RetryableIs(db: Db, p: PushId)
    ensures Retryable(db, p) <==> p in db.pushes && db.pushes[p].status == Failed && EnrollmentPush(p) !in db.checkpoints
  {
  }

  /** One transaction of recovery, with the identifiers it draws, before others that draw their own. */
  lemma RecoverNextMixesIds(s: Sys, own: R.NewIds, s': Sys, later: R.NewIds) returns (ids: R.NewIds)
    requires Inv(s) && Next(s, RecoverNext(own), s')
    ensures R.MixOf(ids, own, later)
    ensures Inv(s') && R.Resolvable(s.db) && R.Resolvable(s'.db) && R.Recovered(s'.db, later) == R.Recovered(s.db, ids)
  {
    hide *;
    RecoverStepIs(s, own);
    RecoveringFacts(s);
    RecoverNextShape(s, own, s');
    RecoverNextInv(s, own, s');
    RecoveringFacts(s');
    if s.phase.half {
      var db0 :| HalfWay(db0, s.phase.todo, s.db);
      HalfWayFacts(db0, s.phase.todo, s.db, own);
      ids := R.KeyMixesIds(db0, s.phase.todo, own, later);
      ids := later;
      R.MixOfAny(own, later, later);
    } else {
      ids := R.KeyMixesIds(s.db, s.phase.todo, own, later);
    }
  }

  lemma RecoverStepIs(s: Sys, own: R.NewIds)
    ensures (exists s' :: Next(s, RecoverNext(own), s')) ==> s.phase.Recovering? && s.phase.todo != []
  {
  }

  lemma NoCallOutWithoutAttempts(s: Sys)
    requires Inv(s) && s.attempts == map[]
    ensures CrashHistory(s.calls) == s.calls
  {
    hide Referential;
    forall p | p in s.calls ensures Last(CallsOf(s.calls, p)) != InCall {}
  }

  lemma InvGivesResolvable(s: Sys)
    requires Inv(s)
    ensures R.Resolvable(s.db)
    ensures s.phase != Serving ==> s.attempts == map[]
  {
    hide R.Resolvable;
  }

  /** A step taken while the process is down or recovering keeps recovery's goal and the call
      history; the step that ends recovery has reached the goal. */
  lemma OfflineStep(s: Sys, step: Step, s': Sys, later: R.NewIds) returns (ids: R.NewIds)
    requires Inv(s) && Next(s, step, s') && s.phase != Serving
    ensures R.MixOf(ids, if step.RecoverNext? then step.ids else later, later)
    ensures Inv(s') && s'.calls == s.calls
    ensures R.Resolvable(s.db) && R.Resolvable(s'.db) && R.Recovered(s'.db, later) == R.Recovered(s.db, ids)
    ensures s'.phase == Serving ==> s'.db == R.Recovered(s.db, ids)
  {
    ids := later;
    R.MixOfAny(later, later, later);
    hide R.Recovered;
    NextInv(s, step, s');
    InvGivesResolvable(s);
    InvGivesResolvable(s');
    hide Inv;
    match step
    case RecoverNext(own) => ids := RecoverNextMixesIds(s, own, s', later);
    case Crash => NoCallOutWithoutAttempts(s);
    case Serve => RecoveringFacts(s); R.NothingRemains(s.db, ids);
    case _ =>
  }

  lemma RunStep(states: seq<Sys>, steps: seq<Step>, i: nat)
    requires IsRun(states, steps) && i < |steps|
    ensures i + 1 < |states| && Next(states[i], steps[i], states[i + 1])
  {
    hide Next;
  }

  /** Every identifier was drawn by a step of the recovery from `n` to `m`, or is the spare one. */
  ghost predicate DrawnIn(ids: R.NewIds, steps: seq<Step>, n: nat, m: nat, spare: R.NewIds)
    requires n <= m <= |steps|
  {
    forall d, f :: ids(d, f) == spare(d, f)
      || exists i :: n <= i < m && steps[i].RecoverNext? && ids(d, f) == steps[i].ids(d, f)
  }

  lemma DrawnInNext(ids: R.NewIds, behind: R.NewIds, steps: seq<Step>, n: nat, m: nat, spare: R.NewIds)
    requires n < m <= |steps|
    requires R.MixOf(behind, if steps[m - 1].RecoverNext? then steps[m - 1].ids else spare, spare)
    requires DrawnIn(ids, steps, n, m - 1, behind)
    ensures DrawnIn(ids, steps, n, m, spare)
  {
  }

  lemma DrawnInNothing(steps: seq<Step>, n: nat, spare: R.NewIds)
    requires n <= |steps|
    ensures DrawnIn(spare, steps, n, n, spare)
  {
  }

  lemma {:induction false} OfflineRun(states: seq<Sys>, steps: seq<Step>, n: nat, m: nat, spare: R.NewIds) returns (ids: R.NewIds)
    requires IsRun(states, steps) && n <= m < |states| && |states| == |steps| + 1
    requires forall i :: n <= i < m ==> states[i].phase != Serving
    ensures Inv(states[n]) && Inv(states[m]) && states[m].calls == states[n].calls
    ensures DrawnIn(ids, steps, n, m, spare)
    ensures R.Resolvable(states[n].db) && R.Resolvable(states[m].db)
    ensures R.Recovered(states[m].db, spare) == R.Recovered(states[n].db, ids)
    ensures n < m && states[m].phase == Serving ==> states[m].db == R.Recovered(states[n].db, ids)
    decreases m - n
  {
    hide *;
    RunInv(states, steps, n);
    InvGivesResolvable(states[n]);
    if n == m {
      ids := spare;
      DrawnInNothing(steps, n, spare);
    } else {
      RunInv(states, steps, m - 1);
      RunStep(states, steps, m - 1);
      var behind := OfflineStep(states[m - 1], steps[m - 1], states[m], spare);
      ids := OfflineRun(states, steps, n, m - 1, behind);
      DrawnInNext(ids, behind, steps, n, m, spare);
    }
  }

  /** Recovery converges from every reachable crash state. Take any run and any moment it is
      down; when it serves requests again, after any number of further crashes inside recovery,
      its database is exactly the recovered one, every new identifier being one that some
      transaction of this recovery drew, and no device call was made in between. */
  lemma RecoveryConverges(states: seq<Sys>, steps: seq<Step>, n: nat, m: nat, spare: R.NewIds)
    requires IsRun(states, steps) && n < m < |states| && |states| == |steps| + 1
    requires states[n].phase == Down && states[m].phase == Serving
    requires forall i :: n <= i < m ==> states[i].phase != Serving
    ensures R.Resolvable(states[n].db) && states[m].calls == states[n].calls
    ensures exists ids :: DrawnIn(ids, steps, n, m, spare) && states[m].db == R.Recovered(states[n].db, ids)
  {
    hide *;
    var ids := OfflineRun(states, steps, n, m, spare);
  }
}
