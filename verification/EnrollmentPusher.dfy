/**
 The straight-line code that pushes one authorized target, shown to be a run of the attempt
 machine of `EnrollmentProtocol`: what that module proves about every interleaving of attempt
 steps is thereby about this code.
 */
module EnrollmentPusher {
  import opened Options
  import opened EnrollmentTables
  import opened EnrollmentProtocol
  import opened EnrollmentService

  datatype Reader = Built | NotBuilt | BuildPanics

  datatype Reply = Yes | No | Silence | CallPanics

  /** What the world around one push does: which queued writes commit, whether a reader can be
      built, and how the device answers; building and calling may also panic. */
  datatype World = World(markLands: bool, reader: Reader, reply: Reply, checkpointLands: bool,
                         completionLands: bool, failureLands: bool, wrapperLands: bool)

  /** The steps an attempt takes one after the other, with nothing in between. */
  function Replay(db: Db, a: Attempt, script: seq<Event>): Option<(Db, Pc)>
    decreases |script|
  {
    if script == [] then Some((db, a.pc)) else
    match Advance(db, a, script[0])
    case None => None
    case Some((db', pc')) => Replay(db', a.(pc := pc'), script[1..])
  }

  lemma ReplayFirst(db: Db, a: Attempt, event: Event, rest: seq<Event>)
    requires Advance(db, a, event).Some?
    ensures var (db', pc') := Advance(db, a, event).value;
      Replay(db, a, [event] + rest) == Replay(db', a.(pc := pc'), rest)
  {
    hide Advance;
    assert ([event] + rest)[1..] == rest;
  }

  lemma {:induction false} ReplayAppend(db: Db, a: Attempt, script: seq<Event>, event: Event)
    requires Replay(db, a, script).Some?
    ensures var (db', pc') := Replay(db, a, script).value;
      Replay(db, a, script + [event]) == Replay(db', a.(pc := pc'), [event])
    decreases |script|
  {
    hide Advance;
    if script == [] {
      assert script + [event] == [event];
    } else {
      var (db1, pc1) := Advance(db, a, script[0]).value;
      assert (script + [event])[1..] == script[1..] + [event];
      ReplayAppend(db1, a.(pc := pc1), script[1..], event);
    }
  }

  function Written(lands: bool): Event { if lands then Land else Lose }

  // ------------------------------------------------------ how an attempt ends

  /** The device took the face. */
  predicate Takes(world: World) { world.markLands && world.reader == Built && world.reply == Yes }

  /** It certainly did not: no reader was built, or the reader said no. */
  predicate Declines(world: World) {
    world.markLands && (world.reader == NotBuilt || (world.reader == Built && world.reply == No))
  }

  predicate Panics(world: World) {
    world.markLands && (world.reader == BuildPanics || (world.reader == Built && world.reply == CallPanics))
  }

  predicate Succeeds(world: World) { Takes(world) && world.checkpointLands && world.completionLands }

  /** The attempt itself writes down that it failed. */
  predicate Notes(world: World) { !Succeeds(world) && !Panics(world) && world.failureLands }

  /** The status of the push in the end. */
  function EndStatus(world: World, before: PushStatus): PushStatus {
    if Succeeds(world) then Success
    else if Notes(world) then Failed
    else if !world.markLands && before.Terminal() then before
    else if world.wrapperLands then Failed
    else if world.markLands then InProgress
    else before
  }

  /** Its checkpoint in the end: gone after a recorded success or definite failure; confirmed when
      only the completion is missing; manual when a failure was noted that tells nothing of the
      device, or when the catch-all found it prepared. */
  function EndCheckpoint(world: World, before: Option<CheckpointState>): Option<CheckpointState> {
    if Succeeds(world) || (Declines(world) && world.failureLands) || before == None then None
    else if Takes(world) && world.checkpointLands then Some(DeviceApplied)
    else if Notes(world) || (world.wrapperLands && before == Some(Prepared)) then Some(Manual)
    else before
  }

  function CheckpointOf(db: Db, p: PushId): Option<CheckpointState> {
    if EnrollmentPush(p) in db.checkpoints then Some(db.checkpoints[EnrollmentPush(p)]) else None
  }

  /** From `before` to `after` the push got this status and this checkpoint, and no other push or
      checkpoint changed. */
  ghost predicate Leaves(before: Db, after: Db, p: PushId, status: PushStatus, checkpoint: Option<CheckpointState>) {
    && p in before.pushes && after.pushes == before.pushes[p := PushRow(before.pushes[p].enrollment, before.pushes[p].device, status)]
    && CheckpointOf(after, p) == checkpoint
    && (forall k :: k != EnrollmentPush(p) ==> (k in after.checkpoints <==> k in before.checkpoints))
    && (forall k :: k != EnrollmentPush(p) && k in after.checkpoints ==> after.checkpoints[k] == before.checkpoints[k])
    && after.enrollments == before.enrollments && after.employees == before.employees && after.devices == before.devices
  }

  lemma LeavesThen(a: Db, b: Db, c: Db, p: PushId, s: PushStatus, k: Option<CheckpointState>, s': PushStatus, k': Option<CheckpointState>)
    requires Leaves(a, b, p, s, k) && Leaves(b, c, p, s', k')
    ensures Leaves(a, c, p, s', k')
  {
  }

  lemma NothingLeft(db: Db, p: PushId)
    requires p in db.pushes
    ensures Leaves(db, db, p, db.pushes[p].status, CheckpointOf(db, p))
  {
  }

  lemma MarkLeaves(db: Db, p: PushId)
    requires p in db.pushes
    ensures Leaves(db, MarkedInProgress(db, p), p, InProgress, CheckpointOf(db, p))
  {
  }

  lemma NoteLeaves(db: Db, p: PushId, manual: bool)
    requires p in db.pushes
    ensures Leaves(db, RecoveryFailureRecorded(db, p, manual), p, Failed,
                   if manual && CheckpointOf(db, p).Some? then Some(Manual) else CheckpointOf(db, p))
  {
  }

  lemma FailureLeaves(db: Db, p: PushId)
    requires p in db.pushes
    ensures Leaves(db, PushFailed(db, p), p, Failed, None)
  {
  }

  lemma ConfirmLeaves(db: Db, p: PushId)
    requires p in db.pushes
    ensures Leaves(db, OperationMarked(db, EnrollmentPush(p), DeviceApplied), p, db.pushes[p].status,
                   if CheckpointOf(db, p).Some? then Some(DeviceApplied) else None)
  {
  }

  lemma SuccessLeaves(db: Db, a: Attempt)
    requires a.push in db.pushes
    ensures var db' := PushSucceeded(db, a.push, a.device, a.face, a.employee, a.newId);
      && Leaves(db, db', a.push, Success, None)
      && (a.device, a.face) in db'.mappings && db'.mappings[(a.device, a.face)].employee == a.employee
      && db'.mappings[(a.device, a.face)].state == Active
  {
  }

  lemma CatchAllLeaves(db: Db, p: PushId)
    requires p in db.pushes
    ensures Leaves(db, Terminalized(db, p), p, if db.pushes[p].status.Terminal() then db.pushes[p].status else Failed,
                   if CheckpointOf(db, p) == Some(Prepared) then Some(Manual) else CheckpointOf(db, p))
  {
  }

  /** The steps of an attempt on an existing push, with the catch-all behind each failure. */
  function Script(world: World): seq<Event> {
    var last := [Written(world.wrapperLands)] + [];
    Steps(world, [Written(world.failureLands)] + last, last)
  }

  /** The steps of an attempt; `noted` stands for a written failure, `last` for what follows a panic. */
  function Steps(world: World, noted: seq<Event>, last: seq<Event>): seq<Event> {
    if !world.markLands then [Lose] + noted
    else match world.reader
      case BuildPanics => [Land] + ([Panicked] + last)
      case NotBuilt => [Land] + ([BadConnection] + noted)
      case Built => [Land] + ([Connected] + CallScript(world, noted, last))
  }

  function CallScript(world: World, noted: seq<Event>, last: seq<Event>): seq<Event> {
    match world.reply
    case No => [Rejected] + noted
    case Silence => [Unclear] + noted
    case CallPanics => [Panicked] + last
    case Yes =>
      if !world.checkpointLands then [Accepted] + ([Lose] + noted)
      else if world.completionLands then [Accepted] + ([Land] + ([Land] + []))
      else [Accepted] + ([Land] + ([Lose] + noted))
  }

  lemma StepsAppend(world: World)
    ensures Steps(world, [Written(world.failureLands)], []) + (if Succeeds(world) then [] else [Written(world.wrapperLands)]) == Script(world)
  {
    var note, last := [Written(world.failureLands)], [Written(world.wrapperLands)];
    if world.markLands && world.reader == Built { CallAppends(world, note, last); }
    hide CallScript;
    hide Written;
    if world.markLands {
      match world.reader
      case BuildPanics => assert [Land] + ([Panicked] + []) + last == [Land] + ([Panicked] + (last + []));
      case NotBuilt => assert [Land] + ([BadConnection] + note) + last == [Land] + ([BadConnection] + (note + (last + [])));
      case Built => assert forall c: seq<Event>, d: seq<Event> :: [Land] + ([Connected] + c) + d == [Land] + ([Connected] + (c + d));
    } else {
      assert [Lose] + note + last == [Lose] + (note + (last + []));
    }
  }

  lemma CallAppends(world: World, note: seq<Event>, last: seq<Event>)
    requires world.markLands && world.reader == Built
    ensures CallScript(world, note, []) + (if Succeeds(world) then [] else last) == CallScript(world, note + (last + []), last + [])
  {
  }

  lemma ReplayStep(db: Db, a: Attempt, event: Event, rest: seq<Event>, db': Db, pc': Pc)
    requires Advance(db, a, event) == Some((db', pc'))
    ensures Replay(db, a, [event] + rest) == Replay(db', a.(pc := pc'), rest)
  {
    ReplayFirst(db, a, event, rest);
    hide *;
  }

  /** The last write of a failed attempt. */
  lemma CatchAll(db0: Db, db: Db, a: Attempt, s: PushStatus, k: Option<CheckpointState>, lands: bool) returns (db': Db)
    requires a.pc == Terminalizing && Leaves(db0, db, a.push, s, k)
    ensures Replay(db, a, [Written(lands)] + []) == Some((db', Finished))
    ensures Leaves(db0, db', a.push, if lands && !s.Terminal() then Failed else s,
                   if lands && k == Some(Prepared) then Some(Manual) else k)
  {
    db' := if lands then Terminalized(db, a.push) else db;
    ReplayStep(db, a, Written(lands), [], db', Finished);
    assert Replay(db', a.(pc := Finished), []) == Some((db', Finished));
    StatusLeft(db0, db, a.push, s, k);
    hide *;
    if lands {
      CatchAllLeaves(db, a.push);
      LeavesThen(db0, db, db', a.push, s, k, if !s.Terminal() then Failed else s, if k == Some(Prepared) then Some(Manual) else k);
    }
  }

  lemma StatusLeft(db0: Db, db: Db, p: PushId, s: PushStatus, k: Option<CheckpointState>)
    requires Leaves(db0, db, p, s, k)
    ensures p in db.pushes && db.pushes[p].status == s && CheckpointOf(db, p) == k
  {
  }

  /** The note of a failure, and the catch-all behind it. */
  lemma Noted(db0: Db, db: Db, a: Attempt, s: PushStatus, k: Option<CheckpointState>, world: World) returns (db': Db)
    requires a.pc in {MarkLost, CheckpointLost, MappingLost, Ambiguous, Unreachable, Denied} && Leaves(db0, db, a.push, s, k)
    ensures Replay(db, a, [Written(world.failureLands)] + ([Written(world.wrapperLands)] + [])) == Some((db', Finished))
    ensures world.failureLands ==> Leaves(db0, db', a.push, Failed,
      if a.pc in {Unreachable, Denied} || k == None then None
      else if a.pc == MappingLost then (if world.wrapperLands && k == Some(Prepared) then Some(Manual) else k)
      else Some(Manual))
    ensures !world.failureLands ==> Leaves(db0, db', a.push, if world.wrapperLands && !s.Terminal() then Failed else s,
      if world.wrapperLands && k == Some(Prepared) then Some(Manual) else k)
  {
    StatusLeft(db0, db, a.push, s, k);
    NoteStep(db, a);
    var noted := if !world.failureLands then db
      else if a.pc in {Unreachable, Denied} then PushFailed(db, a.push) else RecoveryFailureRecorded(db, a.push, a.pc != MappingLost);
    hide *;
    ReplayStep(db, a, Written(world.failureLands), [Written(world.wrapperLands)] + [], noted, Terminalizing);
    if !world.failureLands {
      db' := CatchAll(db0, db, a.(pc := Terminalizing), s, k, world.wrapperLands);
    } else if a.pc in {Unreachable, Denied} {
      FailureLeaves(db, a.push);
      LeavesThen(db0, db, noted, a.push, s, k, Failed, None);
      db' := CatchAll(db0, noted, a.(pc := Terminalizing), Failed, None, world.wrapperLands);
    } else {
      var k' := if a.pc != MappingLost && k.Some? then Some(Manual) else k;
      NoteLeaves(db, a.push, a.pc != MappingLost);
      LeavesThen(db0, db, noted, a.push, s, k, Failed, k');
      db' := CatchAll(db0, noted, a.(pc := Terminalizing), Failed, k', world.wrapperLands);
    }
  }

  lemma NoteStep(db: Db, a: Attempt)
    requires a.pc in {MarkLost, CheckpointLost, MappingLost, Ambiguous, Unreachable, Denied}
    ensures Written(true) == Land && Written(false) == Lose && Advance(db, a, Lose) == Some((db, Terminalizing))
    ensures Advance(db, a, Land) == Some((if a.pc in {Unreachable, Denied} then PushFailed(db, a.push)
                                          else RecoveryFailureRecorded(db, a.push, a.pc != MappingLost), Terminalizing))
  {
  }

  lemma QueuedSteps(db: Db, a: Attempt)
    ensures Advance(db, a.(pc := Queued), Lose) == Some((db, MarkLost))
    ensures Advance(db, a.(pc := Queued), Land) == Some((MarkedInProgress(db, a.push), Building))
    ensures forall d :: Advance(d, a.(pc := Building), Panicked) == Some((d, Terminalizing))
    ensures forall d :: Advance(d, a.(pc := Building), BadConnection) == Some((d, Unreachable))
    ensures forall d :: Advance(d, a.(pc := Building), Connected) == Some((d, Calling))
  {
  }

  lemma CallSteps(db: Db, a: Attempt)
    ensures Advance(db, a.(pc := Calling), Rejected) == Some((db, Denied))
    ensures Advance(db, a.(pc := Calling), Unclear) == Some((db, Ambiguous))
    ensures Advance(db, a.(pc := Calling), Panicked) == Some((db, Terminalizing))
    ensures Advance(db, a.(pc := Calling), Accepted) == Some((db, Confirmed))
    ensures Advance(db, a.(pc := Confirmed), Lose) == Some((db, CheckpointLost))
    ensures Advance(db, a.(pc := Confirmed), Land) == Some((OperationMarked(db, EnrollmentPush(a.push), DeviceApplied), Checkpointed))
    ensures Advance(db, a.(pc := Checkpointed), Lose) == Some((db, MappingLost))
    ensures a.push in db.pushes ==>
      Advance(db, a.(pc := Checkpointed), Land) == Some((PushSucceeded(db, a.push, a.device, a.face, a.employee, a.newId), Finished))
  {
    hide PushSucceeded;
    hide OperationMarked;
  }

  /** How an attempt ends, whatever the world does: the row and the checkpoint of its push. */
  lemma AttemptEnds(db: Db, a: Attempt, world: World)
    requires a.pc == Queued && a.push in db.pushes
    ensures Replay(db, a, Script(world)).Some? && Replay(db, a, Script(world)).value.1 == Finished
    ensures var db' := Replay(db, a, Script(world)).value.0;
      && Leaves(db, db', a.push, EndStatus(world, db.pushes[a.push].status), EndCheckpoint(world, CheckpointOf(db, a.push)))
      && (Succeeds(world) ==>
            (a.device, a.face) in db'.mappings && db'.mappings[(a.device, a.face)].employee == a.employee
            && db'.mappings[(a.device, a.face)].state == Active)
  {
    hide Replay;
    hide Leaves;
    hide CheckpointOf;
    hide MarkedInProgress;
    hide PushSucceeded;
    hide PushFailed;
    hide OperationMarked;
    hide RecoveryFailureRecorded;
    hide Terminalized;
    var s, k := db.pushes[a.push].status, CheckpointOf(db, a.push);
    var last := [Written(world.wrapperLands)] + [];
    var noted := [Written(world.failureLands)] + last;
    var marked := MarkedInProgress(db, a.push);
    MarkLeaves(db, a.push);
    NothingLeft(db, a.push);
    QueuedSteps(db, a);
    hide Advance;
    if !world.markLands {
      ReplayStep(db, a, Lose, noted, db, MarkLost);
      var _ := Noted(db, db, a.(pc := MarkLost), s, k, world);
    } else if world.reader == BuildPanics {
      ReplayStep(db, a, Land, [Panicked] + last, marked, Building);
      ReplayStep(marked, a.(pc := Building), Panicked, last, marked, Terminalizing);
      var _ := CatchAll(db, marked, a.(pc := Terminalizing), InProgress, k, world.wrapperLands);
    } else if world.reader == NotBuilt {
      ReplayStep(db, a, Land, [BadConnection] + noted, marked, Building);
      ReplayStep(marked, a.(pc := Building), BadConnection, noted, marked, Unreachable);
      var _ := Noted(db, marked, a.(pc := Unreachable), InProgress, k, world);
    } else {
      var call := CallScript(world, noted, last);
      ReplayStep(db, a, Land, [Connected] + call, marked, Building);
      ReplayStep(marked, a.(pc := Building), Connected, call, marked, Calling);
      CallEnds(db, marked, a.(pc := Calling), world);
    }
  }

  lemma CallEnds(db0: Db, db: Db, a: Attempt, world: World)
    requires a.pc == Calling && world.markLands && world.reader == Built && a.push in db0.pushes
    requires Leaves(db0, db, a.push, InProgress, CheckpointOf(db0, a.push))
    ensures var last := [Written(world.wrapperLands)] + [];
      var end := Replay(db, a, CallScript(world, [Written(world.failureLands)] + last, last));
      && end.Some? && end.value.1 == Finished
      && Leaves(db0, end.value.0, a.push, EndStatus(world, db0.pushes[a.push].status), EndCheckpoint(world, CheckpointOf(db0, a.push)))
      && (Succeeds(world) ==>
            (a.device, a.face) in end.value.0.mappings && end.value.0.mappings[(a.device, a.face)].employee == a.employee
            && end.value.0.mappings[(a.device, a.face)].state == Active)
  {
    hide Replay;
    hide Leaves;
    hide CheckpointOf;
    hide MarkedInProgress;
    hide PushSucceeded;
    hide PushFailed;
    hide OperationMarked;
    hide RecoveryFailureRecorded;
    hide Terminalized;
    var k := CheckpointOf(db0, a.push);
    var last := [Written(world.wrapperLands)] + [];
    var noted := [Written(world.failureLands)] + last;
    CallSteps(db, a);
    hide Advance;
    match world.reply
    case No =>
      ReplayStep(db, a, Rejected, noted, db, Denied);
      var _ := Noted(db0, db, a.(pc := Denied), InProgress, k, world);
    case Silence =>
      ReplayStep(db, a, Unclear, noted, db, Ambiguous);
      var _ := Noted(db0, db, a.(pc := Ambiguous), InProgress, k, world);
    case CallPanics =>
      ReplayStep(db, a, Panicked, last, db, Terminalizing);
      var _ := CatchAll(db0, db, a.(pc := Terminalizing), InProgress, k, world.wrapperLands);
    case Yes =>
      AcceptedEnds(db0, db, a, world);
  }

  lemma AcceptedEnds(db0: Db, db: Db, a: Attempt, world: World)
    requires a.pc == Calling && Takes(world) && a.push in db0.pushes
    requires Leaves(db0, db, a.push, InProgress, CheckpointOf(db0, a.push))
    ensures var last := [Written(world.wrapperLands)] + [];
      var end := Replay(db, a, CallScript(world, [Written(world.failureLands)] + last, last));
      && end.Some? && end.value.1 == Finished
      && Leaves(db0, end.value.0, a.push, EndStatus(world, db0.pushes[a.push].status), EndCheckpoint(world, CheckpointOf(db0, a.push)))
      && (Succeeds(world) ==>
            (a.device, a.face) in end.value.0.mappings && end.value.0.mappings[(a.device, a.face)].employee == a.employee
            && end.value.0.mappings[(a.device, a.face)].state == Active)
  {
    hide Replay;
    hide Leaves;
    hide CheckpointOf;
    hide MarkedInProgress;
    hide PushSucceeded;
    hide PushFailed;
    hide OperationMarked;
    hide RecoveryFailureRecorded;
    hide Terminalized;
    var k := CheckpointOf(db0, a.push);
    var k' := if k.Some? then Some(DeviceApplied) else None;
    var last := [Written(world.wrapperLands)] + [];
    var noted := [Written(world.failureLands)] + last;
    var confirmed := OperationMarked(db, EnrollmentPush(a.push), DeviceApplied);
    StatusLeft(db0, db, a.push, InProgress, k);
    CallSteps(db, a);
    CallSteps(confirmed, a);
    hide Advance;
    if !world.checkpointLands {
      ReplayStep(db, a, Accepted, [Lose] + noted, db, Confirmed);
      ReplayStep(db, a.(pc := Confirmed), Lose, noted, db, CheckpointLost);
      var _ := Noted(db0, db, a.(pc := CheckpointLost), InProgress, k, world);
    } else {
      ConfirmLeaves(db, a.push);
      LeavesThen(db0, db, confirmed, a.push, InProgress, k, InProgress, k');
      StatusLeft(db0, confirmed, a.push, InProgress, k');
      if world.completionLands {
        var done := PushSucceeded(confirmed, a.push, a.device, a.face, a.employee, a.newId);
        ReplayStep(db, a, Accepted, [Land] + ([Land] + []), db, Confirmed);
        ReplayStep(db, a.(pc := Confirmed), Land, [Land] + [], confirmed, Checkpointed);
        ReplayStep(confirmed, a.(pc := Checkpointed), Land, [], done, Finished);
        ReplayEnds(done, a.(pc := Finished));
        SuccessLeaves(confirmed, a);
        LeavesThen(db0, confirmed, done, a.push, InProgress, k', Success, None);
      } else {
        ReplayStep(db, a, Accepted, [Land] + ([Lose] + noted), db, Confirmed);
        ReplayStep(db, a.(pc := Confirmed), Land, [Lose] + noted, confirmed, Checkpointed);
        ReplayStep(confirmed, a.(pc := Checkpointed), Lose, noted, confirmed, MappingLost);
        var _ := Noted(db0, confirmed, a.(pc := MappingLost), InProgress, k', world);
      }
    }
  }

  lemma ReplayEnds(db: Db, a: Attempt)
    ensures Replay(db, a, []) == Some((db, a.pc))
  {
  }

  /** `push_enrollment_device` with an authorized attempt, then the wrapper's catch-all. It
      succeeds exactly when the mark commits, the reader is built, the device accepts, and both
      following writes commit; every failure path ends through the catch-all, a panic included.
      The device is called exactly when the mark commits and the reader is built. */
  method PushAuthorizedTarget(db: EnrollmentDatabase, a: Attempt, world: World)
    returns (ok: bool, ghost script: seq<Event>)
    requires a.pc == Queued
    modifies db
    ensures ok == (world.markLands && world.reader == Built && world.reply == Yes && world.checkpointLands
                   && world.completionLands && a.push in old(db.pushes))
    ensures Replay(old(db.Contents()), a, script) == Some((db.Contents(), Finished))
    ensures Connected in script <==> world.markLands && world.reader == Built
    ensures ok ==> script == [Land, Connected, Accepted, Land, Land]
    ensures !ok ==> script != [] && script[|script| - 1] == Written(world.wrapperLands)
    ensures a.push in old(db.pushes) ==>
      Leaves(old(db.Contents()), db.Contents(), a.push, EndStatus(world, old(db.pushes[a.push].status)),
             EndCheckpoint(world, CheckpointOf(old(db.Contents()), a.push)))
    ensures ok ==>
      && db.pushes[a.push].status == Success && EnrollmentPush(a.push) !in db.checkpoints
      && (a.device, a.face) in db.mappings && db.mappings[(a.device, a.face)].employee == a.employee
      && db.mappings[(a.device, a.face)].state == Active
    ensures a.push in old(db.pushes) && Declines(world) && world.failureLands ==>
      db.pushes[a.push].status == Failed && EnrollmentPush(a.push) !in db.checkpoints
    ensures a.push in old(db.pushes) && EnrollmentPush(a.push) in old(db.checkpoints) && Notes(world) && !Declines(world)
            && !(Takes(world) && world.checkpointLands)
      ==> db.pushes[a.push].status == Failed
          && EnrollmentPush(a.push) in db.checkpoints && db.checkpoints[EnrollmentPush(a.push)] == Manual
  {
    hide Replay;
    hide Advance;
    hide Leaves;
    hide Steps;
    hide Script;
    hide EndStatus;
    hide EndCheckpoint;
    ghost var before := db.Contents();
    ok, script := PushEnrollmentDevice(db, a, world);
    if !ok {
      CatchAllStep(db.Contents(), a.(pc := Terminalizing), world.wrapperLands);
      ReplayAppend(old(db.Contents()), a, script, Written(world.wrapperLands));
      if world.wrapperLands { db.TerminalizeAuthorizedFailure(a.push); }
      script := script + [Written(world.wrapperLands)];
    }
    if a.push in before.pushes {
      StepsAppend(world);
      assert script + [] == script;
      AttemptEnds(before, a, world);
      EndInColumns(before, db.Contents(), a.push, world);
    }
  }

  lemma CatchAllStep(db: Db, a: Attempt, lands: bool)
    requires a.pc == Terminalizing
    ensures Replay(db, a, [Written(lands)]) == Some((if lands then Terminalized(db, a.push) else db, Finished))
  {
    assert [Written(lands)][1..] == [];
    hide Terminalized;
  }

  lemma EndInColumns(before: Db, after: Db, p: PushId, world: World)
    requires p in before.pushes
    requires Leaves(before, after, p, EndStatus(world, before.pushes[p].status), EndCheckpoint(world, CheckpointOf(before, p)))
    ensures p in after.pushes
    ensures Succeeds(world) ==> after.pushes[p].status == Success && EnrollmentPush(p) !in after.checkpoints
    ensures Declines(world) && world.failureLands ==> after.pushes[p].status == Failed && EnrollmentPush(p) !in after.checkpoints
    ensures EnrollmentPush(p) in before.checkpoints && Notes(world) && !Declines(world) && !(Takes(world) && world.checkpointLands)
      ==> after.pushes[p].status == Failed
          && EnrollmentPush(p) in after.checkpoints && after.checkpoints[EnrollmentPush(p)] == Manual
  {
  }

  method PushEnrollmentDevice(db: EnrollmentDatabase, a: Attempt, world: World)
    returns (ok: bool, ghost script: seq<Event>)
    requires a.pc == Queued
    modifies db
    ensures ok == (world.markLands && world.reader == Built && world.reply == Yes && world.checkpointLands
                   && world.completionLands && a.push in old(db.pushes))
    ensures Replay(old(db.Contents()), a, script) == Some((db.Contents(), if ok then Finished else Terminalizing))
    ensures a.push in old(db.pushes) ==> script == Steps(world, [Written(world.failureLands)], [])
    ensures Connected in script <==> world.markLands && world.reader == Built
    ensures ok ==> script == [Land, Connected, Accepted, Land, Land]
  {
    ghost var start := db.Contents();
    hide Replay;
    hide CallScript;
    QueuedSteps(start, a);
    hide Advance;
    if !world.markLands {
      script := RecordFailure(db, a.(pc := MarkLost), world.failureLands);
      ReplayStep(start, a, Lose, script, start, MarkLost);
      return false, [Lose] + script;
    }
    db.MarkPushInProgress(a.push);
    ghost var marked := db.Contents();
    if world.reader == BuildPanics {
      ReplayStep(marked, a.(pc := Building), Panicked, [], marked, Terminalizing);
      ReplayEnds(marked, a.(pc := Terminalizing));
      ReplayStep(start, a, Land, [Panicked] + [], marked, Building);
      return false, [Land] + ([Panicked] + []);
    }
    if world.reader == NotBuilt {
      script := CompleteFailure(db, a.(pc := Unreachable), world.failureLands);
      ReplayStep(marked, a.(pc := Building), BadConnection, script, marked, Unreachable);
      ReplayStep(start, a, Land, [BadConnection] + script, marked, Building);
      return false, [Land] + ([BadConnection] + script);
    }
    ok, script := CallDevice(db, a.(pc := Calling), world);
    ReplayStep(marked, a.(pc := Building), Connected, script, marked, Calling);
    ReplayStep(start, a, Land, [Connected] + script, marked, Building);
    script := [Land] + ([Connected] + script);
  }

  /** The device call and everything that depends on its answer. */
  method CallDevice(db: EnrollmentDatabase, a: Attempt, world: World) returns (ok: bool, ghost script: seq<Event>)
    requires a.pc == Calling
    modifies db
    ensures ok == (world.reply == Yes && world.checkpointLands && world.completionLands && a.push in old(db.pushes))
    ensures Replay(old(db.Contents()), a, script) == Some((db.Contents(), if ok then Finished else Terminalizing))
    ensures a.push in old(db.pushes) ==> script == CallScript(world, [Written(world.failureLands)], [])
    ensures Connected !in script && (ok ==> script == [Accepted, Land, Land])
  {
    ghost var start := db.Contents();
    ok := false;
    match world.reply
    case Yes =>
      ok, script := PersistSuccess(db, a.(pc := Confirmed), world);
      ReplayFirst(start, a, Accepted, script);
      script := [Accepted] + script;
    case No =>
      script := CompleteFailure(db, a.(pc := Denied), world.failureLands);
      ReplayFirst(start, a, Rejected, script);
      script := [Rejected] + script;
    case Silence =>
      script := RecordFailure(db, a.(pc := Ambiguous), world.failureLands);
      ReplayFirst(start, a, Unclear, script);
      script := [Unclear] + script;
    case CallPanics =>
      ReplayFirst(start, a, Panicked, []);
      script := [Panicked] + [];
  }

  /** The durable record of an accepted call: checkpoint first, then push and mapping. */
  method PersistSuccess(db: EnrollmentDatabase, a: Attempt, world: World) returns (ok: bool, ghost script: seq<Event>)
    requires a.pc == Confirmed
    modifies db
    ensures ok == (world.checkpointLands && world.completionLands && a.push in old(db.pushes))
    ensures Replay(old(db.Contents()), a, script) == Some((db.Contents(), if ok then Finished else Terminalizing))
    ensures a.push in old(db.pushes) ==>
      script == if !world.checkpointLands then [Lose] + [Written(world.failureLands)]
                else if world.completionLands then [Land] + ([Land] + []) else [Land] + ([Lose] + [Written(world.failureLands)])
    ensures Connected !in script && (ok ==> script == [Land, Land])
  {
    ghost var start := db.Contents();
    if !world.checkpointLands {
      script := RecordFailure(db, a.(pc := CheckpointLost), world.failureLands);
      ReplayFirst(start, a, Lose, script);
      return false, [Lose] + script;
    }
    db.MarkDeviceOperation(EnrollmentPush(a.push), DeviceApplied);
    ghost var checkpointed := db.Contents();
    ok, script := false, [];
    if world.completionLands {
      ok := db.CompletePushSuccess(a.push, a.device, a.face, a.employee, a.newId);
    }
    if !ok { script := RecordFailure(db, a.(pc := MappingLost), world.failureLands); }
    ReplayFirst(checkpointed, a.(pc := Checkpointed), Written(world.completionLands), script);
    ReplayFirst(start, a, Land, [Written(world.completionLands)] + script);
    script := [Land] + ([Written(world.completionLands)] + script);
  }

  /** `record_push_recovery_failure`; manual except after a recorded success of the device call. */
  method RecordFailure(db: EnrollmentDatabase, a: Attempt, lands: bool) returns (ghost script: seq<Event>)
    requires a.pc in {MarkLost, CheckpointLost, MappingLost, Ambiguous}
    modifies db
    ensures Replay(old(db.Contents()), a, script) == Some((db.Contents(), Terminalizing))
    ensures script == [Written(lands)]
  {
    if lands { var _ := db.RecordPushRecoveryFailure(a.push, a.pc != MappingLost); }
    script := [Written(lands)];
    assert script[1..] == [];
  }

  method CompleteFailure(db: EnrollmentDatabase, a: Attempt, lands: bool) returns (ghost script: seq<Event>)
    requires a.pc in {Unreachable, Denied}
    modifies db
    ensures Replay(old(db.Contents()), a, script) == Some((db.Contents(), Terminalizing))
    ensures script == [Written(lands)]
  {
    if lands { var _ := db.CompletePushFailure(a.push); }
    script := [Written(lands)];
    assert script[1..] == [];
  }
}
