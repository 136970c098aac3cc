/**
 The dispatcher as the source has it: a flag, an unbounded channel, and one loop that hands
 each command to the tracker or, when the tracker refuses it, writes the refusal down.
 `EnrollmentDrain` is about what other threads can do in between.
 */
module EnrollmentDispatcher {
  import opened EnrollmentTables
  import opened EnrollmentDrain
  import S = EnrollmentService

  datatype Command = Command(enrollment: EnrollmentId, targets: seq<PushId>)

  /** What is written about a refused command when `landing` writes get through: the first
      write that fails, or finds no row, ends it. */
  function RefusalRecorded(db: Db, enrollment: EnrollmentId, targets: seq<PushId>, landing: nat): Db
    decreases |targets|
  {
    if landing == 0 then db
    else if targets == [] then Finalized(db, enrollment)
    else if targets[0] !in db.pushes then db
    else RefusalRecorded(RecoveryFailureRecorded(db, targets[0], true), enrollment, targets[1..], landing - 1)
  }

  function FailedAndManual(db: Db, targets: set<PushId>): Db {
    db.(pushes := map p | p in db.pushes :: if p in targets then db.pushes[p].(status := Failed) else db.pushes[p],
        checkpoints := map k | k in db.checkpoints ::
          if k.EnrollmentPush? && k.push in targets then Manual else db.checkpoints[k])
  }

  lemma FailedAndManualOnce(db: Db, push: PushId, rest: set<PushId>)
    requires push in db.pushes
    ensures FailedAndManual(RecoveryFailureRecorded(db, push, true), rest) == FailedAndManual(db, {push} + rest)
  {
    var one := RecoveryFailureRecorded(db, push, true);
    assert one.checkpoints.Keys == db.checkpoints.Keys;
    var a, b := FailedAndManual(one, rest), FailedAndManual(db, {push} + rest);
    assert a.pushes == b.pushes;
    assert a.checkpoints == b.checkpoints;
  }

  function Named(targets: seq<PushId>): set<PushId> {
    set p | p in targets
  }

  lemma NamedFirst(targets: seq<PushId>)
    requires targets != []
    ensures Named(targets) == {targets[0]} + Named(targets[1..])
  {
  }

  lemma NoneFailed(db: Db)
    ensures FailedAndManual(db, {}) == db
  {
    var none := FailedAndManual(db, {});
    assert none.pushes == db.pushes;
    assert none.checkpoints == db.checkpoints;
  }

  /** With every write through, exactly the command's pushes are failed, exactly their
      checkpoints are manual, and the enrollment is finalized on top of that. */
  lemma {:induction false} RefusalMeans(db: Db, enrollment: EnrollmentId, targets: seq<PushId>, landing: nat)
    requires landing > |targets| && forall p :: p in targets ==> p in db.pushes
    ensures RefusalRecorded(db, enrollment, targets, landing)
         == Finalized(FailedAndManual(db, Named(targets)), enrollment)
    decreases |targets|
  {
    if targets == [] {
      NoneFailed(db);
      hide FailedAndManual;
      hide Finalized;
      assert Named(targets) == {};
    } else {
      var one := RecoveryFailureRecorded(db, targets[0], true);
      assert one.pushes.Keys == db.pushes.Keys;
      hide *;
      NamedFirst(targets);
      FailedAndManualOnce(db, targets[0], Named(targets[1..]));
      RefusalMeans(one, enrollment, targets[1..], landing - 1);
      RefusalUnfolds(db, enrollment, targets, landing);
    }
  }

  lemma RefusalUnfolds(db: Db, enrollment: EnrollmentId, targets: seq<PushId>, landing: nat)
    requires landing > 0 && targets != [] && targets[0] in db.pushes
    ensures RefusalRecorded(db, enrollment, targets, landing)
         == RefusalRecorded(RecoveryFailureRecorded(db, targets[0], true), enrollment, targets[1..], landing - 1)
  {
    hide RecoveryFailureRecorded;
    hide Finalized;
  }

  /** A refused command that names every push of its enrollment ends that enrollment as failed. */
  lemma RefusalFailsTheEnrollment(db: Db, enrollment: EnrollmentId, targets: seq<PushId>, landing: nat)
    requires landing > |targets| && enrollment in db.enrollments
    requires forall p :: p in targets <==> p in PushesOf(db.pushes, enrollment)
    ensures var done := RefusalRecorded(db, enrollment, targets, landing);
      enrollment in done.enrollments && done.enrollments[enrollment].status == NoneSucceeded
  {
    RefusalMeans(db, enrollment, targets, landing);
    var done := FailedAndManual(db, Named(targets));
    assert PushesOf(done.pushes, enrollment) == PushesOf(db.pushes, enrollment);
    CountZero(done.pushes, enrollment, Pending);
    CountZero(done.pushes, enrollment, InProgress);
    CountZero(done.pushes, enrollment, Success);
  }

  /** The commands a loop that stops at the first close takes from `channel`. */
  function BeforeClose(channel: seq<Message>): (taken: seq<CommandId>)
    ensures |taken| <= |channel|
    ensures forall i :: 0 <= i < |taken| ==> channel[i] == Dispatch(taken[i])
    ensures Close in channel ==> |taken| < |channel| && channel[|taken|] == Close
  {
    if channel == [] || channel[0].Close? then [] else [channel[0].command] + BeforeClose(channel[1..])
  }

  function AllRefused(db: Db, commands: CommandId -> Command, landing: CommandId -> nat, taken: seq<CommandId>): Db
    decreases |taken|
  {
    if taken == [] then db
    else AllRefused(RefusalRecorded(db, commands(taken[0]).enrollment, commands(taken[0]).targets, landing(taken[0])),
                    commands, landing, taken[1..])
  }

  lemma AllRefusedNext(db: Db, commands: CommandId -> Command, landing: CommandId -> nat, taken: seq<CommandId>, done: nat)
    requires done < |taken|
    ensures var c := taken[done];
      AllRefused(db, commands, landing, taken[done..])
      == AllRefused(RefusalRecorded(db, commands(c).enrollment, commands(c).targets, landing(c)), commands, landing, taken[done + 1..])
  {
    assert taken[done..][1..] == taken[done + 1..];
  }

  lemma AllRefusedAll(db: Db, commands: CommandId -> Command, landing: CommandId -> nat, taken: seq<CommandId>)
    ensures AllRefused(db, commands, landing, taken[|taken|..]) == db
    ensures taken[..|taken|] == taken == taken[0..]
  {
  }

  function TasksOf(taken: seq<CommandId>): set<Task> {
    set c | c in taken :: ForCommand(c)
  }

  ghost predicate Distinct(taken: seq<CommandId>) {
    forall i, j :: 0 <= i < j < |taken| ==> taken[i] != taken[j]
  }

  lemma NoTasksYet(taken: seq<CommandId>)
    ensures TasksOf(taken[..0]) == {}
  {
  }

  lemma InTasks(taken: seq<CommandId>, done: nat)
    requires done < |taken|
    ensures ForCommand(taken[done]) in TasksOf(taken)
  {
  }

  lemma TasksOfNext(taken: seq<CommandId>, done: nat)
    requires done < |taken| && Distinct(taken)
    ensures ForCommand(taken[done]) !in TasksOf(taken[..done])
    ensures TasksOf(taken[..done + 1]) == TasksOf(taken[..done]) + {ForCommand(taken[done])}
  {
    assert taken[..done + 1] == taken[..done] + [taken[done]];
  }

  /** What the tracker has admitted after the first `done` commands. */
  ghost function Admitted(before: set<Task>, taken: seq<CommandId>, done: nat, accepting: bool): set<Task>
    requires done <= |taken|
  {
    before + (if accepting then TasksOf(taken[..done]) else {})
  }

  lemma AdmittedNext(before: set<Task>, taken: seq<CommandId>, done: nat, accepting: bool)
    requires done < |taken| && Distinct(taken) && TasksOf(taken) !! before
    ensures var c := taken[done];
      && ForCommand(c) !in Admitted(before, taken, done, accepting)
      && Admitted(before, taken, done + 1, accepting) == Admitted(before, taken, done, accepting) + (if accepting then {ForCommand(c)} else {})
  {
    TasksOfNext(taken, done);
    InTasks(taken, done);
    hide TasksOf;
    hide Distinct;
  }

  lemma AdmittedEnds(before: set<Task>, taken: seq<CommandId>, accepting: bool)
    ensures Admitted(before, taken, 0, accepting) == before
    ensures Admitted(before, taken, |taken|, accepting) == before + (if accepting then TasksOf(taken) else {})
  {
    NoTasksYet(taken);
    assert taken[..|taken|] == taken;
    hide TasksOf;
  }

  /** After `done` messages the loop has the rest of the channel and of the commands in front of it. */
  ghost predicate At(whole: seq<Message>, channel: seq<Message>, done: nat) {
    && Close in channel && done <= |whole| && channel == whole[done..]
    && done <= |BeforeClose(whole)| && BeforeClose(channel) == BeforeClose(whole)[done..]
  }

  lemma AtStart(whole: seq<Message>)
    requires Close in whole
    ensures At(whole, whole, 0)
  {
    hide BeforeClose;
  }

  lemma AtNext(whole: seq<Message>, channel: seq<Message>, done: nat)
    requires At(whole, channel, done)
    ensures channel != []
    ensures channel[0].Dispatch? ==> done < |BeforeClose(whole)| && channel[0] == Dispatch(BeforeClose(whole)[done])
    ensures channel[0].Dispatch? ==> At(whole, channel[1..], done + 1)
    ensures channel[0].Close? ==> done == |BeforeClose(whole)| < |whole| && channel[1..] == whole[done + 1..]
  {
    BeforeCloseFirst(channel);
    hide BeforeClose;
    var taken := BeforeClose(whole);
    assert channel[1..] == whole[done + 1..];
    if channel[0].Dispatch? {
      assert taken[done..][1..] == taken[done + 1..];
      assert channel == [channel[0]] + channel[1..];
    }
  }

  lemma BeforeCloseFirst(channel: seq<Message>)
    requires Close in channel
    ensures channel != []
    ensures channel[0].Close? ==> BeforeClose(channel) == []
    ensures channel[0].Dispatch? ==> BeforeClose(channel) == [channel[0].command] + BeforeClose(channel[1..])
  {
  }

  class EnrollmentDispatcher {
    var accepting: bool
    var receiverAlive: bool
    var started: bool
    var channel: seq<Message>

    constructor ()
      ensures accepting && receiverAlive && !started && channel == []
    {
      accepting, receiverAlive, started, channel := true, true, false, [];
    }

    method Enqueue(command: CommandId) returns (ok: bool)
      modifies this`channel
      ensures ok == (accepting && receiverAlive)
      ensures channel == if ok then old(channel) + [Dispatch(command)] else old(channel)
    {
      if !accepting || !receiverAlive { return false; }
      channel := channel + [Dispatch(command)];
      ok := true;
    }

    /** Only the first call sends; later calls are `Ok` and do nothing. */
    method SendClose() returns (ok: bool)
      modifies this`accepting, this`channel
      ensures !accepting
      ensures ok == (!old(accepting) || receiverAlive)
      ensures channel == if old(accepting) && receiverAlive then old(channel) + [Close] else old(channel)
    {
      if !accepting { return true; }
      accepting := false;
      if !receiverAlive { return false; }
      channel := channel + [Close];
      ok := true;
    }

    method SpawnAuthorized(id: CommandId, command: Command, landing: nat, ended: set<Task>,
                           tracker: EnrollmentTaskTracker, database: S.EnrollmentDatabase) returns (ok: bool)
      requires tracker.Valid() && ForCommand(id) !in tracker.admitted && ended <= tracker.tasks
      modifies tracker, database
      ensures tracker.Valid() && tracker.accepting == old(tracker.accepting) == ok && tracker.reported == old(tracker.reported)
      ensures tracker.admitted == old(tracker.admitted) + (if ok then {ForCommand(id)} else {})
      ensures database.Contents() == if ok then old(database.Contents())
        else RefusalRecorded(old(database.Contents()), command.enrollment, command.targets, landing)
    {
      ok := tracker.SpawnResult(ForCommand(id), ended);
      if ok { return; }
      var i := 0;
      var left := landing;
      while i < |command.targets| && left > 0
        invariant i <= |command.targets| && tracker.Valid() && !tracker.accepting
        invariant tracker.admitted == old(tracker.admitted) && tracker.reported == old(tracker.reported)
        invariant RefusalRecorded(old(database.Contents()), command.enrollment, command.targets, landing)
               == RefusalRecorded(database.Contents(), command.enrollment, command.targets[i..], left)
      {
        assert command.targets[i..][1..] == command.targets[i + 1..];
        var committed := database.RecordPushRecoveryFailure(command.targets[i], true);
        if !committed { return; }
        i, left := i + 1, left - 1;
      }
      if left > 0 { var _ := database.FinalizeEnrollment(command.enrollment); }
    }

    /** The loop: it takes everything before the first close and nothing after. */
    method ReceiveUntilClose(commands: CommandId -> Command, landing: CommandId -> nat,
                             tracker: EnrollmentTaskTracker, database: S.EnrollmentDatabase)
      requires tracker.Valid() && Close in channel
      requires Distinct(BeforeClose(channel)) && TasksOf(BeforeClose(channel)) !! tracker.admitted
      modifies this`channel, tracker, database
      ensures var n := |BeforeClose(old(channel))|; n < |old(channel)| && channel == old(channel)[n + 1..]
      ensures tracker.Valid() && tracker.accepting == old(tracker.accepting) && tracker.reported == old(tracker.reported)
      ensures tracker.admitted == old(tracker.admitted) + (if tracker.accepting then TasksOf(BeforeClose(old(channel))) else {})
      ensures database.Contents() == if tracker.accepting then old(database.Contents())
        else AllRefused(old(database.Contents()), commands, landing, BeforeClose(old(channel)))
    {
      ghost var whole, before, db := channel, tracker.admitted, database.Contents();
      ghost var taken := BeforeClose(whole);
      AdmittedEnds(before, taken, tracker.accepting);
      AllRefusedAll(db, commands, landing, taken);
      AtStart(whole);
      hide *;
      ghost var done := 0;
      StartUnderway(whole, tracker, database, commands, landing);
      var closed := false;
      while !closed
        invariant Underway(whole, done, closed, before, db, old(tracker.accepting), old(tracker.reported), commands, landing, tracker, database)
        decreases !closed, |channel|
      {
        closed, done := TakeMessage(whole, done, before, db, old(tracker.accepting), old(tracker.reported), commands, landing, tracker, database);
      }
      EndUnderway(whole, done, before, db, old(tracker.accepting), old(tracker.reported), commands, landing, tracker, database);
    }

    /** Where the loop stands after `done` commands, `closed` saying that it has met the close. */
    ghost predicate Underway(whole: seq<Message>, done: nat, closed: bool, before: set<Task>, db: Db, accepting: bool, reported: set<Task>,
                             commands: CommandId -> Command, landing: CommandId -> nat,
                             tracker: EnrollmentTaskTracker, database: S.EnrollmentDatabase)
      reads this`channel, tracker, database
    {
      var taken := BeforeClose(whole);
      && done <= |taken| && (closed ==> done == |taken|)
      && (if closed then |taken| < |whole| && channel == whole[|taken| + 1..] else At(whole, channel, done))
      && tracker.Valid() && tracker.accepting == accepting && tracker.reported == reported
      && tracker.admitted == Admitted(before, taken, done, accepting)
      && (if accepting then database.Contents() == db
          else AllRefused(db, commands, landing, taken) == AllRefused(database.Contents(), commands, landing, taken[done..]))
    }

    lemma StartUnderway(whole: seq<Message>, tracker: EnrollmentTaskTracker, database: S.EnrollmentDatabase,
                        commands: CommandId -> Command, landing: CommandId -> nat)
      requires tracker.Valid() && channel == whole && At(whole, whole, 0)
      requires Admitted(tracker.admitted, BeforeClose(whole), 0, tracker.accepting) == tracker.admitted
      ensures Underway(whole, 0, false, tracker.admitted, database.Contents(), tracker.accepting, tracker.reported,
                       commands, landing, tracker, database)
    {
      hide EnrollmentTaskTracker.Valid;
      hide AllRefused;
      hide BeforeClose;
      hide Admitted;
      var taken := BeforeClose(whole);
      assert taken[0..] == taken;
    }

    lemma EndUnderway(whole: seq<Message>, done: nat, before: set<Task>, db: Db, accepting: bool, reported: set<Task>,
                      commands: CommandId -> Command, landing: CommandId -> nat,
                      tracker: EnrollmentTaskTracker, database: S.EnrollmentDatabase)
      requires Underway(whole, done, true, before, db, accepting, reported, commands, landing, tracker, database)
      ensures var n := |BeforeClose(whole)|; n < |whole| && channel == whole[n + 1..]
      ensures tracker.Valid() && tracker.accepting == accepting && tracker.reported == reported
      ensures tracker.admitted == before + (if accepting then TasksOf(BeforeClose(whole)) else {})
      ensures database.Contents() == if accepting then db else AllRefused(db, commands, landing, BeforeClose(whole))
    {
      var taken := BeforeClose(whole);
      AdmittedEnds(before, taken, accepting);
      AllRefusedAll(database.Contents(), commands, landing, taken);
      hide EnrollmentTaskTracker.Valid;
      hide AllRefused;
      hide BeforeClose;
      hide Admitted;
      hide TasksOf;
    }

    /** One message: a command is spawned or written down, a close ends the loop. */
    method TakeMessage(ghost whole: seq<Message>, ghost done: nat, ghost before: set<Task>, ghost db: Db, ghost accepting: bool,
                       ghost reported: set<Task>, commands: CommandId -> Command, landing: CommandId -> nat,
                       tracker: EnrollmentTaskTracker, database: S.EnrollmentDatabase) returns (closed: bool, ghost next: nat)
      requires Underway(whole, done, false, before, db, accepting, reported, commands, landing, tracker, database)
      requires Distinct(BeforeClose(whole)) && TasksOf(BeforeClose(whole)) !! before
      modifies this`channel, tracker, database
      ensures |channel| < |old(channel)|
      ensures Underway(whole, next, closed, before, db, accepting, reported, commands, landing, tracker, database)
    {
      hide EnrollmentTaskTracker.Valid;
      hide RefusalRecorded;
      hide TasksOf;
      hide Distinct;
      hide Admitted;
      hide AllRefused;
      hide At;
      hide BeforeClose;
      ghost var taken := BeforeClose(whole);
      AtNext(whole, channel, done);
      var message := channel[0];
      channel := channel[1..];
      match message {
        case Dispatch(c) =>
          AllRefusedNext(database.Contents(), commands, landing, taken, done);
          AdmittedNext(before, taken, done, accepting);
          var _ := SpawnAuthorized(c, commands(c), landing(c), {}, tracker, database);
          return false, done + 1;
        case Close =>
          return true, done;
      }
    }

    /** What `start` spawns: the receiver can be taken once; after the loop the tracker is stopped
        and joined, and its verdict is the result. */
    method Run(commands: CommandId -> Command, landing: CommandId -> nat,
               tracker: EnrollmentTaskTracker, database: S.EnrollmentDatabase) returns (ok: bool)
      requires tracker.Valid() && receiverAlive && Close in channel
      requires Distinct(BeforeClose(channel)) && TasksOf(BeforeClose(channel)) !! tracker.admitted
      modifies this, tracker, database
      ensures old(started) ==> !ok && channel == old(channel) && receiverAlive && started
      ensures old(started) ==> database.Contents() == old(database.Contents())
      ensures !old(started) ==> started && !receiverAlive && tracker.Valid() && !tracker.accepting && tracker.tasks == {}
      ensures !old(started) ==> ok == forall t :: t in tracker.admitted && t !in old(tracker.reported) ==> tracker.outcome(t)
      ensures var taken := BeforeClose(old(channel)); !old(started) && old(tracker.accepting) ==>
        tracker.admitted == old(tracker.admitted) + TasksOf(taken) && database.Contents() == old(database.Contents())
      ensures var taken := BeforeClose(old(channel)); !old(started) && !old(tracker.accepting) ==>
        database.Contents() == AllRefused(old(database.Contents()), commands, landing, taken)
    {
      if started { return false; }
      started := true;
      hide BeforeClose;
      hide AllRefused;
      hide TasksOf;
      hide Distinct;
      ReceiveUntilClose(commands, landing, tracker, database);
      receiverAlive := false;
      ok := tracker.StopAndJoin();
    }
  }
}
