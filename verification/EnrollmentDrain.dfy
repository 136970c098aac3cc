/**
 Shutting the enrollment side down: the dispatcher's message loop, the tracker that owns the
 admitted tasks, and everybody who races with them. The tracker is first given as the class
 the source has; the machine below takes its operations apart at the points where other
 threads get in between.
 */
module EnrollmentDrain {
  import opened Options
  import opened EnrollmentTables

  type CommandId = nat
  datatype Task = ForCommand(command: CommandId) | Other(id: nat)

  class EnrollmentTaskTracker {
    const outcome: Task -> bool
    var tasks: set<Task>
    var accepting: bool
    var errors: seq<Task>
    ghost var admitted: set<Task>
    ghost var reported: set<Task>

    /** Every admitted task is still owned, ended well, or is remembered as an error that a
        caller of `StopAndJoin` has been or will be told about. */
    ghost predicate Valid()
      reads this
    {
      && tasks <= admitted && reported <= admitted - tasks
      && (forall t :: t in errors <==> t in admitted && t !in tasks && t !in reported && !outcome(t))
      && (forall t :: t in reported ==> !outcome(t))
    }

    constructor (outcome: Task -> bool)
      ensures Valid() && accepting && admitted == {} && reported == {} && this.outcome == outcome
    {
      this.outcome := outcome;
      tasks, accepting, errors := {}, true, [];
      admitted, reported := {}, {};
    }

    method RecordJoinResult(task: Task)
      modifies this`errors
      ensures errors == if outcome(task) then old(errors) else old(errors) + [task]
    {
      if !outcome(task) { errors := errors + [task]; }
    }

    /** `ended` are the tasks that `try_join_next` finds finished at this moment. */
    method SpawnResult(task: Task, ended: set<Task>) returns (ok: bool)
      requires Valid() && task !in admitted && ended <= tasks
      modifies this
      ensures Valid() && ok == old(accepting) && accepting == old(accepting) && reported == old(reported)
      ensures admitted == old(admitted) + (if ok then {task} else {})
      ensures tasks == if ok then old(tasks) - ended + {task} else old(tasks)
    {
      if !accepting { return false; }
      var reap := ended;
      while reap != {}
        invariant Valid() && reap <= ended && reap <= tasks && tasks == old(tasks) - (ended - reap)
        invariant accepting == old(accepting) && admitted == old(admitted) && reported == old(reported)
      {
        var t :| t in reap;
        RecordJoinResult(t);
        tasks := tasks - {t};
        reap := reap - {t};
      }
      tasks := tasks + {task};
      admitted := admitted + {task};
      ok := true;
    }

    /** Closes admission for good and waits for every task; `Ok` says that no admitted task
        failed, apart from failures an earlier call has already reported. */
    method StopAndJoin() returns (ok: bool)
      requires Valid()
      modifies this
      ensures Valid() && !accepting && tasks == {} && admitted == old(admitted)
      ensures ok == (forall t :: t in admitted && t !in old(reported) ==> outcome(t))
      ensures reported == set t | t in admitted && !outcome(t)
    {
      accepting := false;
      while tasks != {}
        invariant Valid() && !accepting && admitted == old(admitted) && reported == old(reported)
      {
        var t :| t in tasks;
        RecordJoinResult(t);
        tasks := tasks - {t};
      }
      ok := errors == [];
      assert !ok ==> errors[0] in errors;
      reported := set t | t in admitted && !outcome(t);
      errors := [];
    }
  }

  // ------------------------------------------------- the machine with all its races

  datatype Message = Dispatch(command: CommandId) | Close

  /** A call of `StopAndJoin`. The dispatcher's loop makes one of its own; anybody may make others. */
  type Stopper = nat

  const LOOP: Stopper := 0

  datatype Lock = Free | BySpawner(task: Task, checked: bool) | ByStopper(stopper: Stopper)

  datatype StopPc = NotStopped | Flagged | Joining | Returned(ok: bool)

  /** The dispatcher's loop; `Recording` still has `left` pushes of a refused command to record. */
  datatype LoopPc = Receiving | Spawning(command: CommandId) | Recording(current: CommandId, left: seq<PushId>) | Stopping | Stopped {
    predicate Past() { Stopping? || Stopped? }
  }

  datatype Run = RunningTask | Ended(ok: bool)

  datatype Drain = Drain(
    // dispatcher
    open: bool, closing: bool, checked: set<CommandId>, channel: seq<Message>, loop: LoopPc,
    // tracker
    accepting: bool, lock: Lock, tasks: map<Task, Run>, errors: seq<Task>, stops: map<Stopper, StopPc>,
    // history; `first` is the stop that returned first
    sent: seq<Message>, read: nat, admitted: set<Task>, failures: set<Task>, reported: set<Task>, first: Option<Stopper>,
    refused: set<CommandId>, recorded: set<(CommandId, PushId)>, lostWrite: set<CommandId>)

  function StopOf(s: Drain, k: Stopper): StopPc { if k in s.stops then s.stops[k] else NotStopped }

  datatype Step =
    | EnqueueCheck(command: CommandId)
    | EnqueueSend(command: CommandId)
    | CloseSwap
    | CloseSend
    | Receive
    | SpawnLock(task: Task)
    | SpawnCheck
    | SpawnCommit
    | RecordRefused(lands: bool)
    | RecordedAll
    | TaskEnds(task: Task, ok: bool)
    | StopFlag(stopper: Stopper)
    | StopLock(stopper: Stopper)
    | JoinNext(task: Task)
    | StopReturn(stopper: Stopper)

  ghost predicate Init(s: Drain) {
    && s.open && !s.closing && s.checked == {} && s.channel == [] && s.loop == Receiving
    && s.accepting && s.lock == Free && s.tasks == map[] && s.errors == [] && s.stops == map[]
    && s.sent == [] && s.read == 0 && s.admitted == {} && s.failures == {} && s.reported == {} && s.first == None
    && s.refused == {} && s.recorded == {} && s.lostWrite == {}
  }

  function Joined(tasks: map<Task, Run>, errors: seq<Task>, task: Task): seq<Task>
    requires task in tasks && tasks[task].Ended?
  {
    if tasks[task].ok then errors else errors + [task]
  }

  function Told(errors: seq<Task>): set<Task> { set t | t in errors }

  /** One atomic step; `pushes` are the targets of each command. */
  ghost predicate Next(pushes: CommandId -> seq<PushId>, s: Drain, step: Step, s': Drain) {
    match step
    case EnqueueCheck(c) =>
      s.open && c !in s.checked && Dispatch(c) !in s.sent && s' == s.(checked := s.checked + {c})
    case EnqueueSend(c) =>
      // an unbounded channel takes the message as long as the loop's receiver is alive
      && c in s.checked && s.loop != Stopped
      && s' == s.(checked := s.checked - {c}, channel := s.channel + [Dispatch(c)], sent := s.sent + [Dispatch(c)])
    case CloseSwap => s.open && s' == s.(open := false, closing := true)
    case CloseSend =>
      && s.closing && s.loop != Stopped
      && s' == s.(closing := false, channel := s.channel + [Close], sent := s.sent + [Close])
    case Receive =>
      && s.loop == Receiving && s.channel != []
      && s' == s.(channel := s.channel[1..], read := s.read + 1,
                  loop := if s.channel[0].Close? then Stopping else Spawning(s.channel[0].command))
    case SpawnLock(t) =>
      && s.lock == Free && t !in s.admitted && (t.ForCommand? ==> s.loop == Spawning(t.command))
      && s' == s.(lock := BySpawner(t, false))
    case SpawnCheck =>
      && s.lock.BySpawner? && !s.lock.checked
      && var t := s.lock.task;
      s' == if s.accepting then s.(lock := BySpawner(t, true))
            else s.(lock := Free,
                    loop := if t.ForCommand? then Recording(t.command, pushes(t.command)) else s.loop,
                    refused := if t.ForCommand? then s.refused + {t.command} else s.refused)
    case SpawnCommit =>
      && s.lock.BySpawner? && s.lock.checked
      && var t := s.lock.task;
      s' == s.(lock := Free, tasks := s.tasks[t := RunningTask], admitted := s.admitted + {t},
               loop := if t.ForCommand? then Receiving else s.loop)
    case RecordRefused(lands) =>
      && s.loop.Recording? && s.loop.left != []
      && var c, p, rest := s.loop.current, s.loop.left[0], s.loop.left[1..];
      s' == if lands then s.(recorded := s.recorded + {(c, p)}, loop := Recording(c, rest))
            else s.(lostWrite := s.lostWrite + {c}, loop := Receiving)
    case RecordedAll =>
      s.loop.Recording? && s.loop.left == [] && s' == s.(loop := Receiving)
    case TaskEnds(t, ok) =>
      && t in s.tasks && s.tasks[t].RunningTask?
      && s' == s.(tasks := s.tasks[t := Ended(ok)], failures := if ok then s.failures else s.failures + {t})
    case StopFlag(k) =>
      && StopOf(s, k) == NotStopped && (k == LOOP ==> s.loop == Stopping)
      && s' == s.(accepting := false, stops := s.stops[k := Flagged])
    case StopLock(k) =>
      StopOf(s, k) == Flagged && s.lock == Free && s' == s.(lock := ByStopper(k), stops := s.stops[k := Joining])
    case JoinNext(t) =>
      // also `try_join_next` of a spawner that has passed the check
      && (s.lock.ByStopper? || (s.lock.BySpawner? && s.lock.checked))
      && t in s.tasks && s.tasks[t].Ended?
      && s' == s.(tasks := s.tasks - {t}, errors := Joined(s.tasks, s.errors, t))
    case StopReturn(k) =>
      && StopOf(s, k) == Joining && s.tasks == map[]
      && s' == s.(lock := Free, stops := s.stops[k := Returned(s.errors == [])], errors := [],
                  reported := s.reported + Told(s.errors), first := if s.first == None then Some(k) else s.first,
                  loop := if k == LOOP then Stopped else s.loop)
  }

  // ------------------------------------------------------------------- invariant

  /** The tracker's books: errors are exactly the failed tasks that have been joined and not yet reported. */
  ghost predicate BooksInv(s: Drain) {
    && s.tasks.Keys <= s.admitted && s.failures <= s.admitted && s.reported <= s.failures
    && (forall t :: t in s.tasks ==> (t in s.failures <==> s.tasks[t] == Ended(false)) && t !in s.reported)
    && (forall t :: t in s.errors <==> t in s.failures && t !in s.tasks && t !in s.reported)
  }

  /** Admission ends with the first flag; only the stop that holds the lock joins. */
  ghost predicate StopInv(s: Drain) {
    && (s.accepting <==> forall k :: StopOf(s, k) == NotStopped)
    && (forall k :: StopOf(s, k) == Joining <==> s.lock == ByStopper(k))
    && (StopOf(s, LOOP) != NotStopped ==> s.loop.Past())
    && (s.loop == Stopped <==> StopOf(s, LOOP).Returned?)
    && (s.refused != {} ==> exists k :: k != LOOP && StopOf(s, k) != NotStopped)
  }

  /** The first stop to return told of every failure there ever is; the later ones had nothing to tell. */
  ghost predicate FirstInv(s: Drain) {
    && (s.first == None ==> s.reported == {} && forall k :: !StopOf(s, k).Returned?)
    && (s.first.Some? ==>
          && s.tasks == map[] && s.reported == s.failures && !s.accepting && !(s.lock.BySpawner? && s.lock.checked)
          && StopOf(s, s.first.value) == Returned(s.failures == {})
          && forall k :: StopOf(s, k).Returned? && k != s.first.value ==> StopOf(s, k).ok)
  }

  ghost predicate SpawnInv(s: Drain) {
    s.lock.BySpawner? ==>
      && s.lock.task !in s.admitted
      && (s.lock.task.ForCommand? ==> s.loop == Spawning(s.lock.task.command))
  }

  ghost predicate TrackerInv(s: Drain) { BooksInv(s) && StopInv(s) && FirstInv(s) && SpawnInv(s) }

  lemma BooksStep(pushes: CommandId -> seq<PushId>, s: Drain, step: Step, s': Drain)
    requires BooksInv(s) && SpawnInv(s) && Next(pushes, s, step, s')
    ensures BooksInv(s')
  {
    if step.JoinNext? || step.StopReturn? {
      JoiningKeepsBooks(pushes, s, step, s');
    } else {
      RunningKeepsBooks(pushes, s, step, s');
    }
    hide *;
  }

  lemma RunningKeepsBooks(pushes: CommandId -> seq<PushId>, s: Drain, step: Step, s': Drain)
    requires BooksInv(s) && SpawnInv(s) && Next(pushes, s, step, s') && !step.JoinNext? && !step.StopReturn?
    ensures BooksInv(s')
  {
    match step {
      case SpawnCommit => {}
      case TaskEnds(t, ok) => {}
      case _ => {}
    }
  }

  lemma JoiningKeepsBooks(pushes: CommandId -> seq<PushId>, s: Drain, step: Step, s': Drain)
    requires BooksInv(s) && Next(pushes, s, step, s') && (step.JoinNext? || step.StopReturn?)
    ensures BooksInv(s')
  {
    match step {
      case JoinNext(t) => {}
      case StopReturn(k) => {}
      case _ => assert false;
    }
  }

  /** What a step does to the calls of the stop and to admission. */
  lemma StopDelta(pushes: CommandId -> seq<PushId>, s: Drain, step: Step, s': Drain)
    requires Next(pushes, s, step, s')
    ensures match step
      case StopFlag(k) =>
        StopOf(s, k) == NotStopped && (k == LOOP ==> s.loop == Stopping)
        && !s'.accepting && s'.stops == s.stops[k := Flagged] && s'.lock == s.lock && s'.loop == s.loop
      case StopLock(k) =>
        StopOf(s, k) == Flagged && s.lock == Free
        && s'.accepting == s.accepting && s'.stops == s.stops[k := Joining] && s'.lock == ByStopper(k) && s'.loop == s.loop
      case StopReturn(k) =>
        StopOf(s, k) == Joining && s.tasks == map[]
        && s'.accepting == s.accepting && s'.stops == s.stops[k := Returned(s.errors == [])] && s'.lock == Free
        && s'.loop == (if k == LOOP then Stopped else s.loop)
      case _ => s'.accepting == s.accepting && s'.stops == s.stops
    ensures s'.refused == s.refused || (step.SpawnCheck? && !s.accepting && s.lock.BySpawner? && s.lock.task.ForCommand?)
  {
  }

  /** The other steps leave it to the same stop, if any, to hold the lock, and the loop on its side. */
  lemma LockDelta(pushes: CommandId -> seq<PushId>, s: Drain, step: Step, s': Drain)
    requires SpawnInv(s) && Next(pushes, s, step, s') && !step.StopFlag? && !step.StopLock? && !step.StopReturn?
    ensures s'.lock == s.lock || (!s.lock.ByStopper? && !s'.lock.ByStopper?)
    ensures s.loop.Past() ==> s'.loop == s.loop
    ensures s'.loop == Stopped ==> s.loop == Stopped
  {
    match step
    case Receive =>
    case SpawnLock(_) =>
    case SpawnCheck =>
    case SpawnCommit =>
    case RecordRefused(_) =>
    case RecordedAll =>
    case _ =>
  }

  lemma StopStep(pushes: CommandId -> seq<PushId>, s: Drain, step: Step, s': Drain)
    requires StopInv(s) && SpawnInv(s) && Next(pushes, s, step, s')
    ensures StopInv(s')
  {
    StopDelta(pushes, s, step, s');
    if step.StopFlag? {
      OtherStops(s, step.stopper, Flagged, s');
    } else if step.StopLock? {
      OtherStops(s, step.stopper, Joining, s');
    } else if step.StopReturn? {
      OtherStops(s, step.stopper, Returned(s.errors == []), s');
    } else {
      LockDelta(pushes, s, step, s');
      if s'.refused != s.refused { SomebodyElse(s); }
      assert forall k :: StopOf(s', k) == StopOf(s, k);
    }
    hide Next;
    hide SpawnInv;
  }

  /** A command is refused only when somebody else has stopped the tracker. */
  lemma SomebodyElse(s: Drain)
    requires StopInv(s) && SpawnInv(s) && !s.accepting && s.lock.BySpawner? && s.lock.task.ForCommand?
    ensures exists k :: k != LOOP && StopOf(s, k) != NotStopped
  {
    var k :| StopOf(s, k) != NotStopped;
  }

  lemma OtherStops(s: Drain, k: Stopper, pc: StopPc, s': Drain)
    requires s'.stops == s.stops[k := pc]
    ensures StopOf(s', k) == pc && forall j :: j != k ==> StopOf(s', j) == StopOf(s, j)
  {
  }

  /** What a step does to the record of reported failures. */
  lemma FirstDelta(pushes: CommandId -> seq<PushId>, s: Drain, step: Step, s': Drain)
    requires FirstInv(s) && BooksInv(s) && Next(pushes, s, step, s') && !step.StopReturn?
    ensures s'.first == s.first && s'.reported == s.reported
    ensures s.first.Some? ==> s'.tasks == s.tasks && s'.failures == s.failures && !(s'.lock.BySpawner? && s'.lock.checked)
  {
    match step
    case Receive =>
    case SpawnLock(_) =>
    case SpawnCheck =>
    case SpawnCommit =>
    case RecordRefused(_) =>
    case RecordedAll =>
    case TaskEnds(_, _) =>
    case JoinNext(_) =>
    case _ =>
  }

  lemma FirstStep(pushes: CommandId -> seq<PushId>, s: Drain, step: Step, s': Drain)
    requires FirstInv(s) && BooksInv(s) && StopInv(s) && Next(pushes, s, step, s')
    ensures FirstInv(s')
  {
    StopDelta(pushes, s, step, s');
    if step.StopReturn? {
      FirstReturn(pushes, s, step.stopper, s');
    } else {
      FirstDelta(pushes, s, step, s');
      if step.StopFlag? {
        OtherStops(s, step.stopper, Flagged, s');
      } else if step.StopLock? {
        OtherStops(s, step.stopper, Joining, s');
      } else {
        assert forall k :: StopOf(s', k) == StopOf(s, k);
      }
    }
    hide Next;
    hide BooksInv;
    hide StopInv;
  }

  lemma FirstReturn(pushes: CommandId -> seq<PushId>, s: Drain, k: Stopper, s': Drain)
    requires FirstInv(s) && BooksInv(s) && StopInv(s) && Next(pushes, s, StopReturn(k), s')
    ensures FirstInv(s')
  {
    OtherStops(s, k, Returned(s.errors == []), s');
    ReturnTells(s, k);
    hide BooksInv;
  }

  /** With no task left, what the errors tell is every failure not told before. */
  lemma ReturnTells(s: Drain, k: Stopper)
    requires BooksInv(s) && s.tasks == map[]
    ensures s.reported + Told(s.errors) == s.failures
    ensures s.errors == [] <==> s.reported == s.failures
  {
    assert s.errors != [] ==> s.errors[0] in s.failures && s.errors[0] !in s.reported;
    assert forall t :: t in s.failures && t !in s.reported ==> t in s.errors;
  }

  lemma SpawnStep(pushes: CommandId -> seq<PushId>, s: Drain, step: Step, s': Drain)
    requires SpawnInv(s) && StopInv(s) && Next(pushes, s, step, s')
    ensures SpawnInv(s')
  {
    match step
    case SpawnLock(t) =>
    case SpawnCheck =>
    case Receive =>
    case StopReturn(k) =>
      assert s.lock == ByStopper(k);
    case _ =>
  }

  lemma TrackerStep(pushes: CommandId -> seq<PushId>, s: Drain, step: Step, s': Drain)
    requires TrackerInv(s) && Next(pushes, s, step, s')
    ensures TrackerInv(s')
  {
    hide BooksInv;
    hide StopInv;
    hide FirstInv;
    hide SpawnInv;
    hide Next;
    BooksStep(pushes, s, step, s');
    StopStep(pushes, s, step, s');
    FirstStep(pushes, s, step, s');
    SpawnStep(pushes, s, step, s');
  }

  /** A command the loop has dealt with. */
  ghost predicate Handled(pushes: CommandId -> seq<PushId>, s: Drain, c: CommandId) {
    || ForCommand(c) in s.admitted
    || (c in s.refused && (c in s.lostWrite || forall p :: p in pushes(c) ==> (c, p) in s.recorded))
  }

  predicate Busy(loop: LoopPc, c: CommandId) {
    (loop.Spawning? && loop.command == c) || (loop.Recording? && loop.current == c)
  }

  ghost predicate ChannelInv(s: Drain) {
    && s.read <= |s.sent| && s.channel == s.sent[s.read..]
    && (forall i, j :: 0 <= i < j < |s.sent| && s.sent[i].Dispatch? ==> s.sent[i] != s.sent[j])
    && (forall c :: c in s.checked ==> Dispatch(c) !in s.sent)
  }

  ghost predicate ReadIsHandled(pushes: CommandId -> seq<PushId>, s: Drain)
    requires ChannelInv(s)
  {
    forall i :: 0 <= i < s.read && s.sent[i].Dispatch? ==> Handled(pushes, s, s.sent[i].command) || Busy(s.loop, s.sent[i].command)
  }

  ghost predicate UnreadIsUntouched(s: Drain)
    requires ChannelInv(s)
  {
    forall c :: (ForCommand(c) in s.admitted || c in s.refused || Busy(s.loop, c)) ==> Dispatch(c) in s.sent[..s.read]
  }

  ghost predicate CloseIsLast(s: Drain)
    requires ChannelInv(s)
  {
    && (forall i :: 0 <= i < s.read && s.sent[i].Close? ==> i == s.read - 1 && s.loop.Past())
    && (s.loop.Past() ==> s.read > 0 && s.sent[s.read - 1].Close?)
  }

  ghost predicate RecordingInv(pushes: CommandId -> seq<PushId>, s: Drain) {
    s.loop.Recording? ==>
      && s.loop.current in s.refused
      && forall p :: p in pushes(s.loop.current) ==> p in s.loop.left || (s.loop.current, p) in s.recorded
  }

  /** The loop's books: it has read a prefix of what was sent, dealt with every command of it
      but the one in its hands, touched no other, and reads nothing after a close. */
  ghost predicate LoopInv(pushes: CommandId -> seq<PushId>, s: Drain) {
    && ChannelInv(s) && ReadIsHandled(pushes, s) && UnreadIsUntouched(s) && CloseIsLast(s) && RecordingInv(pushes, s)
  }

  /** What a step does to the channel. */
  lemma ChannelDelta(pushes: CommandId -> seq<PushId>, s: Drain, step: Step, s': Drain)
    requires Next(pushes, s, step, s')
    ensures match step
      case EnqueueCheck(c) => s'.checked == s.checked + {c} && Dispatch(c) !in s.sent
      case EnqueueSend(c) => c in s.checked && s'.checked == s.checked - {c}
      case _ => s'.checked == s.checked
    ensures match step
      case EnqueueSend(c) => s'.sent == s.sent + [Dispatch(c)] && s'.channel == s.channel + [Dispatch(c)] && s'.read == s.read
      case CloseSend => s'.sent == s.sent + [Close] && s'.channel == s.channel + [Close] && s'.read == s.read
      case Receive => s'.sent == s.sent && s.channel != [] && s'.channel == s.channel[1..] && s'.read == s.read + 1
      case _ => s'.sent == s.sent && s'.channel == s.channel && s'.read == s.read
  {
    match step
    case SpawnCheck =>
    case RecordRefused(_) =>
    case _ =>
  }

  lemma Sends(s: Drain, m: Message, s': Drain)
    requires ChannelInv(s) && s'.sent == s.sent + [m] && s'.channel == s.channel + [m] && s'.read == s.read
    requires s'.checked <= s.checked && (m.Dispatch? ==> m.command in s.checked && m.command !in s'.checked)
    ensures ChannelInv(s')
  {
    assert m.Dispatch? ==> m !in s.sent;
  }

  lemma Receives(s: Drain, s': Drain)
    requires ChannelInv(s) && s.channel != [] && s'.channel == s.channel[1..] && s'.read == s.read + 1
    requires s'.sent == s.sent && s'.checked == s.checked
    ensures ChannelInv(s') && s.channel[0] == s.sent[s.read]
  {
    assert s.sent[s.read..][1..] == s.sent[s.read + 1..];
  }

  lemma ChannelStep(pushes: CommandId -> seq<PushId>, s: Drain, step: Step, s': Drain)
    requires ChannelInv(s) && Next(pushes, s, step, s')
    ensures ChannelInv(s') && s.read <= s'.read <= s.read + 1 && s.sent <= s'.sent
    ensures s'.read == s.read || (step.Receive? && s.channel[0] == s.sent[s.read] && s'.sent[s.read] == s.channel[0])
  {
    ChannelDelta(pushes, s, step, s');
    if step.EnqueueSend? {
      Sends(s, Dispatch(step.command), s');
    } else if step.CloseSend? {
      Sends(s, Close, s');
    } else if step.Receive? {
      Receives(s, s');
    }
    hide Next;
  }

  /** A step other than a receive takes up no command and leaves the loop on its side of the close. */
  lemma TouchedWereInHand(pushes: CommandId -> seq<PushId>, s: Drain, step: Step, s': Drain, c: CommandId)
    requires SpawnInv(s) && Next(pushes, s, step, s') && !step.Receive?
    requires RecordingInv(pushes, s)
    requires ForCommand(c) in s'.admitted || c in s'.refused || Busy(s'.loop, c)
    ensures ForCommand(c) in s.admitted || c in s.refused || Busy(s.loop, c)
  {
    match step
    case SpawnLock(_) =>
    case SpawnCheck =>
    case SpawnCommit =>
    case RecordRefused(_) =>
    case RecordedAll =>
    case TaskEnds(_, _) =>
    case JoinNext(_) =>
    case _ =>
  }

  lemma StoppingAlready(pushes: CommandId -> seq<PushId>, s: Drain, step: Step, s': Drain)
    requires SpawnInv(s) && StopInv(s) && Next(pushes, s, step, s') && !step.Receive?
    ensures s'.loop.Past() <==> s.loop.Past()
  {
    match step
    case SpawnLock(_) =>
    case SpawnCheck =>
    case SpawnCommit =>
    case RecordRefused(_) =>
    case RecordedAll =>
    case TaskEnds(_, _) =>
    case JoinNext(_) =>
    case _ =>
  }

  lemma HandledStays(pushes: CommandId -> seq<PushId>, s: Drain, step: Step, s': Drain, c: CommandId)
    requires SpawnInv(s) && StopInv(s) && Next(pushes, s, step, s') && !step.Receive?
    requires RecordingInv(pushes, s)
    requires Handled(pushes, s, c) || Busy(s.loop, c)
    ensures Handled(pushes, s', c) || Busy(s'.loop, c)
  {
    match step
    case SpawnLock(_) =>
    case SpawnCheck =>
    case SpawnCommit =>
    case RecordRefused(_) =>
    case RecordedAll =>
    case TaskEnds(_, _) =>
    case JoinNext(_) =>
    case _ =>
  }

  lemma ReadStep(pushes: CommandId -> seq<PushId>, s: Drain, step: Step, s': Drain)
    requires TrackerInv(s) && LoopInv(pushes, s) && Next(pushes, s, step, s') && ChannelInv(s')
    requires s.read <= s'.read <= s.read + 1 && s.sent <= s'.sent
    requires s'.read == s.read || (step.Receive? && s.channel[0] == s.sent[s.read] && s'.sent[s.read] == s.channel[0])
    ensures ReadIsHandled(pushes, s')
  {
    hide UnreadIsUntouched;
    hide CloseIsLast;
    hide BooksInv;
    hide StopInv;
    hide FirstInv;
    hide SpawnInv;
    forall i | 0 <= i < s'.read && s'.sent[i].Dispatch?
      ensures Handled(pushes, s', s'.sent[i].command) || Busy(s'.loop, s'.sent[i].command)
    {
      if !step.Receive? {
        hide Next;
        assert s'.sent[i] == s.sent[i];
        HandledStays(pushes, s, step, s', s.sent[i].command);
      } else if i < s.read {
        assert s'.sent[i] == s.sent[i];
      }
    }
  }

  lemma UnreadStep(pushes: CommandId -> seq<PushId>, s: Drain, step: Step, s': Drain)
    requires TrackerInv(s) && LoopInv(pushes, s) && Next(pushes, s, step, s') && ChannelInv(s')
    requires s.read <= s'.read <= s.read + 1 && s.sent <= s'.sent
    requires s'.read == s.read || (step.Receive? && s.channel[0] == s.sent[s.read] && s'.sent[s.read] == s.channel[0])
    ensures UnreadIsUntouched(s')
  {
    hide ReadIsHandled;
    hide CloseIsLast;
    hide BooksInv;
    hide StopInv;
    hide FirstInv;
    hide SpawnInv;
    hide Next;
    ReadGrows(s, s');
    forall c | ForCommand(c) in s'.admitted || c in s'.refused || Busy(s'.loop, c)
      ensures Dispatch(c) in s'.sent[..s'.read]
    {
      if step.Receive? {
        TouchedByReceive(pushes, s, s', c);
      } else {
        TouchedWereInHand(pushes, s, step, s', c);
      }
    }
  }

  lemma ReadGrows(s: Drain, s': Drain)
    requires ChannelInv(s) && ChannelInv(s') && s.read <= s'.read <= s.read + 1 && s.sent <= s'.sent
    ensures forall m :: m in s.sent[..s.read] ==> m in s'.sent[..s'.read]
    ensures s'.read > s.read ==> s'.sent[s.read] in s'.sent[..s'.read]
  {
    assert s'.sent[..s'.read] == s.sent[..s.read] + s'.sent[s.read..s'.read];
  }

  lemma TouchedByReceive(pushes: CommandId -> seq<PushId>, s: Drain, s': Drain, c: CommandId)
    requires Next(pushes, s, Receive, s')
    requires ForCommand(c) in s'.admitted || c in s'.refused || Busy(s'.loop, c)
    ensures s.channel != [] && s'.read == s.read + 1
    ensures ForCommand(c) in s.admitted || c in s.refused || s.channel[0] == Dispatch(c)
  {
  }

  lemma CloseStep(pushes: CommandId -> seq<PushId>, s: Drain, step: Step, s': Drain)
    requires TrackerInv(s) && LoopInv(pushes, s) && Next(pushes, s, step, s') && ChannelInv(s')
    requires s.read <= s'.read <= s.read + 1 && s.sent <= s'.sent
    requires s'.read == s.read || (step.Receive? && s.channel[0] == s.sent[s.read] && s'.sent[s.read] == s.channel[0])
    ensures CloseIsLast(s')
  {
    hide ReadIsHandled;
    hide UnreadIsUntouched;
    hide RecordingInv;
    hide BooksInv;
    hide StopInv;
    hide FirstInv;
    hide SpawnInv;
    assert forall i :: 0 <= i < s.read ==> s'.sent[i] == s.sent[i];
    if !step.Receive? {
      hide Next;
      StoppingAlready(pushes, s, step, s');
    }
  }

  lemma RecordingStep(pushes: CommandId -> seq<PushId>, s: Drain, step: Step, s': Drain)
    requires SpawnInv(s) && RecordingInv(pushes, s) && Next(pushes, s, step, s')
    ensures RecordingInv(pushes, s')
  {
  }

  lemma LoopStep(pushes: CommandId -> seq<PushId>, s: Drain, step: Step, s': Drain)
    requires TrackerInv(s) && LoopInv(pushes, s) && Next(pushes, s, step, s')
    ensures LoopInv(pushes, s')
  {
    ChannelStep(pushes, s, step, s');
    hide Next;
    hide BooksInv;
    hide StopInv;
    hide FirstInv;
    hide SpawnInv;
    hide ChannelInv;
    hide ReadIsHandled;
    hide UnreadIsUntouched;
    hide CloseIsLast;
    hide RecordingInv;
    ReadStep(pushes, s, step, s');
    UnreadStep(pushes, s, step, s');
    CloseStep(pushes, s, step, s');
    RecordingStep(pushes, s, step, s');
  }

  ghost predicate IsRun(pushes: CommandId -> seq<PushId>, states: seq<Drain>, steps: seq<Step>) {
    && |states| == |steps| + 1 && Init(states[0])
    && forall i :: 0 <= i < |steps| ==> Next(pushes, states[i], steps[i], states[i + 1])
  }

  lemma {:induction false} RunInv(pushes: CommandId -> seq<PushId>, states: seq<Drain>, steps: seq<Step>, n: nat)
    requires IsRun(pushes, states, steps) && n < |states|
    ensures TrackerInv(states[n]) && LoopInv(pushes, states[n])
  {
    hide Next;
    hide TrackerInv;
    hide LoopInv;
    if n == 0 {
      InitInv(pushes, states[0]);
    } else {
      RunInv(pushes, states, steps, n - 1);
      TrackerStep(pushes, states[n - 1], steps[n - 1], states[n]);
      LoopStep(pushes, states[n - 1], steps[n - 1], states[n]);
    }
  }

  lemma InitInv(pushes: CommandId -> seq<PushId>, s: Drain)
    requires Init(s)
    ensures TrackerInv(s) && LoopInv(pushes, s)
  {
  }

  // ---------------------------------------------------------------- main results

  /** When the dispatcher has stopped, exactly the commands sent before the close were dealt
      with: each was admitted to the tracker, or every push of it was recorded failed and manual
      unless one of those writes was lost; and admitted outright when nobody but the loop stops
      the tracker. A command that slipped in behind the close was not. */
  lemma DrainedExactlyBeforeClose(pushes: CommandId -> seq<PushId>, states: seq<Drain>, steps: seq<Step>, n: nat, i: nat)
    requires IsRun(pushes, states, steps) && n < |states| && states[n].loop == Stopped
    requires i < |states[n].sent| && states[n].sent[i].Dispatch?
    ensures var s, c := states[n], states[n].sent[i].command;
      (forall j :: 0 <= j < i ==> !s.sent[j].Close?) ==>
        && Handled(pushes, s, c)
        && ((forall k :: k != LOOP ==> StopOf(s, k) == NotStopped) ==> ForCommand(c) in s.admitted)
    ensures var s, c := states[n], states[n].sent[i].command;
      (exists j :: 0 <= j < i && s.sent[j].Close?) ==> ForCommand(c) !in s.admitted && c !in s.refused
  {
    RunInv(pushes, states, steps, n);
    hide IsRun;
    DrainedState(pushes, states[n], i);
  }

  lemma DrainedState(pushes: CommandId -> seq<PushId>, s: Drain, i: nat)
    requires StopInv(s) && LoopInv(pushes, s) && s.loop == Stopped && i < |s.sent| && s.sent[i].Dispatch?
    ensures (forall j :: 0 <= j < i ==> !s.sent[j].Close?) ==>
      && Handled(pushes, s, s.sent[i].command)
      && ((forall k :: k != LOOP ==> StopOf(s, k) == NotStopped) ==> ForCommand(s.sent[i].command) in s.admitted)
    ensures (exists j :: 0 <= j < i && s.sent[j].Close?) ==>
      ForCommand(s.sent[i].command) !in s.admitted && s.sent[i].command !in s.refused
  {
    if i >= s.read {
      assert s.sent[s.read - 1].Close?;
      assert forall j :: 0 <= j < s.read ==> s.sent[j] != s.sent[i];
      assert Dispatch(s.sent[i].command) !in s.sent[..s.read];
    } else {
      assert i < s.read - 1;
      assert Handled(pushes, s, s.sent[i].command);
    }
  }

  lemma ReturnedStep(pushes: CommandId -> seq<PushId>, s: Drain, step: Step, s': Drain)
    requires TrackerInv(s) && s.first.Some? && Next(pushes, s, step, s')
    ensures s'.first == s.first && s'.admitted == s.admitted && s'.tasks == s.tasks && s'.failures == s.failures
    ensures StopOf(s', s.first.value) == StopOf(s, s.first.value)
  {
    hide BooksInv;
  }

  /** Once any call of the tracker's stop has returned: no task is running, the first one to return
      said `Ok` exactly when every task ever admitted ended well, all others say `Ok`, and in every
      later state nothing more was admitted. */
  lemma {:induction false} StoppedForGood(pushes: CommandId -> seq<PushId>, states: seq<Drain>, steps: seq<Step>, n: nat, m: nat)
    requires IsRun(pushes, states, steps) && n <= m < |states| && states[n].first.Some?
    ensures states[m].first == states[n].first && states[m].tasks == map[] && states[m].admitted == states[n].admitted
    ensures StopOf(states[m], states[n].first.value)
         == Returned(forall t :: t in states[m].admitted ==> t !in states[m].failures)
    ensures forall k :: StopOf(states[m], k).Returned? && k != states[n].first.value ==> StopOf(states[m], k).ok
    decreases m
  {
    hide *;
    RunInv(pushes, states, steps, m);
    if n < m {
      RunInv(pushes, states, steps, m - 1);
      StoppedForGood(pushes, states, steps, n, m - 1);
      StepAt(pushes, states, steps, m - 1);
      ReturnedStep(pushes, states[m - 1], steps[m - 1], states[m]);
    }
    FirstTells(states[m]);
  }

  lemma StepAt(pushes: CommandId -> seq<PushId>, states: seq<Drain>, steps: seq<Step>, n: nat)
    requires IsRun(pushes, states, steps) && n + 1 < |states|
    ensures n < |steps| && Next(pushes, states[n], steps[n], states[n + 1])
  {
    hide Next;
  }

  lemma FirstTells(s: Drain)
    requires TrackerInv(s) && s.first.Some?
    ensures s.tasks == map[] && StopOf(s, s.first.value) == Returned(forall t :: t in s.admitted ==> t !in s.failures)
    ensures forall k :: StopOf(s, k).Returned? && k != s.first.value ==> StopOf(s, k).ok
  {
    assert s.failures == {} <==> forall t :: t in s.admitted ==> t !in s.failures;
  }

  /** Whoever has returned, one of the calls was the first. */
  lemma SomebodyWasFirst(pushes: CommandId -> seq<PushId>, states: seq<Drain>, steps: seq<Step>, n: nat, k: Stopper)
    requires IsRun(pushes, states, steps) && n < |states| && StopOf(states[n], k).Returned?
    ensures states[n].first.Some? && !states[n].accepting
  {
    RunInv(pushes, states, steps, n);
    hide IsRun;
    hide LoopInv;
  }

  /** A run in which an enqueue passes the check before the close and sends after it. */
  const RACE: seq<Step> :=
    [EnqueueCheck(0), CloseSwap, CloseSend, EnqueueSend(0), Receive, StopFlag(LOOP), StopLock(LOOP), StopReturn(LOOP)]

  function RaceState(k: nat): Drain {
    Drain(k < 2, k == 2, if 1 <= k <= 3 then {0} else {},
          if k < 3 then [] else if k == 3 then [Close] else if k == 4 then [Close, Dispatch(0)] else [Dispatch(0)],
          if k < 5 then Receiving else if k < 8 then Stopping else Stopped,
          k < 6, if k == 7 then ByStopper(LOOP) else Free, map[], [],
          if k < 6 then map[] else map[LOOP := if k == 6 then Flagged else if k == 7 then Joining else Returned(true)],
          if k < 3 then [] else if k == 3 then [Close] else [Close, Dispatch(0)],
          if k < 5 then 0 else 1, {}, {}, {}, if k < 8 then None else Some(LOOP), {}, {}, {})
  }

  lemma RaceStep(pushes: CommandId -> seq<PushId>, k: nat)
    requires k < 8
    ensures Next(pushes, RaceState(k), RACE[k], RaceState(k + 1))
  {
    if k == 3 {
      assert [Close] + [Dispatch(0)] == [Close, Dispatch(0)];
    } else if k == 4 {
      assert [Close, Dispatch(0)][1..] == [Dispatch(0)];
    }
  }

  /** The race is real: that command is accepted, and then neither admitted nor recorded. */
  lemma DispatchBehindCloseIsLost(pushes: CommandId -> seq<PushId>) returns (states: seq<Drain>)
    ensures IsRun(pushes, states, RACE)
    ensures var s := states[|states| - 1];
      s.loop == Stopped && Dispatch(0) in s.sent && ForCommand(0) !in s.admitted && 0 !in s.refused && s.recorded == {}
  {
    states := seq(9, k requires k >= 0 => RaceState(k));
    assert Init(states[0]);
    assert states[8].sent[1] == Dispatch(0);
    forall k | 0 <= k < 8 ensures Next(pushes, states[k], RACE[k], states[k + 1]) {
      hide Next;
      RaceStep(pushes, k);
    }
  }

  /** A run in which somebody else stops the tracker while the loop is about to spawn. */
  const REFUSAL: seq<Step> :=
    [EnqueueCheck(0), EnqueueSend(0), Receive, StopFlag(1), SpawnLock(ForCommand(0)), SpawnCheck]

  function RefusalState(pushes: CommandId -> seq<PushId>, k: nat): Drain {
    Drain(true, false, if k == 1 then {0} else {}, if k == 2 then [Dispatch(0)] else [],
          if k < 3 then Receiving else if k < 6 then Spawning(0) else Recording(0, pushes(0)),
          k < 4, if k == 5 then BySpawner(ForCommand(0), false) else Free, map[], [],
          if k < 4 then map[] else map[1 := Flagged],
          if k < 2 then [] else [Dispatch(0)], if k < 3 then 0 else 1,
          {}, {}, {}, None, if k < 6 then {} else {0}, {}, {})
  }

  /** Refusals happen: that command goes the way of the written record. */
  lemma RefusalHappens(pushes: CommandId -> seq<PushId>) returns (states: seq<Drain>)
    ensures IsRun(pushes, states, REFUSAL)
    ensures var s := states[|states| - 1]; 0 in s.refused && s.loop == Recording(0, pushes(0)) && ForCommand(0) !in s.admitted
  {
    states := seq(7, k requires k >= 0 => RefusalState(pushes, k));
    assert Init(states[0]);
    forall k | 0 <= k < 6 ensures Next(pushes, states[k], REFUSAL[k], states[k + 1]) {
      hide Next;
      RefusalStep(pushes, k);
    }
  }

  lemma RefusalStep(pushes: CommandId -> seq<PushId>, k: nat)
    requires k < 6
    ensures Next(pushes, RefusalState(pushes, k), REFUSAL[k], RefusalState(pushes, k + 1))
  {
    if k == 1 {
      assert [] + [Dispatch(0)] == [Dispatch(0)];
    } else if k == 2 {
      assert [Dispatch(0)][1..] == [];
    }
  }
}
