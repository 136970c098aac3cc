/** What the worker has done, as an invariant of every step: log, store, callbacks, replies, counters. */
module WriteQueueHistory {
  import opened Options
  import opened WriteQueue
  import opened WriteQueueInvariants

  // --------------------------------------------------------------- small algebra

  lemma WorksAppend(w: World, calls: seq<Caller>, c: Caller)
    ensures Works(w, calls + [c]) == Works(w, calls) + (if w.request(c).Work? then [c] else [])
  {
    assert (calls + [c])[..|calls|] == calls;
  }

  lemma {:induction false} WorksSplit(w: World, a: seq<Caller>, b: seq<Caller>)
    ensures Works(w, a + b) == Works(w, a) + Works(w, b)
    decreases |b|
  {
    if b == [] {
      assert a + b == a;
    } else {
      assert (a + b)[..|a + b| - 1] == a + b[..|b| - 1];
      WorksSplit(w, a, b[..|b| - 1]);
    }
  }

  lemma LogAppend(w: World, log: seq<Entry>, e: Entry)
    ensures Replay(w, log + [e]) == After(w, e, Replay(w, log))
    ensures Callers(log + [e]) == Callers(log) + [e.caller]
    ensures CallbacksDue(w, log + [e]) == CallbacksDue(w, log)
         + (if e.fate.Committed? then Tagged(e.caller, w.code(e.caller, Replay(w, log)).callbacks) else [])
    ensures GoodCount(log + [e]) == GoodCount(log) + (if e.fate.Good() then 1 else 0)
  {
    assert (log + [e])[..|log|] == log;
  }

  // ------------------------------------------------------------------ invariants

  predicate Busied(worker: WorkerPc) { worker.InHand() || worker.Unrecorded() || worker.Replying? }

  /** The log holds the accepted work in order of admission, but for the command in hand. */
  ghost predicate LogInv(w: World, s: Queue) {
    && s.read <= |s.admitted|
    && Works(w, s.admitted[..s.read]) == Callers(s.log) + (if s.worker.InHand() then [s.worker.caller] else [])
  }

  predicate FateFits(w: World, e: Entry) {
    && w.request(e.caller).Work?
    && if Transactional(w, e.caller) then !e.fate.JobDone? && !e.fate.JobFailed?
       else e.fate.JobDone? || e.fate.JobFailed? || e.fate.Panicked?
  }

  ghost predicate HandInv(w: World, s: Queue) {
    && (Busied(s.worker) ==> 0 < s.read <= |s.admitted| && s.admitted[s.read - 1] == s.worker.caller)
    && (s.worker.Exiting? ==> 0 < s.read <= |s.admitted| && w.request(s.admitted[s.read - 1]).Close?)
    && (s.worker.InHand() || s.worker.Unrecorded() ==> w.request(s.worker.caller).Work?)
    && (s.worker.Callbacks? ==> s.log != [] && s.log[|s.log| - 1] == Entry(s.worker.caller, Committed))
    && (s.worker.Recording? || (s.worker.Replying? && w.request(s.worker.caller).Work?) ==>
          && s.log != [] && s.log[|s.log| - 1].caller == s.worker.caller
          && s.log[|s.log| - 1].fate.Good() == s.worker.ok && !s.log[|s.log| - 1].fate.Panicked?)
    && (s.worker.Replying? && !w.request(s.worker.caller).Work? ==> s.worker.ok)
    && (s.lost ==> s.worker.Stopped? && s.log != [] && s.log[|s.log| - 1].fate.Panicked?
                   && 0 < s.read <= |s.admitted| && w.request(s.admitted[s.read - 1]).Work?)
  }

  ghost predicate FateInv(w: World, s: Queue) {
    && (s.worker.InHand() || s.worker.Unrecorded() ==> w.request(s.worker.caller).Work?)
    && (s.worker.InTransaction? || s.worker.Committing? || s.worker.Callbacks? ==> Transactional(w, s.worker.caller))
    && (s.lost ==> s.worker.Stopped?)
    && (forall e :: e in s.log ==> FateFits(w, e) && (e.fate.Panicked? ==> s.lost))
  }

  ghost predicate StoreInv(w: World, s: Queue) {
    && s.store == Replay(w, s.log)
    && (s.worker.Committing? ==> s.worker.ran == w.code(s.worker.caller, s.store) && s.worker.ran.ok)
  }

  ghost predicate FiredInv(w: World, s: Queue) {
    s.fired + (if s.worker.Callbacks? then Tagged(s.worker.caller, s.worker.due) else []) == CallbacksDue(w, s.log)
  }

  /** Messages the worker is through with. */
  function Answered(s: Queue): int { if Busied(s.worker) || s.lost then s.read - 1 else s.read }

  ghost predicate LoggedAs(log: seq<Entry>, c: Caller, ok: bool) {
    exists e :: e in log && e.caller == c && e.fate.Good() == ok && !e.fate.Panicked?
  }

  ghost predicate ReplyInv(w: World, s: Queue) {
    && 0 <= Answered(s) <= |s.admitted|
    && forall c :: c in s.replies ==>
         && c in s.admitted[..Answered(s)]
         && if w.request(c).Work? then LoggedAs(s.log, c, s.replies[c]) else s.replies[c]
  }

  ghost predicate DoneInv(s: Queue) {
    && (forall c: Caller :: Pc(s, c) == Done(Ok) ==> c in s.replies && s.replies[c])
    && (forall c: Caller :: Pc(s, c) == Done(JobError) ==> c in s.replies && !s.replies[c])
  }

  /** Log entries whose outcome has been counted. */
  function Recorded(s: Queue): seq<Entry> {
    if (s.worker.Unrecorded() || s.lost) && s.log != [] then s.log[..|s.log| - 1] else s.log
  }

  ghost predicate OutcomeCountInv(s: Queue) {
    s.stats.completed == GoodCount(Recorded(s)) && s.stats.completed + s.stats.failed == |Recorded(s)|
  }

  predicate Holder(s: Queue, counted: bool, deep: bool) {
    s.lock.Some? && ((counted && Pc(s, s.lock.value).Counted?) || (deep && Pc(s, s.lock.value).Deep?))
  }

  ghost predicate AdmissionCountInv(w: World, s: Queue) {
    && s.stats.accepted == |Works(w, s.admitted)| + (if Holder(s, true, true) then 1 else 0)
    && s.stats.depth == |Works(w, s.channel)| + (if Holder(s, false, true) then 1 else 0) + (if s.worker.Taken? then 1 else 0)
  }

  ghost predicate HistoryInv(w: World, s: Queue) {
    LogInv(w, s) && HandInv(w, s) && FateInv(w, s) && StoreInv(w, s) && FiredInv(w, s) && ReplyInv(w, s) && OutcomeCountInv(s)
  }

  // ---------------------------------------------------------------- client steps

  lemma ClientLeavesHistory(w: World, s: Queue, c: Caller, act: ClientAct)
    requires ClientCan(w, s, c, act)
    ensures var s' := ClientDo(w, s, c, act);
      && s'.worker == s.worker && s'.log == s.log && s'.store == s.store && s'.fired == s.fired && s'.replies == s.replies
      && s'.read == s.read && s'.lost == s.lost && s.admitted <= s'.admitted
      && s'.stats.completed == s.stats.completed && s'.stats.failed == s.stats.failed
  {
  }

  lemma SameHistory(w: World, s: Queue, s': Queue)
    requires HistoryInv(w, s)
    requires s'.worker == s.worker && s'.log == s.log && s'.store == s.store && s'.fired == s.fired && s'.replies == s.replies
    requires s'.read == s.read && s'.lost == s.lost && s.admitted <= s'.admitted
    requires s'.stats.completed == s.stats.completed && s'.stats.failed == s.stats.failed
    ensures LogInv(w, s') && HandInv(w, s') && FateInv(w, s') && StoreInv(w, s') && FiredInv(w, s')
    ensures ReplyInv(w, s')
    ensures OutcomeCountInv(s')
  {
    assert s'.admitted[..s.read] == s.admitted[..s.read];
    assert Answered(s') == Answered(s) && s'.admitted[..Answered(s)] == s.admitted[..Answered(s)];
    assert Recorded(s') == Recorded(s);
    hide Works;
    hide Replay;
    hide After;
    hide CallbacksDue;
    hide LoggedAs;
    hide GoodCount;
  }

  lemma HistoryClientStep(w: World, s: Queue, c: Caller, act: ClientAct)
    requires HistoryInv(w, s) && ClientCan(w, s, c, act)
    ensures HistoryInv(w, ClientDo(w, s, c, act))
  {
    ClientLeavesHistory(w, s, c, act);
    hide ClientDo;
    hide ClientCan;
    SameHistory(w, s, ClientDo(w, s, c, act));
  }

  lemma DoneClientStep(w: World, s: Queue, c: Caller, act: ClientAct)
    requires DoneInv(s) && ClientCan(w, s, c, act)
    ensures DoneInv(ClientDo(w, s, c, act))
  {
    var s' := ClientDo(w, s, c, act);
    assert forall d: Caller :: d != c ==> Pc(s', d) == Pc(s, d);
  }

  predicate IsCounted(pc: ClientPc) { pc.Counted? || pc.Deep? }

  /** Only the caller that holds the lock can be between the counters and the channel. */
  lemma HolderIs(s: Queue, c: Caller)
    requires LockInv(s)
    ensures Pc(s, c).Holds() ==> Holder(s, true, true) == IsCounted(Pc(s, c)) && Holder(s, false, true) == Pc(s, c).Deep?
    ensures s.lock == None ==> !Holder(s, true, true) && !Holder(s, false, true)
  {
    assert Pc(s, c).Holds() <==> s.lock == Some(c);
  }

  lemma HolderElsewhere(w: World, s: Queue, c: Caller, act: ClientAct)
    requires LockInv(s) && ClientCan(w, s, c, act)
    requires !Pc(s, c).Holds() && !act.GetLock?
    ensures var s' := ClientDo(w, s, c, act);
      Holder(s', true, true) == Holder(s, true, true) && Holder(s', false, true) == Holder(s, false, true)
  {
    assert s.lock.Some? ==> Pc(s, s.lock.value).Holds();
  }

  lemma CountsStep(w: World, s: Queue, c: Caller, act: ClientAct)
    requires ClientCan(w, s, c, act)
    ensures var s' := ClientDo(w, s, c, act);
      && s'.stats.accepted == s.stats.accepted + (if act.CountAccepted? then 1 else 0)
      && s'.stats.depth == s.stats.depth + (if act.CountDepth? then 1 else 0)
      && IsCounted(Pc(s', c)) == (if act.CountAccepted? then true else if act.Send? then false else IsCounted(Pc(s, c)))
      && Pc(s', c).Deep? == (if act.CountDepth? then true else if act.Send? then false else Pc(s, c).Deep?)
      && s'.channel == (if act.Send? then s.channel + [c] else s.channel)
      && s'.admitted == (if act.Send? then s.admitted + [c] else s.admitted)
      && s'.worker == s.worker
      && (s'.lock == None || s'.lock == s.lock || act.GetLock?)
      && (act.GetLock? ==> s.lock == None && s'.lock == Some(c))
      && (Pc(s, c).Holds() && !Pc(s', c).Holds() ==> s'.lock == None)
      && (IsCounted(Pc(s, c)) ==> act.CountDepth? || act.Send?)
      && (act.CountDepth? ==> Pc(s, c).Counted?) && (act.CountAccepted? ==> Pc(s, c).Permitted?)
      && (act.Send? ==> Pc(s, c).Holds() && w.request(c).Work? == Pc(s, c).Deep? && !Pc(s, c).Counted?)
  {
    match act {
      case Start => {}
      case GetLock => {}
      case LockTimeout => {}
      case CheckFlag => {}
      case Reserve => {}
      case ReserveTimeout => {}
      case ReserveFails => {}
      case CountAccepted => {}
      case CountDepth => {}
      case Send => {}
      case Wake => {}
      case GetReply => {}
      case Cancel => {}
    }
  }

  lemma AdmissionCountClientStep(w: World, s: Queue, c: Caller, act: ClientAct)
    requires AdmissionCountInv(w, s) && ClientCan(w, s, c, act) && LockInv(s) && LockInv(ClientDo(w, s, c, act))
    ensures AdmissionCountInv(w, ClientDo(w, s, c, act))
  {
    var s' := ClientDo(w, s, c, act);
    CountsStep(w, s, c, act);
    HolderIs(s, c);
    HolderIs(s', c);
    if !Pc(s, c).Holds() && !act.GetLock? { HolderElsewhere(w, s, c, act); }
    hide LockInv;
    hide Holder;
    hide Works;
    hide ClientDo;
    hide ClientCan;
    if act.Send? {
      WorksAppend(w, s.admitted, c);
      WorksAppend(w, s.channel, c);
    }
  }

  // ---------------------------------------------------------------- worker steps

  /** The entry a step writes, if it writes one. */
  function Writes(w: World, s: Queue, act: WorkerAct): Option<Fate>
    requires WorkerCan(w, s, act)
  {
    match act
    case RunJob => Some(if w.code(s.worker.caller, s.store).ok then JobDone else JobFailed)
    case Begin(ok) => if ok then None else Some(NotBegun)
    case RunBody => if w.code(s.worker.caller, s.store).ok then None else Some(RolledBack)
    case Commit(ok) => Some(if ok then Committed else CommitFailed)
    case Panic => Some(Panicked)
    case _ => None
  }

  /** Where the worker is behind a step. */
  function WorkerAfter(w: World, s: Queue, act: WorkerAct): WorkerPc
    requires WorkerCan(w, s, act)
  {
    match act
    case Connect(ok) => if ok then Idle else Stopped
    case TakeNext => if w.request(s.channel[0]).Work? then Taken(s.channel[0]) else Replying(s.channel[0], true)
    case Decrement => Running(s.worker.caller)
    case RunJob => Recording(s.worker.caller, w.code(s.worker.caller, s.store).ok)
    case Begin(ok) => if ok then InTransaction(s.worker.caller) else Recording(s.worker.caller, false)
    case RunBody =>
      var ran := w.code(s.worker.caller, s.store);
      if ran.ok then Committing(s.worker.caller, ran) else Recording(s.worker.caller, false)
    case Commit(ok) => if ok then Callbacks(s.worker.caller, s.worker.ran.callbacks) else Recording(s.worker.caller, false)
    case RunCallback => Callbacks(s.worker.caller, s.worker.due[1..])
    case CallbacksDone => Recording(s.worker.caller, true)
    case Record => Replying(s.worker.caller, s.worker.ok)
    case Reply => if w.request(s.worker.caller).Close? then Exiting else Idle
    case Exit => Stopped
    case Panic => Stopped
  }

  lemma WorkerMoves(w: World, s: Queue, act: WorkerAct)
    requires WorkerCan(w, s, act)
    ensures WorkerDo(w, s, act).worker == WorkerAfter(w, s, act)
  {
    hide After;
    match act {
      case Connect(_) => {}
      case TakeNext => {}
      case Decrement => {}
      case RunJob => {}
      case Begin(_) => {}
      case RunBody => {}
      case Commit(_) => {}
      case RunCallback => {}
      case CallbacksDone => {}
      case Record => {}
      case Reply => {}
      case Exit => {}
      case Panic => {}
    }
  }

  lemma LogMoves(w: World, s: Queue, act: WorkerAct)
    requires WorkerCan(w, s, act)
    ensures var s' := WorkerDo(w, s, act);
      && s'.log == (if Writes(w, s, act).Some? then s.log + [Entry(s.worker.caller, Writes(w, s, act).value)] else s.log)
      && s'.lost == (s.lost || act.Panic?)
      && (Writes(w, s, act).Some? ==> s.worker.InHand())
  {
    hide After;
    match act {
      case Connect(_) => {}
      case TakeNext => {}
      case Decrement => {}
      case RunJob => {}
      case Begin(_) => {}
      case RunBody => {}
      case Commit(_) => {}
      case RunCallback => {}
      case CallbacksDone => {}
      case Record => {}
      case Reply => {}
      case Exit => {}
      case Panic => {}
    }
  }

  /** Whether a step writes an entry shows in the log. */
  lemma WritesIs(w: World, s: Queue, act: WorkerAct)
    requires WorkerCan(w, s, act)
    ensures Writes(w, s, act).Some? <==> WorkerDo(w, s, act).log != s.log
  {
    LogMoves(w, s, act);
    hide WorkerDo;
    hide Writes;
    if Writes(w, s, act).Some? { assert |s.log + [Entry(s.worker.caller, Writes(w, s, act).value)]| > |s.log|; }
  }

  lemma StoreMoves(w: World, s: Queue, act: WorkerAct)
    requires WorkerCan(w, s, act)
    ensures Writes(w, s, act).None? ==> WorkerDo(w, s, act).store == s.store
    ensures WorkerDo(w, s, act).fired == (if act.RunCallback? then s.fired + [(s.worker.caller, s.worker.due[0])] else s.fired)
  {
    hide After;
    match act {
      case Connect(_) => {}
      case TakeNext => {}
      case Decrement => {}
      case RunJob => {}
      case Begin(_) => {}
      case RunBody => {}
      case Commit(_) => {}
      case RunCallback => {}
      case CallbacksDone => {}
      case Record => {}
      case Reply => {}
      case Exit => {}
      case Panic => {}
    }
  }

  lemma StatsMove(w: World, s: Queue, act: WorkerAct)
    requires WorkerCan(w, s, act)
    ensures var s' := WorkerDo(w, s, act);
      if act.Record? then
        && s'.stats.completed == s.stats.completed + (if s.worker.ok then 1 else 0)
        && s'.stats.failed == s.stats.failed + (if s.worker.ok then 0 else 1)
        && s'.stats.accepted == s.stats.accepted && s'.stats.depth == s.stats.depth
      else s'.stats == if act.Decrement? then s.stats.(depth := s.stats.depth - 1) else s.stats
  {
    hide After;
    match act {
      case Connect(_) => {}
      case TakeNext => {}
      case Decrement => {}
      case RunJob => {}
      case Begin(_) => {}
      case RunBody => {}
      case Commit(_) => {}
      case RunCallback => {}
      case CallbacksDone => {}
      case Record => {}
      case Reply => {}
      case Exit => {}
      case Panic => {}
    }
  }

  lemma LogStep(w: World, s: Queue, act: WorkerAct)
    requires LogInv(w, s) && HandInv(w, s) && ChannelInv(w, s) && WorkerCan(w, s, act)
    ensures LogInv(w, WorkerDo(w, s, act))
  {
    WorkerMoves(w, s, act);
    LogMoves(w, s, act);
    WorkerLeavesFront(w, s, act);
    hide WorkerDo;
    hide HandInv;
    hide Works;
    if act.TakeNext? {
      var c := s.channel[0];
      assert s.admitted[..s.read + 1] == s.admitted[..s.read] + [c];
      WorksAppend(w, s.admitted[..s.read], c);
    } else if Writes(w, s, act).Some? {
      var entry := Entry(s.worker.caller, Writes(w, s, act).value);
      assert Callers(s.log + [entry]) == Callers(s.log) + [s.worker.caller];
    }
  }

  lemma HandStep(w: World, s: Queue, act: WorkerAct)
    requires HandInv(w, s) && FateInv(w, s) && ChannelInv(w, s) && StoreInv(w, s) && WorkerCan(w, s, act)
    ensures HandInv(w, WorkerDo(w, s, act))
  {
    WorkerMoves(w, s, act);
    LogMoves(w, s, act);
    WorkerLeavesFront(w, s, act);
    assert s.worker.Committing? ==> s.worker.ran.ok;
    if act.TakeNext? { assert s.channel[0] == s.admitted[s.read]; }
    hide WorkerDo;
    hide StoreInv;
    hide FateInv;
    hide ChannelInv;
    match act {
      case Connect(_) => {}
      case TakeNext => {}
      case Decrement => {}
      case RunJob => {}
      case Begin(_) => {}
      case RunBody => {}
      case Commit(_) => {}
      case RunCallback => {}
      case CallbacksDone => {}
      case Record => {}
      case Reply => {}
      case Exit => {}
      case Panic => {}
    }
  }

  lemma FateStep(w: World, s: Queue, act: WorkerAct)
    requires FateInv(w, s) && WorkerCan(w, s, act)
    ensures FateInv(w, WorkerDo(w, s, act))
  {
    WorkerMoves(w, s, act);
    LogMoves(w, s, act);
    hide WorkerDo;
    match act {
      case Connect(_) => {}
      case TakeNext => {}
      case Decrement => {}
      case RunJob => {}
      case Begin(_) => {}
      case RunBody => {}
      case Commit(_) => {}
      case RunCallback => {}
      case CallbacksDone => {}
      case Record => {}
      case Reply => {}
      case Exit => {}
      case Panic => {}
    }
  }

  lemma LogGrows(w: World, s: Queue, act: WorkerAct)
    requires WorkerCan(w, s, act)
    ensures s.log <= WorkerDo(w, s, act).log
  {
    LogMoves(w, s, act);
    hide WorkerDo;
    hide Writes;
  }

  lemma EntryIs(w: World, s: Queue, act: WorkerAct)
    requires WorkerCan(w, s, act) && WorkerDo(w, s, act).log != s.log
    ensures var s' := WorkerDo(w, s, act); var last := |s.log|;
      |s'.log| == last + 1 && s'.log == s.log + [s'.log[last]] && s'.log[last].caller == s.worker.caller
  {
    LogMoves(w, s, act);
    hide WorkerDo;
    hide Writes;
  }

  lemma EntryLeaves(w: World, s: Queue, act: WorkerAct)
    requires WorkerCan(w, s, act) && WorkerDo(w, s, act).log != s.log
    ensures var s' := WorkerDo(w, s, act);
      s.worker.InHand() && (s'.worker.Unrecorded() || s'.lost) && !s'.worker.Committing? && s'.stats == s.stats
  {
    WorkerMoves(w, s, act);
    LogMoves(w, s, act);
    StatsMove(w, s, act);
    hide WorkerDo;
  }

  /** A step that writes an entry has the command in hand, applies the entry, and leaves the outcome uncounted. */
  lemma EntryWritten(w: World, s: Queue, act: WorkerAct)
    requires FateInv(w, s) && StoreInv(w, s) && WorkerCan(w, s, act) && WorkerDo(w, s, act).log != s.log
    ensures var s' := WorkerDo(w, s, act); var last := |s.log|;
      && |s'.log| == last + 1 && s'.log == s.log + [s'.log[last]] && s'.log[last].caller == s.worker.caller
      && s'.store == After(w, s'.log[last], s.store)
      && s.worker.InHand() && (s'.worker.Unrecorded() || s'.lost) && !s'.worker.Committing? && s'.stats == s.stats
  {
    hide Replay;
    EntryIs(w, s, act);
    EntryLeaves(w, s, act);
  }

  lemma NoEntryWritten(w: World, s: Queue, act: WorkerAct)
    requires FateInv(w, s) && StoreInv(w, s) && WorkerCan(w, s, act) && WorkerDo(w, s, act).log == s.log
    ensures var s' := WorkerDo(w, s, act);
      && s'.store == s.store && s'.lost == s.lost
      && (s'.worker.Committing? ==> s'.worker.ran == w.code(s'.worker.caller, s'.store) && s'.worker.ran.ok)
      && (if act.Record? then s.worker.Recording? && !s'.worker.Unrecorded()
                           && s'.stats.completed == s.stats.completed + (if s.worker.ok then 1 else 0)
                           && s'.stats.failed == s.stats.failed + (if s.worker.ok then 0 else 1)
          else s'.worker.Unrecorded() == s.worker.Unrecorded()
                           && s'.stats.completed == s.stats.completed && s'.stats.failed == s.stats.failed)
  {
    WritesIs(w, s, act);
    WorkerMoves(w, s, act);
    LogMoves(w, s, act);
    StoreMoves(w, s, act);
    StatsMove(w, s, act);
    hide WorkerDo;
    hide Replay;
    match act {
      case Connect(_) => {}
      case TakeNext => {}
      case Decrement => {}
      case RunJob => {}
      case Begin(_) => {}
      case RunBody => {}
      case Commit(_) => {}
      case RunCallback => {}
      case CallbacksDone => {}
      case Record => {}
      case Reply => {}
      case Exit => {}
      case Panic => {}
    }
  }

  lemma StoreStep(w: World, s: Queue, act: WorkerAct)
    requires FateInv(w, s) && StoreInv(w, s) && WorkerCan(w, s, act)
    ensures StoreInv(w, WorkerDo(w, s, act))
  {
    var s' := WorkerDo(w, s, act);
    if s'.log != s.log {
      EntryWritten(w, s, act);
      LogAppend(w, s.log, s'.log[|s.log|]);
    } else {
      NoEntryWritten(w, s, act);
    }
    hide WorkerDo;
    hide FateInv;
    hide Replay;
  }

  lemma CommitFires(w: World, s: Queue)
    requires FiredInv(w, s) && StoreInv(w, s) && s.worker.Committing?
    ensures FiredInv(w, WorkerDo(w, s, Commit(true)))
  {
    LogAppend(w, s.log, Entry(s.worker.caller, Committed));
    hide Replay;
    hide CallbacksDue;
  }

  lemma CallbackFires(w: World, s: Queue)
    requires FiredInv(w, s) && WorkerCan(w, s, RunCallback)
    ensures FiredInv(w, WorkerDo(w, s, RunCallback))
  {
    assert Tagged(s.worker.caller, s.worker.due) == [(s.worker.caller, s.worker.due[0])] + Tagged(s.worker.caller, s.worker.due[1..]);
    hide CallbacksDue;
  }

  lemma OthersFireNothing(w: World, s: Queue, act: WorkerAct)
    requires WorkerCan(w, s, act) && act != Commit(true) && !act.RunCallback?
    ensures var s' := WorkerDo(w, s, act);
      && s'.fired == s.fired && !s'.worker.Callbacks? && (s.worker.Callbacks? ==> s.worker.due == [])
      && s.log <= s'.log && |s'.log| <= |s.log| + 1 && (|s'.log| > |s.log| ==> !s'.log[|s.log|].fate.Committed?)
  {
    WorkerMoves(w, s, act);
    LogMoves(w, s, act);
    StoreMoves(w, s, act);
    hide WorkerDo;
  }

  lemma FiredStep(w: World, s: Queue, act: WorkerAct)
    requires FiredInv(w, s) && StoreInv(w, s) && WorkerCan(w, s, act)
    ensures FiredInv(w, WorkerDo(w, s, act))
  {
    if act == Commit(true) {
      CommitFires(w, s);
    } else if act.RunCallback? {
      CallbackFires(w, s);
    } else {
      OthersFireNothing(w, s, act);
      var s' := WorkerDo(w, s, act);
      hide WorkerDo;
      hide StoreInv;
      if s'.log != s.log {
        assert s'.log == s.log + [s'.log[|s.log|]];
        LogAppend(w, s.log, s'.log[|s.log|]);
      }
      hide Replay;
      hide CallbacksDue;
    }
  }

  lemma OutcomeCountStep(w: World, s: Queue, act: WorkerAct)
    requires OutcomeCountInv(s) && HandInv(w, s) && FateInv(w, s) && StoreInv(w, s) && WorkerCan(w, s, act)
    ensures OutcomeCountInv(WorkerDo(w, s, act))
  {
    hide *;
    var s' := WorkerDo(w, s, act);
    if s'.log != s.log {
      EntryWritten(w, s, act);
      CountedLater(w, s, s');
    } else {
      NoEntryWritten(w, s, act);
      if act.Record? { CountedNow(w, s, s'); } else { SameCount(s, s'); }
    }
  }

  lemma CountedLater(w: World, s: Queue, s': Queue)
    requires OutcomeCountInv(s) && HandInv(w, s) && s.worker.InHand() && (s'.worker.Unrecorded() || s'.lost)
    requires |s'.log| == |s.log| + 1 && s'.log == s.log + [s'.log[|s.log|]] && s'.stats == s.stats
    ensures OutcomeCountInv(s')
  {
    assert s'.log[..|s'.log| - 1] == s.log;
    assert Recorded(s) == s.log == Recorded(s');
    hide GoodCount;
  }

  lemma CountedNow(w: World, s: Queue, s': Queue)
    requires OutcomeCountInv(s) && HandInv(w, s) && s.worker.Recording? && !s'.worker.Unrecorded()
    requires s'.log == s.log && s'.lost == s.lost
    requires s'.stats.completed == s.stats.completed + (if s.worker.ok then 1 else 0)
    requires s'.stats.failed == s.stats.failed + (if s.worker.ok then 0 else 1)
    ensures OutcomeCountInv(s')
  {
    assert s.log == s.log[..|s.log| - 1] + [s.log[|s.log| - 1]];
    assert Recorded(s') == s.log;
  }

  lemma SameCount(s: Queue, s': Queue)
    requires OutcomeCountInv(s) && s'.worker.Unrecorded() == s.worker.Unrecorded() && s'.log == s.log && s'.lost == s.lost
    requires s'.stats.completed == s.stats.completed && s'.stats.failed == s.stats.failed
    ensures OutcomeCountInv(s')
  {
    hide GoodCount;
  }

  lemma AdmissionCountWorkerStep(w: World, s: Queue, act: WorkerAct)
    requires AdmissionCountInv(w, s) && WorkerCan(w, s, act)
    ensures AdmissionCountInv(w, WorkerDo(w, s, act))
  {
    if act.TakeNext? {
      assert s.channel == [s.channel[0]] + s.channel[1..];
      WorksSplit(w, [s.channel[0]], s.channel[1..]);
      assert Works(w, [s.channel[0]]) == if w.request(s.channel[0]).Work? then [s.channel[0]] else [];
    }
    WorkerLeavesFront(w, s, act);
    WorkerMoves(w, s, act);
    StatsMove(w, s, act);
    hide WorkerDo;
    hide Works;
    match act {
      case Connect(_) => {}
      case TakeNext => {}
      case Decrement => {}
      case RunJob => {}
      case Begin(_) => {}
      case RunBody => {}
      case Commit(_) => {}
      case RunCallback => {}
      case CallbacksDone => {}
      case Record => {}
      case Reply => {}
      case Exit => {}
      case Panic => {}
    }
  }

  lemma RepliesMove(w: World, s: Queue, act: WorkerAct)
    requires WorkerCan(w, s, act)
    ensures WorkerDo(w, s, act).replies == if act.Reply? then s.replies[s.worker.caller := s.worker.ok] else s.replies
  {
    hide After;
    match act {
      case Connect(_) => {}
      case TakeNext => {}
      case Decrement => {}
      case RunJob => {}
      case Begin(_) => {}
      case RunBody => {}
      case Commit(_) => {}
      case RunCallback => {}
      case CallbacksDone => {}
      case Record => {}
      case Reply => {}
      case Exit => {}
      case Panic => {}
    }
  }

  lemma ReplyDelta(w: World, s: Queue, act: WorkerAct)
    requires HandInv(w, s) && FateInv(w, s) && WorkerCan(w, s, act)
    ensures var s' := WorkerDo(w, s, act);
      && Answered(s') == Answered(s) + (if act.Reply? then 1 else 0)
      && (act.Reply? ==> s.worker.Replying? && s'.replies == s.replies[s.worker.caller := s.worker.ok] && s'.log == s.log)
      && (!act.Reply? ==> s'.replies == s.replies)
  {
    WorkerMoves(w, s, act);
    LogMoves(w, s, act);
    WorkerLeavesFront(w, s, act);
    RepliesMove(w, s, act);
    hide WorkerDo;
    hide FateInv;
    match act {
      case Connect(_) => {}
      case TakeNext => {}
      case Decrement => {}
      case RunJob => {}
      case Begin(_) => {}
      case RunBody => {}
      case Commit(_) => {}
      case RunCallback => {}
      case CallbacksDone => {}
      case Record => {}
      case Reply => {}
      case Exit => {}
      case Panic => {}
    }
  }

  lemma LoggedAsStays(log: seq<Entry>, log': seq<Entry>, c: Caller, ok: bool)
    requires LoggedAs(log, c, ok) && log <= log'
    ensures LoggedAs(log', c, ok)
  {
    assert forall e :: e in log ==> e in log';
  }

  lemma AnswerIsLogged(w: World, s: Queue)
    requires HandInv(w, s) && FateInv(w, s) && s.worker.Replying?
    ensures 0 < s.read <= |s.admitted| && s.admitted[s.read - 1] == s.worker.caller && Answered(s) == s.read - 1
    ensures if w.request(s.worker.caller).Work? then LoggedAs(s.log, s.worker.caller, s.worker.ok) else s.worker.ok
  {
    if w.request(s.worker.caller).Work? { assert s.log[|s.log| - 1] in s.log; }
  }

  lemma ReplyStep(w: World, s: Queue, act: WorkerAct)
    requires ReplyInv(w, s) && HandInv(w, s) && FateInv(w, s) && WorkerCan(w, s, act)
    ensures ReplyInv(w, WorkerDo(w, s, act))
  {
    var s' := WorkerDo(w, s, act);
    WorkerLeavesFront(w, s, act);
    ReplyDelta(w, s, act);
    LogGrows(w, s, act);
    if s.worker.Replying? { AnswerIsLogged(w, s); }
    hide WorkerDo;
    hide WorkerCan;
    hide HandInv;
    hide FateInv;
    hide LoggedAs;
    hide Answered;
    forall c | c in s'.replies
      ensures c in s'.admitted[..Answered(s')]
      ensures if w.request(c).Work? then LoggedAs(s'.log, c, s'.replies[c]) else s'.replies[c]
    {
      if act.Reply? && c == s.worker.caller {
        assert s'.admitted[..Answered(s')][Answered(s)] == c;
      } else {
        assert c in s.replies && c in s.admitted[..Answered(s)];
        assert s'.admitted[..Answered(s)] <= s'.admitted[..Answered(s')];
        if w.request(c).Work? { LoggedAsStays(s.log, s'.log, c, s.replies[c]); }
      }
    }
  }

  lemma AnswersOnce(w: World, s: Queue)
    requires SentInv(s) && HandInv(w, s) && ReplyInv(w, s) && s.worker.Replying?
    ensures s.worker.caller !in s.replies
  {
  }

  lemma DoneWorkerStep(w: World, s: Queue, act: WorkerAct)
    requires DoneInv(s) && SentInv(s) && HandInv(w, s) && FateInv(w, s) && ReplyInv(w, s) && WorkerCan(w, s, act)
    ensures DoneInv(WorkerDo(w, s, act))
  {
    hide *;
    WorkerLeavesFront(w, s, act);
    if act.Reply? {
      ReplyDelta(w, s, act);
      AnswersOnce(w, s);
    } else {
      ReplyDelta(w, s, act);
    }
    MoreRepliesKeepDone(s, WorkerDo(w, s, act));
  }

  lemma MoreRepliesKeepDone(s: Queue, s': Queue)
    requires DoneInv(s) && s'.clients == s.clients
    requires forall c :: c in s.replies ==> c in s'.replies && s'.replies[c] == s.replies[c]
    ensures DoneInv(s')
  {
    assert forall c: Caller :: Pc(s', c) == Pc(s, c);
  }

  // ------------------------------------------------------------------ whole runs

  ghost predicate QueueInv(w: World, s: Queue) {
    FrontInv(w, s) && HistoryInv(w, s) && DoneInv(s) && AdmissionCountInv(w, s)
  }

  lemma HistoryWorkerStep(w: World, s: Queue, act: WorkerAct)
    requires FrontInv(w, s) && HistoryInv(w, s) && WorkerCan(w, s, act)
    ensures HistoryInv(w, WorkerDo(w, s, act))
  {
    LogStep(w, s, act);
    HandStep(w, s, act);
    FateStep(w, s, act);
    StoreStep(w, s, act);
    FiredStep(w, s, act);
    ReplyStep(w, s, act);
    OutcomeCountStep(w, s, act);
    hide WorkerDo;
    hide LogInv;
    hide HandInv;
    hide FateInv;
    hide StoreInv;
    hide FiredInv;
    hide ReplyInv;
    hide OutcomeCountInv;
    hide LockInv;
    hide FlagInv;
    hide SentInv;
    hide LastInv;
  }

  lemma QueueStep(w: World, s: Queue, step: Step)
    requires QueueInv(w, s) && Can(w, s, step)
    ensures QueueInv(w, Do(w, s, step))
  {
    hide HistoryInv;
    match step
    case Client(c, act) =>
      FrontClientStep(w, s, c, act);
      HistoryClientStep(w, s, c, act);
      DoneClientStep(w, s, c, act);
      FrontParts(w, s);
      FrontParts(w, ClientDo(w, s, c, act));
      hide FrontInv;
      AdmissionCountClientStep(w, s, c, act);
      hide ClientDo;
      hide DoneInv;
      hide AdmissionCountInv;
    case Worker(act) =>
      FrontWorkerStep(w, s, act);
      HistoryWorkerStep(w, s, act);
      AdmissionCountWorkerStep(w, s, act);
      FrontParts(w, s);
      assert HandInv(w, s) && FateInv(w, s) && ReplyInv(w, s) by { HistoryParts(w, s); }
      hide FrontInv;
      DoneWorkerStep(w, s, act);
      hide WorkerDo;
      hide DoneInv;
      hide AdmissionCountInv;
  }

  lemma HistoryParts(w: World, s: Queue)
    requires HistoryInv(w, s)
    ensures LogInv(w, s) && HandInv(w, s) && FateInv(w, s) && StoreInv(w, s) && FiredInv(w, s) && ReplyInv(w, s) && OutcomeCountInv(s)
  {
  }

  lemma InitInv(w: World, s: Queue)
    requires Init(w, s)
    ensures QueueInv(w, s)
  {
  }

  lemma {:induction false} RunInv(w: World, states: seq<Queue>, steps: seq<Step>, n: nat)
    requires IsRun(w, states, steps) && n < |states|
    ensures QueueInv(w, states[n])
  {
    hide QueueInv;
    hide Do;
    if n == 0 {
      InitInv(w, states[0]);
    } else {
      RunInv(w, states, steps, n - 1);
      QueueStep(w, states[n - 1], steps[n - 1]);
    }
  }
}
