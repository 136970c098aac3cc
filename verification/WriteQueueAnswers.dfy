/**
 What the answers of the queue and its rejection counters tell, and which entries of the log the
 database shows, for every run.
 */
module WriteQueueAnswers {
  import opened Options
  import opened WriteQueue
  import opened WriteQueueInvariants
  import opened WriteQueueHistory
  import opened WriteQueueGuarantees

  // -------------------------------------------------------------- closed and stopped

  /** Who raised the flag is past it, and nobody is told that the queue is closed or its worker gone when it is not. */
  ghost predicate AnswerInv(s: Queue) {
    && (forall c: Caller :: Pc(s, c) == Done(Closed) ==> s.closed && s.closer != Some(c))
    && (forall c: Caller :: Pc(s, c) == Done(WorkerStopped) ==> s.worker.Stopped?)
    && (s.closer.Some? ==> Pc(s, s.closer.value).PastFlag() || Pc(s, s.closer.value).Awaiting? || Pc(s, s.closer.value).Done?)
  }

  lemma ClientAnswers(w: World, s: Queue, c: Caller, act: ClientAct)
    requires FlagInv(w, s) && ClientCan(w, s, c, act)
    ensures var s' := ClientDo(w, s, c, act);
      && s'.worker == s.worker && s'.closed == s'.closer.Some? && s'.clients == s.clients[c := Pc(s', c)]
      && (s.closer.Some? ==> s'.closer == s.closer)
      && (Pc(s', c) == Done(Closed) ==> Pc(s, c).Locked? && s.closed && s'.closed)
      && (Pc(s', c) == Done(WorkerStopped) ==> s.worker.Stopped?)
      && (s'.closer != s.closer ==> s'.closer == Some(c) && Pc(s', c).PastFlag())
      && (Pc(s, c).PastFlag() || Pc(s, c).Awaiting? ==>
            Pc(s', c).PastFlag() || Pc(s', c).Awaiting? || Pc(s', c).Done? || !w.request(c).Close?)
  {
    match act {
      case Start => {}
      case GetLock => {}
      case LockTimeout => {}
      case CheckFlag => {}
      case Reserve => {}
      case ReserveTimeout => {}
      case ReserveFails => {}
      case CountAccepted => {}
      case CountDepth => {}
      case Send => {}
      case Wake => {}
      case GetReply => {}
      case Cancel => {}
    }
  }

  lemma AnswerClientStep(w: World, s: Queue, c: Caller, act: ClientAct)
    requires FlagInv(w, s) && AnswerInv(s) && ClientCan(w, s, c, act)
    ensures AnswerInv(ClientDo(w, s, c, act))
  {
    ClientAnswers(w, s, c, act);
    var s' := ClientDo(w, s, c, act);
    assert !Pc(s, c).Done?;
    hide ClientDo;
    hide ClientCan;
    assert forall d: Caller :: d != c ==> Pc(s', d) == Pc(s, d);
  }

  lemma StoppedStays(w: World, s: Queue, act: WorkerAct)
    requires WorkerCan(w, s, act)
    ensures !s.worker.Stopped?
  {
  }

  lemma AnswerStep(w: World, s: Queue, step: Step)
    requires FlagInv(w, s) && AnswerInv(s) && Can(w, s, step)
    ensures AnswerInv(Do(w, s, step))
  {
    match step
    case Client(c, act) =>
      AnswerClientStep(w, s, c, act);
      hide ClientDo;
      hide ClientCan;
      hide AnswerInv;
    case Worker(act) =>
      WorkerLeavesFront(w, s, act);
      StoppedStays(w, s, act);
      hide WorkerDo;
      hide WorkerCan;
      assert forall d: Caller :: Pc(Do(w, s, step), d) == Pc(s, d);
  }

  /** A call answered `Closed` met a queue that somebody else had closed, one answered
      `WorkerStopped` a worker that is gone for good. */
  lemma {:induction false} AnswersAreTrue(w: World, states: seq<Queue>, steps: seq<Step>, n: nat, c: Caller)
    requires IsRun(w, states, steps) && n < |states|
    ensures Pc(states[n], c) == Done(Closed) ==>
      states[n].closed && states[n].closer.Some? && states[n].closer != Some(c) && w.request(states[n].closer.value).Close?
    ensures Pc(states[n], c) == Done(WorkerStopped) ==> states[n].worker.Stopped?
    ensures AnswerInv(states[n])
  {
    hide *;
    FlagHolds(w, states, steps, n);
    if n > 0 {
      AnswersAreTrue(w, states, steps, n - 1, c);
      FlagHolds(w, states, steps, n - 1);
      StepOf(w, states, steps, n - 1);
      AnswerStep(w, states[n - 1], steps[n - 1]);
    } else {
      NoAnswersYet(w, states[0]);
    }
    AnswerMeans(w, states[n], c);
  }

  lemma FlagHolds(w: World, states: seq<Queue>, steps: seq<Step>, n: nat)
    requires IsRun(w, states, steps) && n < |states|
    ensures FlagInv(w, states[n]) && (n == 0 ==> Init(w, states[0]))
  {
    RunInv(w, states, steps, n);
    FrontParts(w, states[n]);
    hide FlagInv;
    hide FrontInv;
    hide HistoryInv;
  }

  lemma StepOf(w: World, states: seq<Queue>, steps: seq<Step>, n: nat)
    requires IsRun(w, states, steps) && n + 1 < |states|
    ensures |states| == |steps| + 1 && Can(w, states[n], steps[n]) && states[n + 1] == Do(w, states[n], steps[n])
  {
    hide Can;
    hide Do;
  }

  lemma NoAnswersYet(w: World, s: Queue)
    requires Init(w, s)
    ensures AnswerInv(s)
  {
  }

  lemma AnswerMeans(w: World, s: Queue, c: Caller)
    requires FlagInv(w, s) && AnswerInv(s)
    ensures Pc(s, c) == Done(Closed) ==> s.closed && s.closer.Some? && s.closer != Some(c) && w.request(s.closer.value).Close?
    ensures Pc(s, c) == Done(WorkerStopped) ==> s.worker.Stopped?
  {
  }

  // ---------------------------------------------------------- counting rejections

  function RefusalSteps(steps: seq<Step>): nat {
    if steps == [] then 0 else
    var last := steps[|steps| - 1];
    RefusalSteps(steps[..|steps| - 1]) + (if last.Client? && (last.act.LockTimeout? || last.act.ReserveTimeout?) then 1 else 0)
  }

  /** The calls other than closes that were told the queue is closed. */
  function TurnedAway(w: World, s: Queue): set<Caller> {
    set c | c in s.clients && s.clients[c] == Done(Closed) && !w.request(c).Close?
  }

  lemma ClientCounts(w: World, s: Queue, c: Caller, act: ClientAct)
    requires ClientCan(w, s, c, act)
    ensures var s' := ClientDo(w, s, c, act);
      && s'.stats.busy == s.stats.busy + (if act.LockTimeout? || act.ReserveTimeout? then 1 else 0)
      && s'.stats.closed == s.stats.closed + (if Pc(s', c) == Done(Closed) && !w.request(c).Close? then 1 else 0)
      && s'.clients == s.clients[c := Pc(s', c)] && Pc(s, c) != Done(Closed)
  {
    match act {
      case Start => {}
      case GetLock => {}
      case LockTimeout => {}
      case CheckFlag => {}
      case Reserve => {}
      case ReserveTimeout => {}
      case ReserveFails => {}
      case CountAccepted => {}
      case CountDepth => {}
      case Send => {}
      case Wake => {}
      case GetReply => {}
      case Cancel => {}
    }
  }

  lemma RejectionClientStep(w: World, s: Queue, c: Caller, act: ClientAct)
    requires ClientCan(w, s, c, act)
    ensures var s' := ClientDo(w, s, c, act);
      && s'.stats.busy == s.stats.busy + (if act.LockTimeout? || act.ReserveTimeout? then 1 else 0)
      && s'.stats.closed - s.stats.closed == |TurnedAway(w, s')| - |TurnedAway(w, s)|
  {
    ClientCounts(w, s, c, act);
    var s' := ClientDo(w, s, c, act);
    hide ClientDo;
    hide ClientCan;
    assert c !in TurnedAway(w, s);
    assert TurnedAway(w, s') == TurnedAway(w, s) + (if Pc(s', c) == Done(Closed) && !w.request(c).Close? then {c} else {});
  }

  lemma RejectionWorkerStep(w: World, s: Queue, act: WorkerAct)
    requires WorkerCan(w, s, act)
    ensures var s' := WorkerDo(w, s, act); s'.stats.busy == s.stats.busy && s'.stats.closed == s.stats.closed
  {
    hide After;
    match act {
      case Connect(_) => {}
      case TakeNext => {}
      case Decrement => {}
      case RunJob => {}
      case Begin(_) => {}
      case RunBody => {}
      case Commit(_) => {}
      case RunCallback => {}
      case CallbacksDone => {}
      case Record => {}
      case Reply => {}
      case Exit => {}
      case Panic => {}
    }
  }

  /** Each refusal of a lock or of a slot is counted once, retries included, and so is each call
      other than a close that was turned away. */
  lemma {:induction false} RejectionsAreCounted(w: World, states: seq<Queue>, steps: seq<Step>, n: nat)
    requires IsRun(w, states, steps) && n < |states|
    ensures states[n].stats.busy == RefusalSteps(steps[..n])
    ensures states[n].stats.closed == |TurnedAway(w, states[n])|
  {
    if n == 0 {
      assert TurnedAway(w, states[0]) == {};
    } else {
      RejectionsAreCounted(w, states, steps, n - 1);
      assert steps[..n][..n - 1] == steps[..n - 1];
      match steps[n - 1] {
        case Client(c, act) =>
          RejectionClientStep(w, states[n - 1], c, act);
          hide ClientDo;
          hide ClientCan;
          hide TurnedAway;
        case Worker(act) =>
          RejectionWorkerStep(w, states[n - 1], act);
          WorkerLeavesFront(w, states[n - 1], act);
          hide WorkerDo;
          hide WorkerCan;
      }
    }
  }

  // ---------------------------------------------------- what the database shows

  /** A transaction that did not commit leaves no trace: without its entry the log replays to the same database. */
  lemma {:induction false} FailedLeaveNoTrace(w: World, before: seq<Entry>, e: Entry, after: seq<Entry>)
    requires w.request(e.caller).Work? && w.request(e.caller).transactional && !e.fate.Committed?
    ensures Replay(w, before + [e] + after) == Replay(w, before + after)
  {
    if after == [] {
      assert (before + [e] + [])[..|before|] == before && before + [] == before;
    } else {
      var last := |after| - 1;
      FailedLeaveNoTrace(w, before, e, after[..last]);
      assert (before + [e] + after)[..|before| + 1 + last] == before + [e] + after[..last];
      assert (before + after)[..|before| + last] == before + after[..last];
    }
  }

  /** A committed transaction, and a plain job however it ended, shows what its code left. */
  lemma OthersShow(w: World, before: seq<Entry>, e: Entry)
    requires e.fate.Committed? || !(w.request(e.caller).Work? && w.request(e.caller).transactional)
    ensures Replay(w, before + [e]) == w.code(e.caller, Replay(w, before)).store
  {
    assert (before + [e])[..|before|] == before;
  }

  /** A transaction's callbacks follow those of the log before it, if and only if it committed. */
  lemma CallbacksOfOne(w: World, before: seq<Entry>, e: Entry)
    ensures var called := w.code(e.caller, Replay(w, before)).callbacks;
      var due := CallbacksDue(w, before + [e]);
      if e.fate.Committed? then
        && |due| == |CallbacksDue(w, before)| + |called|
        && due[..|CallbacksDue(w, before)|] == CallbacksDue(w, before)
        && forall i :: 0 <= i < |called| ==> due[|CallbacksDue(w, before)| + i] == (e.caller, called[i])
      else due == CallbacksDue(w, before)
  {
    hide Replay;
    hide Tagged;
    var log := before + [e];
    assert log[..|log| - 1] == before && log[|log| - 1] == e;
    TaggedAt(e.caller, w.code(e.caller, Replay(w, before)).callbacks);
    assert e.fate.Committed? ==>
      CallbacksDue(w, log) == CallbacksDue(w, before) + Tagged(e.caller, w.code(e.caller, Replay(w, before)).callbacks);
  }

  lemma TaggedAt(c: Caller, callbacks: seq<Callback>)
    ensures forall i :: 0 <= i < |callbacks| ==> Tagged(c, callbacks)[i] == (c, callbacks[i])
  {
  }
}
