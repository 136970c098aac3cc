/** What the queue promises its callers, for every run of every number of callers. */
module WriteQueueGuarantees {
  import opened Options
  import opened WriteQueue
  import opened WriteQueueInvariants
  import opened WriteQueueHistory

  // ------------------------------------------------------- runs only ever add

  lemma DoGrows(w: World, s: Queue, step: Step, c: Caller)
    requires Can(w, s, step)
    ensures var s' := Do(w, s, step);
      && s.admitted <= s'.admitted && s.log <= s'.log && s.read <= s'.read
      && (Pc(s, c).Done? ==> Pc(s', c) == Pc(s, c))
  {
    match step
    case Client(d, act) =>
      ClientLeavesHistory(w, s, d, act);
    case Worker(act) =>
      WorkerLeavesFront(w, s, act);
      LogGrows(w, s, act);
      hide WorkerDo;
      hide WorkerCan;
  }

  lemma {:induction false} RunGrows(w: World, states: seq<Queue>, steps: seq<Step>, n: nat, m: nat, c: Caller)
    requires IsRun(w, states, steps) && n <= m < |states|
    ensures states[n].admitted <= states[m].admitted && states[n].log <= states[m].log && states[n].read <= states[m].read
    ensures Pc(states[n], c).Done? ==> Pc(states[m], c) == Pc(states[n], c)
    decreases m
  {
    hide Do;
    hide Can;
    if n < m {
      RunGrows(w, states, steps, n, m - 1, c);
      DoGrows(w, states[m - 1], steps[m - 1], c);
    }
  }

  // --------------------------------------------------------------- serialization

  lemma {:induction false} WorksMeans(w: World, calls: seq<Caller>, c: Caller)
    ensures c in Works(w, calls) <==> c in calls && w.request(c).Work?
  {
    if calls != [] {
      WorksMeans(w, calls[..|calls| - 1], c);
      assert calls == calls[..|calls| - 1] + [calls[|calls| - 1]];
    }
  }

  lemma {:induction false} WorksDistinct(w: World, calls: seq<Caller>)
    requires forall i, j :: 0 <= i < j < |calls| ==> calls[i] != calls[j]
    ensures forall i, j :: 0 <= i < j < |Works(w, calls)| ==> Works(w, calls)[i] != Works(w, calls)[j]
  {
    if calls != [] {
      var before, last := calls[..|calls| - 1], calls[|calls| - 1];
      WorksDistinct(w, before);
      WorksMeans(w, before, last);
      assert last !in before;
    }
  }

  /** The database is what the successful transactions, in the order in which the queue admitted
      them, make of the initial one; and the worker has run a prefix of the admitted work, each
      command once. */
  lemma Serialization(w: World, states: seq<Queue>, steps: seq<Step>, n: nat)
    requires IsRun(w, states, steps) && n < |states|
    ensures var s := states[n];
      && s.store == Replay(w, s.log)
      && Callers(s.log) <= Works(w, s.admitted)
    ensures var s := states[n];
      forall i, j :: 0 <= i < j < |s.log| ==> s.log[i].caller != s.log[j].caller
  {
    RunInv(w, states, steps, n);
    hide IsRun;
    var s := states[n];
    FrontParts(w, s);
    HistoryParts(w, s);
    hide *;
    LogIsPrefix(w, s);
    assert s.store == Replay(w, s.log) by { StoreIs(w, s); }
  }

  lemma StoreIs(w: World, s: Queue)
    requires StoreInv(w, s)
    ensures s.store == Replay(w, s.log)
  {
  }

  lemma LogIsPrefix(w: World, s: Queue)
    requires LogInv(w, s) && SentInv(s)
    ensures Callers(s.log) <= Works(w, s.admitted)
    ensures forall i, j :: 0 <= i < j < |s.log| ==> s.log[i].caller != s.log[j].caller
  {
    assert s.admitted == s.admitted[..s.read] + s.admitted[s.read..];
    WorksSplit(w, s.admitted[..s.read], s.admitted[s.read..]);
    WorksDistinct(w, s.admitted[..s.read]);
    hide Works;
    assert forall i :: 0 <= i < |s.log| ==> s.log[i].caller == Works(w, s.admitted[..s.read])[i];
  }

  /** A caller told `Busy` or `Closed`, with or without background retries, is never run, then or later. */
  lemma RefusedNeverRuns(w: World, states: seq<Queue>, steps: seq<Step>, n: nat, m: nat, c: Caller)
    requires IsRun(w, states, steps) && n <= m < |states|
    requires Pc(states[n], c) in {Done(Busy), Done(Closed)}
    ensures c !in states[m].admitted && c !in Callers(states[m].log)
  {
    RunInv(w, states, steps, m);
    RunGrows(w, states, steps, n, m, c);
    var s := states[m];
    FrontParts(w, s);
    assert c !in s.admitted;
    WorksMeans(w, s.admitted, c);
    Serialization(w, states, steps, m);
  }

  predicate FateTold(w: World, c: Caller, told: Result, fate: Fate) {
    if told.Ok? then fate == (if Transactional(w, c) then Committed else JobDone)
    else fate in (if Transactional(w, c) then {NotBegun, RolledBack, CommitFailed} else {JobFailed})
  }

  lemma LoggedFate(w: World, s: Queue, c: Caller, ok: bool) returns (i: nat)
    requires FateInv(w, s) && LoggedAs(s.log, c, ok) && w.request(c).Work?
    ensures i < |s.log| && s.log[i].caller == c && FateTold(w, c, if ok then Ok else JobError, s.log[i].fate)
  {
    var e :| e in s.log && e.caller == c && e.fate.Good() == ok && !e.fate.Panicked?;
    assert FateFits(w, e);
    i :| 0 <= i < |s.log| && s.log[i] == e;
  }

  /** `Ok` from `transact` means that this transaction committed, a job error that it did not. */
  lemma ReplyTellsTheFate(w: World, states: seq<Queue>, steps: seq<Step>, n: nat, c: Caller) returns (i: nat)
    requires IsRun(w, states, steps) && n < |states|
    requires Pc(states[n], c) in {Done(Ok), Done(JobError)} && w.request(c).Work?
    ensures i < |states[n].log| && states[n].log[i].caller == c && FateTold(w, c, Pc(states[n], c).result, states[n].log[i].fate)
  {
    RunInv(w, states, steps, n);
    var s := states[n];
    hide IsRun;
    HistoryParts(w, s);
    var ok := Pc(s, c) == Done(Ok);
    assert c in s.replies && s.replies[c] == ok;
    hide HistoryInv;
    hide FrontInv;
    assert LoggedAs(s.log, c, ok);
    hide LoggedAs;
    hide FateInv;
    i := LoggedFate(w, s, c, ok);
  }

  /** Callbacks: those of committed transactions, each once, in order, and all of one command's
      before the worker records its outcome, replies, or touches the next command. */
  lemma CallbacksFollowCommits(w: World, states: seq<Queue>, steps: seq<Step>, n: nat)
    requires IsRun(w, states, steps) && n < |states|
    ensures states[n].fired <= CallbacksDue(w, states[n].log)
    ensures !states[n].worker.Callbacks? ==> states[n].fired == CallbacksDue(w, states[n].log)
  {
    RunInv(w, states, steps, n);
    HistoryParts(w, states[n]);
  }

  // -------------------------------------------------------- barriers and shutdown

  lemma NothingAfterShutdown(w: World, states: seq<Queue>, steps: seq<Step>, n: nat, i: nat)
    requires IsRun(w, states, steps) && n < |states|
    requires i < |states[n].admitted| && w.request(states[n].admitted[i]).Close?
    ensures i == |states[n].admitted| - 1 && states[n].closed
  {
    RunInv(w, states, steps, n);
    FrontParts(w, states[n]);
  }

  lemma CancelLast<T>(a: seq<T>, b: seq<T>, x: T)
    requires a + [x] == b + [x]
    ensures a == b
  {
    assert a == (a + [x])[..|a + [x]| - 1] == (b + [x])[..|b + [x]| - 1] == b;
  }

  lemma AnsweredHasRun(w: World, s: Queue, k: nat)
    requires LogInv(w, s) && HandInv(w, s) && k <= Answered(s)
    ensures k <= |s.admitted| && Works(w, s.admitted[..k]) <= Callers(s.log)
  {
    if s.worker.InHand() {
      var last := s.worker.caller;
      assert s.admitted[..s.read] == s.admitted[..s.read - 1] + [last];
      WorksAppend(w, s.admitted[..s.read - 1], last);
      assert s.admitted[..s.read - 1] == s.admitted[..k] + s.admitted[k..s.read - 1];
      WorksSplit(w, s.admitted[..k], s.admitted[k..s.read - 1]);
      hide Works;
      CancelLast(Works(w, s.admitted[..s.read - 1]), Callers(s.log), last);
    } else {
      assert Callers(s.log) + [] == Callers(s.log);
      assert s.admitted[..s.read] == s.admitted[..k] + s.admitted[k..s.read];
      WorksSplit(w, s.admitted[..k], s.admitted[k..s.read]);
    }
  }

  lemma AnsweredIndex(w: World, s: Queue, c: Caller) returns (i: nat)
    requires ReplyInv(w, s) && DoneInv(s) && Pc(s, c) == Done(Ok)
    ensures i < Answered(s) <= |s.admitted| && s.admitted[i] == c
  {
    assert c in s.admitted[..Answered(s)];
    i :| 0 <= i < Answered(s) && s.admitted[i] == c;
  }

  lemma QueueParts(w: World, s: Queue)
    requires QueueInv(w, s)
    ensures FrontInv(w, s) && HistoryInv(w, s) && DoneInv(s) && AdmissionCountInv(w, s)
  {
    hide FrontInv;
    hide HistoryInv;
    hide DoneInv;
    hide AdmissionCountInv;
  }

  /** A barrier that returned `Ok` comes after everything that had been admitted before it was. */
  lemma BarrierMeans(w: World, states: seq<Queue>, steps: seq<Step>, n: nat, m: nat, c: Caller)
    requires IsRun(w, states, steps) && n <= m < |states| && !w.request(c).Work?
    requires c !in states[n].admitted && Pc(states[m], c) == Done(Ok)
    ensures Works(w, states[n].admitted) <= Callers(states[m].log)
  {
    RunInv(w, states, steps, m);
    RunGrows(w, states, steps, n, m, c);
    hide IsRun;
    QueueParts(w, states[m]);
    HistoryParts(w, states[m]);
    hide *;
    Barrier(w, states[n].admitted, states[m], c);
  }

  lemma Barrier(w: World, before: seq<Caller>, s: Queue, c: Caller)
    requires LogInv(w, s) && HandInv(w, s) && ReplyInv(w, s) && DoneInv(s)
    requires before <= s.admitted && c !in before && Pc(s, c) == Done(Ok)
    ensures Works(w, before) <= Callers(s.log)
  {
    var i := AnsweredIndex(w, s, c);
    hide *;
    assert forall j :: 0 <= j < |before| ==> s.admitted[j] == before[j] && before[j] != c;
    AnsweredHasRun(w, s, |before|);
    assert s.admitted[..|before|] == before;
  }

  predicate InFlight(s: Queue) { s.worker.Running? || s.worker.InTransaction? || s.worker.Committing? || s.worker.Unrecorded() || s.lost }

  predicate Admitting(s: Queue) { Holder(s, true, false) }

  /** The counters always add up: what was accepted is done, waiting, in flight, or counted a
      moment ago; the depth never goes below zero; and while nothing is in flight, `completed` counts
      the logged commands that succeeded and `failed` the others. */
  lemma CountersAddUp(w: World, states: seq<Queue>, steps: seq<Step>, n: nat)
    requires IsRun(w, states, steps) && n < |states|
    ensures var s := states[n];
      && s.stats.depth >= 0
      && s.stats.accepted == s.stats.completed + s.stats.failed + s.stats.depth
         + (if InFlight(s) then 1 else 0) + (if Admitting(s) then 1 else 0)
      && (!InFlight(s) ==> s.stats.completed == GoodCount(s.log) && s.stats.failed == |s.log| - GoodCount(s.log))
  {
    RunInv(w, states, steps, n);
    AddUp(w, states[n]);
    if !InFlight(states[n]) { OutcomesAddUp(w, states[n]); }
    hide QueueInv;
    hide GoodCount;
  }

  lemma OutcomesAddUp(w: World, s: Queue)
    requires QueueInv(w, s) && !InFlight(s)
    ensures s.stats.completed == GoodCount(s.log) && s.stats.failed == |s.log| - GoodCount(s.log)
  {
    HistoryParts(w, s);
    hide QueueInv;
    hide GoodCount;
  }

  lemma AddUp(w: World, s: Queue)
    requires QueueInv(w, s)
    ensures s.stats.depth >= 0
    ensures s.stats.accepted == s.stats.completed + s.stats.failed + s.stats.depth
         + (if InFlight(s) then 1 else 0) + (if Admitting(s) then 1 else 0)
  {
    HistoryParts(w, s);
    FrontParts(w, s);
    assert s.admitted == s.admitted[..s.read] + s.channel;
    WorksSplit(w, s.admitted[..s.read], s.channel);
  }

  /** After a `close_and_flush` that returned `Ok`: the queue is empty, every accepted command has
      run exactly once and is counted, ... */
  lemma ClosedAndFlushed(w: World, states: seq<Queue>, steps: seq<Step>, n: nat, c: Caller)
    requires IsRun(w, states, steps) && n < |states|
    requires w.request(c).Close? && Pc(states[n], c) == Done(Ok)
    ensures var s := states[n];
      && s.channel == [] && s.stats.depth == 0 && s.stats.accepted == s.stats.completed + s.stats.failed
      && Callers(s.log) == Works(w, s.admitted) && s.store == Replay(w, s.log)
  {
    RunInv(w, states, steps, n);
    Drained(w, states[n], c);
    AddUp(w, states[n]);
  }

  lemma Drained(w: World, s: Queue, c: Caller)
    requires QueueInv(w, s) && w.request(c).Close? && Pc(s, c) == Done(Ok)
    ensures s.channel == [] && s.stats.depth == 0 && !InFlight(s) && !Admitting(s)
    ensures Callers(s.log) == Works(w, s.admitted) && s.store == Replay(w, s.log)
    ensures s.admitted != [] && s.admitted[|s.admitted| - 1] == c
  {
    HistoryParts(w, s);
    FrontParts(w, s);
    assert c in s.admitted[..Answered(s)];
    var i :| 0 <= i < Answered(s) && s.admitted[i] == c;
    assert i == |s.admitted| - 1;
    assert s.read == |s.admitted| == Answered(s);
    assert s.admitted[..s.read] == s.admitted;
    assert s.closed;
  }

  /** ... and nothing the queue does afterwards changes the database or the log. */
  lemma ClosedIsFinal(w: World, states: seq<Queue>, steps: seq<Step>, n: nat, m: nat, c: Caller)
    requires IsRun(w, states, steps) && n <= m < |states|
    requires w.request(c).Close? && Pc(states[n], c) == Done(Ok)
    ensures states[m].store == states[n].store && states[m].log == states[n].log && states[m].admitted == states[n].admitted
  {
    RunInv(w, states, steps, n);
    RunInv(w, states, steps, m);
    RunGrows(w, states, steps, n, m, c);
    Drained(w, states[n], c);
    Drained(w, states[m], c);
    var a, b := states[n], states[m];
    assert FrontInv(w, b);
    FrontParts(w, b);
    hide QueueInv;
    hide FrontInv;
    assert b.admitted[|a.admitted| - 1] == c;
    assert b.admitted == a.admitted;
    hide Works;
    assert |a.log| == |Callers(a.log)| == |Callers(b.log)| == |b.log|;
    assert a.log == b.log;
  }

  // ------------------------------------------------------------------ retries

  /** How often `c` has been told that the queue is busy. */
  function Refusals(steps: seq<Step>, c: Caller): nat {
    if steps == [] then 0 else
    var last := steps[|steps| - 1];
    Refusals(steps[..|steps| - 1], c) + (if last.Client? && last.caller == c && IsRefusal(last.act) then 1 else 0)
  }

  function Spare(w: World, c: Caller): nat {
    if w.request(c).Work? && w.request(c).background then RETRIES else 0
  }

  /** The attempts used and those left always make up the allowance of the call. */
  ghost predicate RetryInv(w: World, pc: ClientPc, c: Caller, refusals: nat) {
    match pc
    case NotStarted => refusals == 0
    case Waiting(left) => refusals + left == Spare(w, c)
    case Locked(left) => refusals + left == Spare(w, c)
    case Reserving(left) => refusals + left == Spare(w, c)
    case Sleeping(left) => 0 < refusals && refusals + left == Spare(w, c)
    case Done(r) => if r.Busy? then refusals == Spare(w, c) + 1 else refusals <= Spare(w, c)
    case _ => refusals <= Spare(w, c)
  }

  predicate IsRefusal(act: ClientAct) { act.LockTimeout? || act.ReserveTimeout? }

  lemma RetryOwn(w: World, s: Queue, c: Caller, act: ClientAct, refusals: nat)
    requires RetryInv(w, Pc(s, c), c, refusals) && ClientCan(w, s, c, act)
    ensures RetryInv(w, Pc(ClientDo(w, s, c, act), c), c, refusals + (if IsRefusal(act) then 1 else 0))
  {
  }

  lemma RetryStep(w: World, s: Queue, step: Step, c: Caller, refusals: nat)
    requires RetryInv(w, Pc(s, c), c, refusals) && Can(w, s, step)
    ensures RetryInv(w, Pc(Do(w, s, step), c), c, refusals + (if step.Client? && step.caller == c && IsRefusal(step.act) then 1 else 0))
  {
    hide RetryInv;
    match step
    case Worker(act) =>
      WorkerLeavesFront(w, s, act);
      hide WorkerDo;
    case Client(d, act) =>
      PcStep(w, s, d, act, c);
      if d == c { RetryOwn(w, s, c, act, refusals); }
      hide ClientDo;
      hide ClientCan;
      hide Pc;
  }

  /** `Busy` is what remains when every attempt was refused: one for a foreground call, four for
      a background one; and no call is ever refused more often. */
  lemma {:induction false} BusyAfterEveryAttempt(w: World, states: seq<Queue>, steps: seq<Step>, n: nat, c: Caller)
    requires IsRun(w, states, steps) && n < |states|
    ensures RetryInv(w, Pc(states[n], c), c, Refusals(steps[..n], c))
    ensures Pc(states[n], c) == Done(Busy) ==>
      Refusals(steps[..n], c) == if w.request(c).Work? && w.request(c).background then 4 else 1
    ensures Refusals(steps[..n], c) <= if w.request(c).Work? && w.request(c).background then 4 else 1
  {
    if n > 0 {
      BusyAfterEveryAttempt(w, states, steps, n - 1, c);
      hide Do;
      hide Can;
      assert steps[..n][..n - 1] == steps[..n - 1];
      RetryStep(w, states[n - 1], steps[n - 1], c, Refusals(steps[..n - 1], c));
    }
  }
}
