/**
 The queue's own code, statement by statement, on the fields it has. Each method says which
 steps of the machine its statements are, so everything proved about runs holds of them too.
 */
module WriteQueueCode {
  import opened Options
  import opened WriteQueue
  import I = WriteQueueInvariants
  import H = WriteQueueHistory
  import G = WriteQueueGuarantees

  ghost predicate Stepped(w: World, s: Queue, step: Step, s': Queue) {
    Can(w, s, step) && s' == Do(w, s, step)
  }

  /** `steps` lead from `s` to `s'`. */
  ghost predicate Leads(w: World, s: Queue, steps: seq<Step>, s': Queue)
    decreases |steps|
  {
    if steps == [] then s == s' else
    Can(w, s, steps[0]) && Leads(w, Do(w, s, steps[0]), steps[1..], s')
  }

  lemma {:induction false} LeadsOn(w: World, s: Queue, first: seq<Step>, s1: Queue, second: seq<Step>, s2: Queue)
    requires Leads(w, s, first, s1) && Leads(w, s1, second, s2)
    ensures Leads(w, s, first + second, s2)
    decreases |first|
  {
    hide Do;
    hide Can;
    if first == [] {
      assert first + second == second;
    } else {
      assert (first + second)[1..] == first[1..] + second;
      LeadsOn(w, Do(w, s, first[0]), first[1..], s1, second, s2);
    }
  }

  lemma LeadsNext(w: World, s: Queue, first: seq<Step>, s1: Queue, step: Step, s2: Queue)
    requires Leads(w, s, first, s1) && Stepped(w, s1, step, s2)
    ensures Leads(w, s, first + [step], s2)
  {
    hide Do;
    hide Can;
    assert [step][1..] == [];
    LeadsOn(w, s, first, s1, [step], s2);
  }

  lemma LeadsOne(w: World, s: Queue, a: Step, s1: Queue)
    requires Stepped(w, s, a, s1)
    ensures Leads(w, s, [a], s1)
  {
    hide Do;
    hide Can;
    assert [a][1..] == [];
  }

  lemma LeadsTwo(w: World, s: Queue, a: Step, s1: Queue, b: Step, s2: Queue)
    requires Stepped(w, s, a, s1) && Stepped(w, s1, b, s2)
    ensures Leads(w, s, [a, b], s2)
  {
    LeadsOne(w, s, a, s1);
    hide *;
    LeadsNext(w, s, [a], s1, b, s2);
    assert [a] + [b] == [a, b];
  }

  lemma LeadsThree(w: World, s: Queue, a: Step, s1: Queue, b: Step, s2: Queue, c: Step, s3: Queue)
    requires Stepped(w, s, a, s1) && Stepped(w, s1, b, s2) && Stepped(w, s2, c, s3)
    ensures Leads(w, s, [a, b, c], s3)
  {
    LeadsTwo(w, s, a, s1, b, s2);
    hide *;
    LeadsNext(w, s, [a, b], s2, c, s3);
    assert [a, b] + [c] == [a, b, c];
  }

  /** What one attempt to get a command in comes to. */
  function Admission(w: World, s: Queue, timely: bool): Result {
    if !timely then Busy
    else if s.closed then Closed
    else if s.worker.Stopped? then WorkerStopped
    else if |s.channel| < w.capacity then Ok
    else Busy
  }

  function AfterFlag(c: Caller, r: Result, work: bool): seq<Step> {
    match r
    case Closed => []
    case WorkerStopped => [Client(c, ReserveFails)]
    case Busy => [Client(c, ReserveTimeout)]
    case _ =>
      if work then [Client(c, Reserve), Client(c, CountAccepted), Client(c, CountDepth), Client(c, Send)]
      else [Client(c, Reserve), Client(c, Send)]
  }

  function AdmissionSteps(c: Caller, timely: bool, r: Result, work: bool): seq<Step> {
    if timely then [Client(c, GetLock), Client(c, CheckFlag)] + AfterFlag(c, r, work) else [Client(c, LockTimeout)]
  }

  lemma StepSees(w: World, s: Queue, c: Caller, act: ClientAct, s': Queue)
    requires Stepped(w, s, Client(c, act), s')
    ensures s'.worker == s.worker && s'.replies == s.replies && s'.store == s.store && s'.log == s.log && s'.fired == s.fired
    ensures !act.Send? ==> s'.channel == s.channel
    ensures !act.CheckFlag? ==> s'.closed == s.closed
    ensures act.LockTimeout? || act.ReserveTimeout? ==> Pc(s', c) == AfterBusy(Pc(s, c).left)
    ensures act.LockTimeout? ==> s'.lock == s.lock
    ensures act.ReserveTimeout? ==> s'.lock == None
    ensures act.GetLock? ==> Pc(s', c) == Locked(Pc(s, c).left)
    ensures act.CheckFlag? ==> Pc(s', c) == (if s.closed then Done(Closed) else Reserving(Pc(s, c).left)) && (s.closed ==> s'.lock == None)
    ensures act.CheckFlag? && !w.request(c).Close? ==> s'.closed == s.closed
    ensures act.ReserveFails? ==> Pc(s', c) == Done(WorkerStopped) && s'.lock == None
    ensures act.Reserve? ==> Pc(s', c) == Permitted
    ensures act.CountAccepted? ==> Pc(s', c) == Counted
    ensures act.CountDepth? ==> Pc(s', c) == Deep
    ensures act.Send? ==> Pc(s', c) == Awaiting && s'.channel == s.channel + [c] && s'.lock == None
    ensures act.Wake? ==> Pc(s', c) == Waiting(Pc(s, c).left) && s'.lock == s.lock
    ensures act.Start? ==> Pc(s', c) == Waiting(if w.request(c).Work? && w.request(c).background then RETRIES else 0) && s'.lock == s.lock
  {
  }

  lemma TimedOut(w: World, s0: Queue, c: Caller, s1: Queue)
    requires Stepped(w, s0, Client(c, LockTimeout), s1)
    ensures Leads(w, s0, [Client(c, LockTimeout)], s1)
    ensures s1.channel == s0.channel && s1.closed == s0.closed && s1.lock == s0.lock && Pc(s1, c) == AfterBusy(Pc(s0, c).left)
  {
    StepSees(w, s0, c, LockTimeout, s1);
    LeadsOne(w, s0, Client(c, LockTimeout), s1);
    hide *;
  }

  lemma LockTaken(w: World, s0: Queue, c: Caller, s1: Queue)
    requires Stepped(w, s0, Client(c, GetLock), s1)
    ensures Pc(s1, c).Locked? && s1.closed == s0.closed && s1.worker == s0.worker && s1.channel == s0.channel
  {
    StepSees(w, s0, c, GetLock, s1);
    hide *;
  }

  /** The lock taken and the flag read under it. */
  lemma FlagRead(w: World, s0: Queue, c: Caller, s1: Queue, s2: Queue)
    requires Stepped(w, s0, Client(c, GetLock), s1) && Stepped(w, s1, Client(c, CheckFlag), s2)
    ensures Leads(w, s0, [Client(c, GetLock), Client(c, CheckFlag)], s2)
    ensures s2.worker == s0.worker && s2.channel == s0.channel && s2.closed == (s0.closed || w.request(c).Close?)
    ensures Pc(s2, c) == (if s0.closed then Done(Closed) else Reserving(Pc(s0, c).left)) && (s0.closed ==> s2.lock == None)
  {
    StepSees(w, s0, c, GetLock, s1);
    StepSees(w, s1, c, CheckFlag, s2);
    LeadsTwo(w, s0, Client(c, GetLock), s1, Client(c, CheckFlag), s2);
    FlagRaised(w, s1, c, s2);
    hide *;
  }

  lemma FlagRaised(w: World, s: Queue, c: Caller, s': Queue)
    requires Stepped(w, s, Client(c, CheckFlag), s')
    ensures s'.closed == (s.closed || w.request(c).Close?)
  {
  }

  /** Each of the first `n` attempts of call `c` but the last was answered `Busy` and the last one
      `r`; nobody else has moved in between. */
  ghost predicate Answered(w: World, start: Queue, s: Queue, c: Caller, timely: seq<bool>, n: nat, r: Result) {
    && w.request(c).Work? && 0 < n <= |timely| && r == Admission(w, start, timely[n - 1])
    && (forall i :: 0 <= i < n - 1 ==> Admission(w, start, timely[i]).Busy?)
    && s.closed == start.closed && s.worker == start.worker && s.lock == None
    && s.channel == (if r.Ok? then start.channel + [c] else start.channel)
    && n <= (if w.request(c).background then RETRIES + 1 else 1)
    && Pc(s, c) == (if r.Ok? then Awaiting else if !r.Busy? then Done(r)
                    else if w.request(c).background && n <= RETRIES then Sleeping(RETRIES - n) else Done(Busy))
  }

  lemma AnsweredAgain(w: World, start: Queue, before: Queue, s: Queue, c: Caller, timely: seq<bool>, n: nat, r: Result)
    requires Answered(w, start, before, c, timely, n, Busy) && w.request(c).Work? && w.request(c).background && n <= RETRIES && n < |timely|
    requires r == Admission(w, before, timely[n]) && s.closed == before.closed && s.worker == before.worker && s.lock == None
    requires s.channel == if r.Ok? then before.channel + [c] else before.channel
    requires Pc(s, c) == if r.Ok? then Awaiting else if r.Busy? then AfterBusy(RETRIES - n) else Done(r)
    ensures Answered(w, start, s, c, timely, n + 1, r)
  {
  }

  lemma SameAnswer(w: World, s: Queue, s': Queue, timely: bool)
    requires s'.closed == s.closed && s'.channel == s.channel && s'.worker == s.worker
    ensures Admission(w, s', timely) == Admission(w, s, timely)
  {
  }

  lemma AnsweredMeans(w: World, start: Queue, s: Queue, c: Caller, timely: seq<bool>, n: nat, r: Result)
    requires Answered(w, start, s, c, timely, n, r) && w.request(c).Work?
    ensures 0 < n <= |timely| && r == Admission(w, start, timely[n - 1])
    ensures forall i :: 0 <= i < n - 1 ==> Admission(w, start, timely[i]).Busy?
    ensures s.lock == None && s.channel == if r.Ok? then start.channel + [c] else start.channel
    ensures s.worker == start.worker
    ensures r.Busy? && w.request(c).background && n <= RETRIES ==> Pc(s, c) == Sleeping(RETRIES - n)
    ensures !(r.Busy? && w.request(c).background && n <= RETRIES) ==> Pc(s, c) == if r.Ok? then Awaiting else Done(r)
    ensures n <= if w.request(c).background then RETRIES + 1 else 1
  {
    hide Admission;
  }

  /** The worker has taken `taken` messages of `start`; it goes on while none of them was a close. */
  ghost predicate Took(w: World, start: seq<Caller>, channel: seq<Caller>, taken: nat, running: bool) {
    && taken <= |start| && channel == start[taken..]
    && (forall i :: 0 <= i < taken - 1 ==> !w.request(start[i]).Close?)
    && running == !(taken > 0 && w.request(start[taken - 1]).Close?)
  }

  lemma TookNothing(w: World, start: seq<Caller>)
    ensures Took(w, start, start, 0, true)
  {
  }

  lemma TookOne(w: World, start: seq<Caller>, channel: seq<Caller>, taken: nat, c: Caller)
    requires Took(w, start, channel, taken, true) && channel != [] && c == channel[0]
    ensures Took(w, start, channel[1..], taken + 1, !w.request(c).Close?)
  {
  }

  lemma TookMeans(w: World, start: seq<Caller>, channel: seq<Caller>, taken: nat, running: bool)
    requires Took(w, start, channel, taken, running)
    ensures taken <= |start| && channel == start[taken..]
    ensures forall i :: 0 <= i < taken - 1 ==> !w.request(start[i]).Close?
    ensures running == !(taken > 0 && w.request(start[taken - 1]).Close?)
  {
  }

  lemma LeadsNowhere(w: World, s: Queue)
    ensures Leads(w, s, [], s)
  {
  }

  class DbWriteQueue {
    const w: World
    // the handle
    var admission: Option<Caller>
    var closed: bool
    var channel: seq<Caller>
    var stats: Counters
    // the writer's database and the reply channels
    var store: Store
    var replies: map<Caller, bool>
    // program counters and history
    ghost var clients: map<Caller, ClientPc>
    ghost var worker: WorkerPc
    ghost var closer: Option<Caller>
    ghost var admitted: seq<Caller>
    ghost var read: nat
    ghost var log: seq<Entry>
    ghost var fired: seq<(Caller, Callback)>
    ghost var lost: bool

    ghost function State(): Queue
      reads this
    {
      Queue(store, admission, closed, channel, stats, clients, worker, replies, closer, admitted, read, log, fired, lost)
    }

    constructor (w: World)
      ensures this.w == w && Init(w, State())
    {
      this.w := w;
      admission, closed, channel, stats := None, false, [], Counters(0, 0, 0, 0, 0, 0);
      store, replies := w.initial, map[];
      clients, worker, closer, admitted, read, log, fired, lost := map[], Connecting, None, [], 0, [], [], false;
    }

    // ------------------------------------------------------ admission, by statement

    /** `timeout_at(deadline, admission.lock())`; a closing call has no deadline. */
    method TimedLock(c: Caller, timely: bool)
      requires Pc(State(), c).Waiting? && (if timely then admission == None else !w.request(c).Close?)
      modifies this`admission, this`stats, this`clients
      ensures Stepped(w, old(State()), Client(c, if timely then GetLock else LockTimeout), State())
    {
      ghost var left := clients[c].left;
      if timely {
        admission := Some(c);
        clients := clients[c := Locked(left)];
      } else {
        stats := stats.(busy := stats.busy + 1);
        clients := clients[c := AfterBusy(left)];
      }
    }

    /** `closed.load()`, or `closed.swap(true)` for a closing call; a refusal drops the lock guard. */
    method CheckClosed(c: Caller, closing: bool) returns (refused: bool)
      requires Pc(State(), c).Locked? && closing == w.request(c).Close?
      modifies this`admission, this`stats, this`closed, this`clients, this`closer
      ensures Stepped(w, old(State()), Client(c, CheckFlag), State()) && refused == old(closed)
    {
      ghost var left := clients[c].left;
      refused := closed;
      if refused {
        if !closing { stats := stats.(closed := stats.closed + 1); }
        admission := None;
        clients := clients[c := Done(Closed)];
      } else {
        if closing {
          closed := true;
          closer := Some(c);
        }
        clients := clients[c := Reserving(left)];
      }
    }

    static function ReserveAct(r: Result): ClientAct {
      if r.Ok? then Reserve else if r.Busy? then ReserveTimeout else ReserveFails
    }

    /** `reserve_owned()` under what is left of the deadline. */
    method ReserveSlot(c: Caller, receiverAlive: bool) returns (r: Result)
      requires Pc(State(), c).Reserving? && receiverAlive == !worker.Stopped?
      requires w.request(c).Close? && receiverAlive ==> |channel| < w.capacity
      modifies this`admission, this`stats, this`clients
      ensures r == (if !receiverAlive then WorkerStopped else if |old(channel)| < w.capacity then Ok else Busy)
      ensures Stepped(w, old(State()), Client(c, ReserveAct(r)), State())
    {
      ghost var left := clients[c].left;
      if !receiverAlive {
        r := WorkerStopped;
        admission := None;
        clients := clients[c := Done(WorkerStopped)];
      } else if |channel| < w.capacity {
        r := Ok;
        clients := clients[c := Permitted];
      } else {
        r := Busy;
        stats := stats.(busy := stats.busy + 1);
        admission := None;
        clients := clients[c := AfterBusy(left)];
      }
    }

    method IncrementAccepted(c: Caller)
      requires Pc(State(), c).Permitted? && w.request(c).Work?
      modifies this`stats, this`clients
      ensures Stepped(w, old(State()), Client(c, CountAccepted), State())
    {
      stats := stats.(accepted := stats.accepted + 1);
      clients := clients[c := Counted];
    }

    method IncrementDepth(c: Caller)
      requires Pc(State(), c).Counted?
      modifies this`stats, this`clients
      ensures Stepped(w, old(State()), Client(c, CountDepth), State())
    {
      stats := stats.(depth := stats.depth + 1);
      clients := clients[c := Deep];
    }

    method SendCommand(c: Caller)
      requires ClientCan(w, State(), c, Send)
      modifies this`channel, this`admission, this`clients, this`admitted
      ensures Stepped(w, old(State()), Client(c, Send), State())
    {
      channel := channel + [c];
      admitted := admitted + [c];
      admission := None;
      clients := clients[c := Awaiting];
    }

    // ---------------------------------------------------------- admission, whole

    /** `accepted += 1; depth += 1; permit.send(..)`: nothing is awaited between these. */
    method SendCounted(c: Caller)
      requires Pc(State(), c).Permitted? && w.request(c).Work?
      modifies this`admission, this`stats, this`channel, this`clients, this`admitted
      ensures Leads(w, old(State()), [Client(c, CountAccepted), Client(c, CountDepth), Client(c, Send)], State())
      ensures channel == old(channel) + [c] && admission == None && Pc(State(), c) == Awaiting
    {
      ghost var s0 := State();
      IncrementAccepted(c);
      ghost var s1 := State();
      StepSees(w, s0, c, CountAccepted, s1);
      IncrementDepth(c);
      ghost var s2 := State();
      StepSees(w, s1, c, CountDepth, s2);
      assert ClientCan(w, s2, c, Send);
      SendCommand(c);
      ghost var s3 := State();
      StepSees(w, s2, c, Send, s3);
      hide Can;
      hide Do;
      hide Pc;
      LeadsThree(w, s0, Client(c, CountAccepted), s1, Client(c, CountDepth), s2, Client(c, Send), s3);
    }

    method ReserveAndSend(c: Caller, receiverAlive: bool) returns (r: Result)
      requires Pc(State(), c).Reserving? && w.request(c).Work? && receiverAlive == !worker.Stopped?
      modifies this`admission, this`stats, this`channel, this`clients, this`admitted
      ensures r == (if !receiverAlive then WorkerStopped else if |old(channel)| < w.capacity then Ok else Busy)
      ensures Leads(w, old(State()), AfterFlag(c, r, true), State())
      ensures channel == (if r.Ok? then old(channel) + [c] else old(channel)) && admission == None
      ensures Pc(State(), c) == if r.Ok? then Awaiting else if r.Busy? then AfterBusy(old(clients)[c].left) else Done(r)
    {
      ghost var s0 := State();
      r := ReserveSlot(c, receiverAlive);
      ghost var s1 := State();
      StepSees(w, s0, c, ReserveAct(r), s1);
      LeadsOne(w, s0, Client(c, ReserveAct(r)), s1);
      hide Can;
      hide Do;
      if r != Ok { return; }
      SendCounted(c);
      hide Leads;
      LeadsOn(w, s0, [Client(c, Reserve)], s1, [Client(c, CountAccepted), Client(c, CountDepth), Client(c, Send)], State());
      assert [Client(c, Reserve)] + [Client(c, CountAccepted), Client(c, CountDepth), Client(c, Send)] == AfterFlag(c, Ok, true);
    }

    method AdmitOnce(c: Caller, timely: bool, receiverAlive: bool) returns (r: Result)
      requires Pc(State(), c).Waiting? && w.request(c).Work? && receiverAlive == !worker.Stopped?
      requires timely ==> admission == None
      modifies this`admission, this`stats, this`closed, this`channel, this`clients, this`closer, this`admitted
      ensures r == Admission(w, old(State()), timely)
      ensures Leads(w, old(State()), AdmissionSteps(c, timely, r, true), State())
      ensures channel == (if r.Ok? then old(channel) + [c] else old(channel)) && closed == old(closed)
      ensures timely || old(admission) == None ==> admission == None
      ensures Pc(State(), c) == if r.Ok? then Awaiting else if r.Busy? then AfterBusy(old(clients)[c].left) else Done(r)
    {
      ghost var s0 := State();
      TimedLock(c, timely);
      ghost var s1 := State();
      hide Can;
      hide Do;
      hide Leads;
      hide Stepped;
      if !timely {
        TimedOut(w, s0, c, s1);
        return Busy;
      }
      LockTaken(w, s0, c, s1);
      var refused := CheckClosed(c, false);
      ghost var s2 := State();
      FlagRead(w, s0, c, s1, s2);
      ghost var done := [Client(c, GetLock), Client(c, CheckFlag)];
      if refused {
        assert done + [] == done;
        return Closed;
      }
      r := ReserveAndSend(c, receiverAlive);
      hide AfterFlag;
      LeadsOn(w, s0, done, s2, AfterFlag(c, r, true), State());
    }

    method BeginCall(c: Caller)
      requires Pc(State(), c).NotStarted?
      modifies this`clients
      ensures Stepped(w, old(State()), Client(c, Start), State())
    {
      clients := clients[c := Waiting(if w.request(c).Work? && w.request(c).background then RETRIES else 0)];
    }

    /** The end of a pause between two attempts. */
    method EndPause(c: Caller)
      requires Pc(State(), c).Sleeping?
      modifies this`clients
      ensures Stepped(w, old(State()), Client(c, Wake), State())
    {
      clients := clients[c := Waiting(clients[c].left)];
    }

    /** One more attempt after a pause. */
    method AdmitAgain(c: Caller, timely: seq<bool>, n: nat, receiverAlive: bool, ghost start: Queue, ghost done: seq<Step>)
      returns (r: Result, ghost steps: seq<Step>)
      requires Answered(w, start, State(), c, timely, n, Busy) && n <= RETRIES && n < |timely|
      requires w.request(c).Work? && w.request(c).background && receiverAlive == !worker.Stopped?
      requires Leads(w, start, done, State())
      modifies this`admission, this`stats, this`closed, this`channel, this`clients, this`closer, this`admitted
      ensures Answered(w, start, State(), c, timely, n + 1, r) && Leads(w, start, steps, State())
    {
      hide Can;
      hide Do;
      hide Leads;
      hide AdmissionSteps;
      hide Answered;
      hide Admission;
      ghost var before := State();
      AnsweredMeans(w, start, before, c, timely, n, Busy);
      EndPause(c);
      ghost var awake := State();
      StepSees(w, before, c, Wake, awake);
      LeadsNext(w, start, done, before, Client(c, Wake), awake);
      r := AdmitOnce(c, timely[n], receiverAlive);
      steps := done + [Client(c, Wake)] + AdmissionSteps(c, timely[n], r, true);
      LeadsOn(w, start, done + [Client(c, Wake)], awake, AdmissionSteps(c, timely[n], r, true), State());
      SameAnswer(w, before, awake, timely[n]);
      AnsweredAgain(w, start, before, State(), c, timely, n, r);
    }

    /** The first attempt of a call. */
    method AdmitFirst(c: Caller, timely: seq<bool>, receiverAlive: bool) returns (r: Result, ghost steps: seq<Step>)
      requires Pc(State(), c).NotStarted? && w.request(c).Work? && receiverAlive == !worker.Stopped?
      requires admission == None && timely != []
      modifies this`admission, this`stats, this`closed, this`channel, this`clients, this`closer, this`admitted
      ensures Answered(w, old(State()), State(), c, timely, 1, r) && Leads(w, old(State()), steps, State())
    {
      hide Can;
      hide Do;
      hide Leads;
      hide AdmissionSteps;
      ghost var before := State();
      BeginCall(c);
      ghost var started := State();
      StepSees(w, before, c, Start, started);
      LeadsOne(w, before, Client(c, Start), started);
      r := AdmitOnce(c, timely[0], receiverAlive);
      steps := [Client(c, Start)] + AdmissionSteps(c, timely[0], r, true);
      LeadsOn(w, before, [Client(c, Start)], started, AdmissionSteps(c, timely[0], r, true), State());
    }

    /** `admit`: one attempt, and for a background call as many more as there are retry delays, as
        long as the answer is `Busy`. `timely` says for each attempt whether the lock comes in time. */
    method Admit(c: Caller, timely: seq<bool>, receiverAlive: bool) returns (r: Result, attempts: nat, ghost steps: seq<Step>)
      requires Pc(State(), c).NotStarted? && w.request(c).Work? && receiverAlive == !worker.Stopped?
      requires admission == None && |timely| == RETRIES + 1
      modifies this`admission, this`stats, this`closed, this`channel, this`clients, this`closer, this`admitted
      ensures Leads(w, old(State()), steps, State())
      ensures 0 < attempts <= (if w.request(c).background then 4 else 1)
      ensures r == Admission(w, old(State()), timely[attempts - 1])
      ensures forall i :: 0 <= i < attempts - 1 ==> Admission(w, old(State()), timely[i]).Busy?
      ensures r.Busy? ==> attempts == if w.request(c).background then 4 else 1
      ensures channel == (if r.Ok? then old(channel) + [c] else old(channel)) && Pc(State(), c) == if r.Ok? then Awaiting else Done(r)
    {
      hide Can;
      hide Do;
      hide Leads;
      hide Answered;
      hide Admission;
      ghost var start := State();
      r, steps := AdmitFirst(c, timely, receiverAlive);
      attempts := 1;
      while r.Busy? && w.request(c).background && attempts <= RETRIES
        invariant 0 < attempts <= RETRIES + 1
        invariant Leads(w, start, steps, State()) && Answered(w, start, State(), c, timely, attempts, r)
        decreases RETRIES + 1 - attempts
      {
        r, steps := AdmitAgain(c, timely, attempts, receiverAlive, start, steps);
        attempts := attempts + 1;
      }
      AnsweredMeans(w, start, State(), c, timely, attempts, r);
    }

    /** `admit_control` for a flush or a close. A close has no deadline, so it is only described
        for a moment at which there is room in the channel or nobody left to read it. */
    method AdmitControl(c: Caller, closing: bool, timely: bool, receiverAlive: bool) returns (r: Result)
      requires Pc(State(), c).Waiting? && !w.request(c).Work? && closing == w.request(c).Close?
      requires receiverAlive == !worker.Stopped? && (timely ==> admission == None)
      requires closing ==> timely && (receiverAlive ==> |channel| < w.capacity)
      modifies this`admission, this`stats, this`closed, this`channel, this`clients, this`closer, this`admitted
      ensures r == Admission(w, old(State()), timely)
      ensures Leads(w, old(State()), AdmissionSteps(c, timely, r, false), State())
      ensures channel == (if r.Ok? then old(channel) + [c] else old(channel))
      ensures closing ==> closed
    {
      ghost var s0 := State();
      TimedLock(c, timely);
      ghost var s1 := State();
      hide Can;
      hide Do;
      hide Leads;
      hide Stepped;
      if !timely {
        TimedOut(w, s0, c, s1);
        return Busy;
      }
      LockTaken(w, s0, c, s1);
      var refused := CheckClosed(c, closing);
      ghost var s2 := State();
      FlagRead(w, s0, c, s1, s2);
      ghost var done := [Client(c, GetLock), Client(c, CheckFlag)];
      if refused {
        assert done + [] == done;
        return Closed;
      }
      r := ReserveAndSendControl(c, receiverAlive);
      hide AfterFlag;
      LeadsOn(w, s0, done, s2, AfterFlag(c, r, false), State());
    }

    method ReserveAndSendControl(c: Caller, receiverAlive: bool) returns (r: Result)
      requires Pc(State(), c).Reserving? && !w.request(c).Work? && receiverAlive == !worker.Stopped?
      requires w.request(c).Close? && receiverAlive ==> |channel| < w.capacity
      modifies this`admission, this`stats, this`channel, this`clients, this`admitted
      ensures r == (if !receiverAlive then WorkerStopped else if |old(channel)| < w.capacity then Ok else Busy)
      ensures Leads(w, old(State()), AfterFlag(c, r, false), State())
      ensures channel == if r.Ok? then old(channel) + [c] else old(channel)
    {
      ghost var s0 := State();
      r := ReserveSlot(c, receiverAlive);
      ghost var s1 := State();
      StepSees(w, s0, c, ReserveAct(r), s1);
      LeadsOne(w, s0, Client(c, ReserveAct(r)), s1);
      if r != Ok { return; }
      assert ClientCan(w, s1, c, Send);
      SendCommand(c);
      StepSees(w, s1, c, Send, State());
      hide Leads;
      LeadsTwo(w, s0, Client(c, Reserve), s1, Client(c, Send), State());
    }

    // ---------------------------------------------------------- the worker's loop

    /** `receiver.rx.recv()` on a channel that has a message, and the match on it. */
    method Receive() returns (c: Caller)
      requires worker.Idle? && channel != []
      modifies this`channel, this`worker, this`read
      ensures c == old(channel)[0] && channel == old(channel)[1..]
      ensures Stepped(w, old(State()), Worker(TakeNext), State())
    {
      c := channel[0];
      channel := channel[1..];
      read := read + 1;
      worker := if w.request(c).Work? then Taken(c) else Replying(c, true);
    }

    method DecrementDepth()
      requires worker.Taken?
      modifies this`stats, this`worker
      ensures Stepped(w, old(State()), Worker(Decrement), State())
    {
      stats := stats.(depth := stats.depth - 1);
      worker := Running(worker.caller);
    }

    method ExecuteJob(c: Caller) returns (ok: bool)
      requires worker == Running(c) && !Transactional(w, c)
      modifies this`store, this`log, this`worker
      ensures Stepped(w, old(State()), Worker(RunJob), State()) && worker == Recording(c, ok)
    {
      var ran := w.code(c, store);
      store, ok := ran.store, ran.ok;
      log := log + [Entry(c, if ok then JobDone else JobFailed)];
      worker := Recording(c, ok);
    }

    method BeginTransaction(c: Caller, ok: bool)
      requires worker == Running(c) && Transactional(w, c)
      modifies this`log, this`worker
      ensures Stepped(w, old(State()), Worker(Begin(ok)), State())
    {
      if !ok { log := log + [Entry(c, NotBegun)]; }
      worker := if ok then InTransaction(c) else Recording(c, false);
    }

    /** Runs the body; when it fails the transaction is rolled back. */
    method RunTransactionBody(c: Caller) returns (ran: Ran)
      requires worker == InTransaction(c)
      modifies this`log, this`worker
      ensures Stepped(w, old(State()), Worker(RunBody), State())
      ensures ran == w.code(c, old(store)) && worker == if ran.ok then Committing(c, ran) else Recording(c, false)
    {
      ran := w.code(c, store);
      if !ran.ok { log := log + [Entry(c, RolledBack)]; }
      worker := if ran.ok then Committing(c, ran) else Recording(c, false);
    }

    method CommitTransaction(c: Caller, ran: Ran, ok: bool)
      requires worker == Committing(c, ran)
      modifies this`store, this`log, this`worker
      ensures Stepped(w, old(State()), Worker(Commit(ok)), State())
    {
      if ok {
        store := ran.store;
        log := log + [Entry(c, Committed)];
        worker := Callbacks(c, ran.callbacks);
      } else {
        log := log + [Entry(c, CommitFailed)];
        worker := Recording(c, false);
      }
    }

    method RunCallbackAt(c: Caller, callbacks: seq<Callback>, i: nat)
      requires i < |callbacks| && worker == Callbacks(c, callbacks[i..])
      modifies this`fired, this`worker
      ensures Stepped(w, old(State()), Worker(RunCallback), State())
      ensures fired == old(fired) + [(c, callbacks[i])] && worker == Callbacks(c, callbacks[i + 1..])
    {
      fired := fired + [(c, callbacks[i])];
      assert callbacks[i..][1..] == callbacks[i + 1..];
      worker := Callbacks(c, callbacks[i + 1..]);
    }

    /** Every callback, in order of registration; one that panics is caught and the rest still run. */
    method RunAfterCommit(c: Caller, callbacks: seq<Callback>) returns (ghost steps: seq<Step>)
      requires worker == Callbacks(c, callbacks)
      modifies this`fired, this`worker
      ensures Leads(w, old(State()), steps, State()) && worker == Recording(c, true)
      ensures fired == old(fired) + Tagged(c, callbacks)
    {
      steps := [];
      ghost var s0 := State();
      var i := 0;
      while i < |callbacks|
        invariant 0 <= i <= |callbacks| && worker == Callbacks(c, callbacks[i..])
        invariant Leads(w, s0, steps, State())
        invariant fired == old(fired) + Tagged(c, callbacks[..i])
      {
        ghost var before := State();
        RunCallbackAt(c, callbacks, i);
        assert Tagged(c, callbacks[..i + 1]) == Tagged(c, callbacks[..i]) + [(c, callbacks[i])];
        LeadsNext(w, s0, steps, before, Worker(RunCallback), State());
        steps := steps + [Worker(RunCallback)];
        i := i + 1;
      }
      ghost var before := State();
      worker := Recording(c, true);
      assert callbacks[..|callbacks|] == callbacks;
      LeadsNext(w, s0, steps, before, Worker(CallbacksDone), State());
      steps := steps + [Worker(CallbacksDone)];
    }

    method RecordResult(c: Caller, ok: bool)
      requires worker == Recording(c, ok)
      modifies this`stats, this`worker
      ensures Stepped(w, old(State()), Worker(Record), State()) && worker == Replying(c, ok)
    {
      if ok { stats := stats.(completed := stats.completed + 1); } else { stats := stats.(failed := stats.failed + 1); }
      worker := Replying(c, ok);
    }

    method SendReply(c: Caller, ok: bool)
      requires worker == Replying(c, ok)
      modifies this`replies, this`worker
      ensures Stepped(w, old(State()), Worker(Reply), State())
      ensures worker == if w.request(c).Close? then Exiting else Idle
    {
      replies := replies[c := ok];
      worker := if w.request(c).Close? then Exiting else Idle;
    }

    method ExecuteTransaction(c: Caller, begins: bool, commits: bool) returns (ok: bool, ghost steps: seq<Step>)
      requires worker == Running(c) && Transactional(w, c)
      modifies this`store, this`log, this`worker, this`fired
      ensures Leads(w, old(State()), steps, State()) && worker == Recording(c, ok)
      ensures ok == (begins && w.code(c, old(store)).ok && commits)
      ensures store == if ok then w.code(c, old(store)).store else old(store)
    {
      ghost var s0 := State();
      BeginTransaction(c, begins);
      ghost var s1 := State();
      LeadsOne(w, s0, Worker(Begin(begins)), s1);
      hide Leads;
      if !begins {
        return false, [Worker(Begin(begins))];
      }
      var ran := RunTransactionBody(c);
      ghost var s2 := State();
      LeadsTwo(w, s0, Worker(Begin(begins)), s1, Worker(RunBody), s2);
      if !ran.ok {
        return false, [Worker(Begin(begins)), Worker(RunBody)];
      }
      CommitTransaction(c, ran, commits);
      ghost var s3 := State();
      steps := [Worker(Begin(begins)), Worker(RunBody), Worker(Commit(commits))];
      LeadsThree(w, s0, Worker(Begin(begins)), s1, Worker(RunBody), s2, Worker(Commit(commits)), s3);
      hide Can;
      if commits {
        ghost var more := RunAfterCommit(c, ran.callbacks);
        LeadsOn(w, s0, steps, s3, more, State());
        steps := steps + more;
      }
      ok := commits;
    }

    method HandleCommand(begins: Caller -> bool, commits: Caller -> bool) returns (c: Caller, ghost steps: seq<Step>)
      requires worker.Idle? && channel != []
      modifies this
      ensures c == old(channel)[0] && channel == old(channel)[1..]
      ensures Leads(w, old(State()), steps, State()) && worker == if w.request(c).Close? then Exiting else Idle
    {
      ghost var s0 := State();
      c := Receive();
      ghost var s1 := State();
      LeadsOne(w, s0, Worker(TakeNext), s1);
      steps := [Worker(TakeNext)];
      hide Leads;
      var ok := true;
      if w.request(c).Work? {
        ok, steps := HandleWork(c, begins(c), commits(c), s0, steps);
      }
      ghost var s2 := State();
      SendReply(c, ok);
      LeadsNext(w, s0, steps, s2, Worker(Reply), State());
      steps := steps + [Worker(Reply)];
    }

    method HandleWork(c: Caller, begins: bool, commits: bool, ghost start: Queue, ghost done: seq<Step>) returns (ok: bool, ghost steps: seq<Step>)
      requires worker == Taken(c) && w.request(c).Work? && Leads(w, start, done, State())
      modifies this`store, this`stats, this`log, this`worker, this`fired
      ensures Leads(w, start, steps, State()) && worker == Replying(c, ok)
    {
      hide Leads;
      ghost var s1 := State();
      DecrementDepth();
      ghost var s2 := State();
      LeadsNext(w, start, done, s1, Worker(Decrement), s2);
      steps := done + [Worker(Decrement)];
      if w.request(c).transactional {
        ghost var more;
        ok, more := ExecuteTransaction(c, begins, commits);
        LeadsOn(w, start, steps, s2, more, State());
        steps := steps + more;
      } else {
        ok := ExecuteJob(c);
        LeadsNext(w, start, steps, s2, Worker(RunJob), State());
        steps := steps + [Worker(RunJob)];
      }
      ghost var s3 := State();
      RecordResult(c, ok);
      LeadsNext(w, start, steps, s3, Worker(Record), State());
      steps := steps + [Worker(Record)];
    }

    /** `return Ok(())`: the receiver is dropped. */
    method Return()
      requires worker.Exiting?
      modifies this`worker
      ensures Stepped(w, old(State()), Worker(Exit), State()) && worker.Stopped?
    {
      worker := WorkerPc.Stopped;
    }

    /** The loop of `run_write_worker` on what is in the channel: it ends at the first close, whose
        reply is its last act, or when there is nothing left to receive. */
    method RunWriteWorker(begins: Caller -> bool, commits: Caller -> bool) returns (ghost steps: seq<Step>, ghost taken: nat)
      requires worker.Idle?
      modifies this
      ensures Leads(w, old(State()), steps, State())
      ensures taken <= |old(channel)| && channel == old(channel)[taken..]
      ensures forall i :: 0 <= i < taken - 1 ==> !w.request(old(channel)[i]).Close?
      ensures if taken > 0 && w.request(old(channel)[taken - 1]).Close? then worker.Stopped? else worker.Idle? && channel == []
    {
      hide Can;
      hide Do;
      hide Leads;
      hide Took;
      ghost var s0 := State();
      steps, taken := [], 0;
      LeadsNowhere(w, s0);
      TookNothing(w, channel);
      var running := true;
      while running && channel != []
        invariant Leads(w, s0, steps, State()) && Took(w, s0.channel, channel, taken, running)
        invariant worker == if running then Idle else Exiting
        decreases |channel|
      {
        ghost var s1 := State();
        ghost var more;
        var c;
        TookMeans(w, s0.channel, channel, taken, running);
        c, more := HandleCommand(begins, commits);
        LeadsOn(w, s0, steps, s1, more, State());
        TookOne(w, s0.channel, s1.channel, taken, c);
        steps, taken := steps + more, taken + 1;
        running := !w.request(c).Close?;
      }
      TookMeans(w, s0.channel, channel, taken, running);
      if !running {
        ghost var s2 := State();
        Return();
        LeadsNext(w, s0, steps, s2, Worker(Exit), State());
        steps := steps + [Worker(Exit)];
      }
    }
  }

  // ------------------------------------------- the code inherits what holds of runs

  lemma {:induction false} LeadsKeepsInv(w: World, s: Queue, steps: seq<Step>, s': Queue)
    requires H.QueueInv(w, s) && Leads(w, s, steps, s')
    ensures H.QueueInv(w, s')
    decreases |steps|
  {
    hide H.QueueInv;
    hide Do;
    hide Can;
    if steps != [] {
      H.QueueStep(w, s, steps[0]);
      LeadsKeepsInv(w, Do(w, s, steps[0]), steps[1..], s');
    }
  }

  /** Whatever mixture of the methods above, by whatever callers, has been executed on a fresh
      queue, its database is the replay of its log and its counters add up. */
  lemma CodeIsSerial(w: World, s: Queue, steps: seq<Step>, s': Queue)
    requires Init(w, s) && Leads(w, s, steps, s')
    ensures s'.store == Replay(w, s'.log) && Callers(s'.log) <= Works(w, s'.admitted) && s'.fired <= CallbacksDue(w, s'.log)
    ensures s'.stats.depth >= 0
    ensures s'.stats.accepted == s'.stats.completed + s'.stats.failed + s'.stats.depth
      + (if G.InFlight(s') then 1 else 0) + (if G.Admitting(s') then 1 else 0)
  {
    H.InitInv(w, s);
    LeadsKeepsInv(w, s, steps, s');
    G.AddUp(w, s');
    G.QueueParts(w, s');
    H.HistoryParts(w, s');
    I.FrontParts(w, s');
    G.LogIsPrefix(w, s');
    G.StoreIs(w, s');
    assert s'.fired <= CallbacksDue(w, s'.log) by { hide Leads; hide H.QueueInv; hide H.HistoryInv; hide I.FrontInv; }
  }
}
