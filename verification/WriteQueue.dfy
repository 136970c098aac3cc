/**
 The single-writer queue under every interleaving of its callers and its worker. A caller is
 one call into the queue; its steps are the points between which other threads may run. The
 counters, the channel, the admission lock and the closed flag are the queue's; the last group
 of fields is history that no step looks at.
 */
module WriteQueue {
  import opened Options

  type Caller = nat
  type Callback = nat

  /** The contents of the database. */
  type Store(==)

  datatype Request = Work(transactional: bool, background: bool) | Flush | Close

  /** What the code of a call does when run on a store: the store it leaves, whether it returned
      `Ok`, and the callbacks it registered. */
  datatype Ran = Ran(store: Store, ok: bool, callbacks: seq<Callback>)

  datatype World = World(
    request: Caller -> Request,
    code: (Caller, Store) -> Ran,
    capacity: nat,
    initial: Store)

  const RETRIES: nat := 3

  // ------------------------------------------------------------ what was executed

  datatype Fate = Committed | NotBegun | RolledBack | CommitFailed | JobDone | JobFailed | Panicked {
    predicate Good() { Committed? || JobDone? }
  }

  datatype Entry = Entry(caller: Caller, fate: Fate)

  predicate Transactional(w: World, c: Caller) { w.request(c).Work? && w.request(c).transactional }

  /** A transaction takes effect when it committed; a plain job leaves whatever it did. */
  function After(w: World, e: Entry, store: Store): Store {
    if e.fate.Committed? || !Transactional(w, e.caller) then w.code(e.caller, store).store else store
  }

  function Replay(w: World, log: seq<Entry>): Store {
    if log == [] then w.initial else After(w, log[|log| - 1], Replay(w, log[..|log| - 1]))
  }

  function Tagged(c: Caller, callbacks: seq<Callback>): (r: seq<(Caller, Callback)>)
    ensures |r| == |callbacks|
  {
    seq(|callbacks|, i requires 0 <= i < |callbacks| => (c, callbacks[i]))
  }

  /** The callbacks a log calls for: those of its committed transactions, in order. */
  function CallbacksDue(w: World, log: seq<Entry>): seq<(Caller, Callback)> {
    if log == [] then [] else
    var last, before := log[|log| - 1], log[..|log| - 1];
    CallbacksDue(w, before)
    + (if last.fate.Committed? then Tagged(last.caller, w.code(last.caller, Replay(w, before)).callbacks) else [])
  }

  function Callers(log: seq<Entry>): (r: seq<Caller>)
    ensures |r| == |log| && forall i :: 0 <= i < |log| ==> r[i] == log[i].caller
  {
    seq(|log|, i requires 0 <= i < |log| => log[i].caller)
  }

  function GoodCount(log: seq<Entry>): nat {
    if log == [] then 0 else GoodCount(log[..|log| - 1]) + (if log[|log| - 1].fate.Good() then 1 else 0)
  }

  /** The calls that carry work, in order. */
  function Works(w: World, calls: seq<Caller>): seq<Caller> {
    if calls == [] then [] else
    Works(w, calls[..|calls| - 1]) + (if w.request(calls[|calls| - 1]).Work? then [calls[|calls| - 1]] else [])
  }

  // ----------------------------------------------------------------- the machine

  datatype Result = Ok | JobError | Busy | Closed | WorkerStopped | Cancelled

  datatype ClientPc =
    | NotStarted
    | Waiting(left: nat)      // for the admission lock
    | Locked(left: nat)
    | Reserving(left: nat)    // has seen the flag, waits for a slot
    | Permitted
    | Counted
    | Deep
    | Sleeping(left: nat)
    | Awaiting
    | Done(result: Result)
  {
    predicate Holds() { Locked? || Reserving? || Permitted? || Counted? || Deep? }
    predicate PastFlag() { Reserving? || Permitted? || Counted? || Deep? }
    predicate HasPermit() { Permitted? || Counted? || Deep? }
    predicate MayHaveSent() { Awaiting? || (Done? && result != Busy && result != Closed) }
  }

  datatype WorkerPc =
    | Connecting
    | Idle
    | Taken(caller: Caller)
    | Running(caller: Caller)
    | InTransaction(caller: Caller)
    | Committing(caller: Caller, ran: Ran)
    | Callbacks(caller: Caller, due: seq<Callback>)
    | Recording(caller: Caller, ok: bool)
    | Replying(caller: Caller, ok: bool)
    | Exiting
    | Stopped
  {
    predicate InHand() { Taken? || Running? || InTransaction? || Committing? }
    predicate Unrecorded() { Callbacks? || Recording? }
  }

  datatype Counters = Counters(depth: int, accepted: nat, completed: nat, failed: nat, busy: nat, closed: nat)

  datatype Queue = Queue(
    store: Store, lock: Option<Caller>, closed: bool, channel: seq<Caller>, stats: Counters,
    clients: map<Caller, ClientPc>, worker: WorkerPc, replies: map<Caller, bool>,
    // history
    closer: Option<Caller>, admitted: seq<Caller>, read: nat, log: seq<Entry>,
    fired: seq<(Caller, Callback)>, lost: bool)

  function Pc(s: Queue, c: Caller): ClientPc { if c in s.clients then s.clients[c] else NotStarted }

  function Moved(s: Queue, c: Caller, pc: ClientPc): Queue { s.(clients := s.clients[c := pc]) }

  ghost predicate Init(w: World, s: Queue) {
    && s.store == w.initial && s.lock == None && !s.closed && s.channel == [] && s.stats == Counters(0, 0, 0, 0, 0, 0)
    && s.clients == map[] && s.worker == Connecting && s.replies == map[]
    && s.closer == None && s.admitted == [] && s.read == 0 && s.log == [] && s.fired == [] && !s.lost
  }

  datatype ClientAct =
    | Start | GetLock | LockTimeout | CheckFlag | Reserve | ReserveTimeout | ReserveFails
    | CountAccepted | CountDepth | Send | Wake | GetReply | Cancel

  predicate ClientCan(w: World, s: Queue, c: Caller, act: ClientAct) {
    var pc, request := Pc(s, c), w.request(c);
    match act
    case Start => pc.NotStarted?
    case GetLock => pc.Waiting? && s.lock == None
    case LockTimeout => pc.Waiting? && !request.Close?
    case CheckFlag => pc.Locked?
    case Reserve => pc.Reserving? && !s.worker.Stopped? && |s.channel| < w.capacity
    case ReserveTimeout => pc.Reserving? && !request.Close?
    case ReserveFails => pc.Reserving? && s.worker.Stopped?
    case CountAccepted => pc.Permitted? && request.Work?
    case CountDepth => pc.Counted?
    case Send => if request.Work? then pc.Deep? else pc.Permitted?
    case Wake => pc.Sleeping?
    case GetReply => pc.Awaiting? && (c in s.replies || s.worker.Stopped?)
    case Cancel => pc.Waiting? || pc.Reserving? || pc.Sleeping? || pc.Awaiting?
  }

  /** `Busy` ends a call, unless it has background retries left. */
  function AfterBusy(left: nat): ClientPc { if left > 0 then Sleeping(left - 1) else Done(Busy) }

  function ClientDo(w: World, s: Queue, c: Caller, act: ClientAct): Queue
    requires ClientCan(w, s, c, act)
  {
    var pc, request := Pc(s, c), w.request(c);
    match act
    case Start => Moved(s, c, Waiting(if request.Work? && request.background then RETRIES else 0))
    case GetLock => Moved(s, c, Locked(pc.left)).(lock := Some(c))
    case LockTimeout => Moved(s, c, AfterBusy(pc.left)).(stats := s.stats.(busy := s.stats.busy + 1))
    case CheckFlag =>
      if request.Close? then
        if s.closed then Moved(s, c, Done(Closed)).(lock := None)
        else Moved(s, c, Reserving(pc.left)).(closed := true, closer := Some(c))
      else if s.closed then Moved(s, c, Done(Closed)).(lock := None, stats := s.stats.(closed := s.stats.closed + 1))
      else Moved(s, c, Reserving(pc.left))
    case Reserve => Moved(s, c, Permitted)
    case ReserveTimeout => Moved(s, c, AfterBusy(pc.left)).(lock := None, stats := s.stats.(busy := s.stats.busy + 1))
    case ReserveFails => Moved(s, c, Done(WorkerStopped)).(lock := None)
    case CountAccepted => Moved(s, c, Counted).(stats := s.stats.(accepted := s.stats.accepted + 1))
    case CountDepth => Moved(s, c, Deep).(stats := s.stats.(depth := s.stats.depth + 1))
    case Send => Moved(s, c, Awaiting).(lock := None, channel := s.channel + [c], admitted := s.admitted + [c])
    case Wake => Moved(s, c, Waiting(pc.left))
    case GetReply =>
      Moved(s, c, Done(if c !in s.replies then WorkerStopped else if s.replies[c] then Ok else JobError))
    case Cancel =>
      // dropping the call also drops its lock guard; a command already sent stays in the channel
      Moved(s, c, Done(Cancelled)).(lock := if pc.Reserving? then None else s.lock)
  }

  datatype WorkerAct =
    | Connect(ok: bool) | TakeNext | Decrement | RunJob | Begin(ok: bool) | RunBody | Commit(ok: bool)
    | RunCallback | CallbacksDone | Record | Reply | Exit | Panic

  predicate WorkerCan(w: World, s: Queue, act: WorkerAct) {
    match act
    case Connect(_) => s.worker.Connecting?
    case TakeNext => s.worker.Idle? && s.channel != []
    case Decrement => s.worker.Taken?
    case RunJob => s.worker.Running? && !Transactional(w, s.worker.caller)
    case Begin(_) => s.worker.Running? && Transactional(w, s.worker.caller)
    case RunBody => s.worker.InTransaction?
    case Commit(_) => s.worker.Committing?
    case RunCallback => s.worker.Callbacks? && s.worker.due != []
    case CallbacksDone => s.worker.Callbacks? && s.worker.due == []
    case Record => s.worker.Recording?
    case Reply => s.worker.Replying?
    case Exit => s.worker.Exiting?
    case Panic => (s.worker.Running? && !Transactional(w, s.worker.caller)) || s.worker.InTransaction?
  }

  function Logged(s: Queue, c: Caller, fate: Fate): Queue { s.(log := s.log + [Entry(c, fate)]) }

  function WorkerDo(w: World, s: Queue, act: WorkerAct): Queue
    requires WorkerCan(w, s, act)
  {
    match act
    case Connect(ok) => s.(worker := if ok then Idle else Stopped)
    case TakeNext =>
      var c := s.channel[0];
      s.(channel := s.channel[1..], read := s.read + 1,
         worker := if w.request(c).Work? then Taken(c) else Replying(c, true))
    case Decrement => s.(worker := Running(s.worker.caller), stats := s.stats.(depth := s.stats.depth - 1))
    case RunJob =>
      var c, ran := s.worker.caller, w.code(s.worker.caller, s.store);
      Logged(s, c, if ran.ok then JobDone else JobFailed).(store := ran.store, worker := Recording(c, ran.ok))
    case Begin(ok) =>
      var c := s.worker.caller;
      if ok then s.(worker := InTransaction(c)) else Logged(s, c, NotBegun).(worker := Recording(c, false))
    case RunBody =>
      var c, ran := s.worker.caller, w.code(s.worker.caller, s.store);
      if ran.ok then s.(worker := Committing(c, ran)) else Logged(s, c, RolledBack).(worker := Recording(c, false))
    case Commit(ok) =>
      var c, ran := s.worker.caller, s.worker.ran;
      if ok then Logged(s, c, Committed).(store := ran.store, worker := Callbacks(c, ran.callbacks))
      else Logged(s, c, CommitFailed).(worker := Recording(c, false))
    case RunCallback =>
      var c, due := s.worker.caller, s.worker.due;
      s.(fired := s.fired + [(c, due[0])], worker := Callbacks(c, due[1..]))
    case CallbacksDone => s.(worker := Recording(s.worker.caller, true))
    case Record =>
      var c, ok := s.worker.caller, s.worker.ok;
      s.(worker := Replying(c, ok),
         stats := if ok then s.stats.(completed := s.stats.completed + 1) else s.stats.(failed := s.stats.failed + 1))
    case Reply =>
      var c := s.worker.caller;
      s.(replies := s.replies[c := s.worker.ok], worker := if w.request(c).Close? then Exiting else Idle)
    case Exit => s.(worker := Stopped)
    case Panic =>
      // a panicking body unwinds through the worker: the transaction is dropped, a job's writes stay
      var c := s.worker.caller;
      Logged(s, c, Panicked).(store := After(w, Entry(c, Panicked), s.store), worker := Stopped, lost := true)
  }

  datatype Step = Client(caller: Caller, act: ClientAct) | Worker(work: WorkerAct)

  predicate Can(w: World, s: Queue, step: Step) {
    match step
    case Client(c, act) => ClientCan(w, s, c, act)
    case Worker(act) => WorkerCan(w, s, act)
  }

  function Do(w: World, s: Queue, step: Step): Queue
    requires Can(w, s, step)
  {
    match step
    case Client(c, act) => ClientDo(w, s, c, act)
    case Worker(act) => WorkerDo(w, s, act)
  }

  ghost predicate IsRun(w: World, states: seq<Queue>, steps: seq<Step>) {
    && |states| == |steps| + 1 && Init(w, states[0])
    && forall i :: 0 <= i < |steps| ==> Can(w, states[i], steps[i]) && states[i + 1] == Do(w, states[i], steps[i])
  }
}
