/** What every step of the queue keeps, group by group. */
module WriteQueueInvariants {
  import opened Options
  import opened WriteQueue

  // ------------------------------------------------------------------ front end

  ghost predicate LockInv(s: Queue) {
    forall c: Caller :: Pc(s, c).Holds() <==> s.lock == Some(c)
  }

  /** Whoever is past the flag either raised it or still finds it down: both happen under the lock. */
  ghost predicate FlagInv(w: World, s: Queue) {
    && s.closed == s.closer.Some?
    && (s.closer.Some? ==> w.request(s.closer.value).Close?)
    && forall c: Caller :: Pc(s, c).PastFlag() ==> if w.request(c).Close? then s.closer == Some(c) else !s.closed
  }

  ghost predicate KindInv(w: World, s: Queue) {
    forall c: Caller :: Pc(s, c).Counted? || Pc(s, c).Deep? ==> w.request(c).Work?
  }

  ghost predicate SentInv(s: Queue) {
    && (forall c :: c in s.admitted ==> Pc(s, c).MayHaveSent())
    && (forall i, j :: 0 <= i < j < |s.admitted| ==> s.admitted[i] != s.admitted[j])
  }

  /** A close is the last message there is. */
  ghost predicate LastInv(w: World, s: Queue) {
    forall i :: 0 <= i < |s.admitted| && w.request(s.admitted[i]).Close? ==> i == |s.admitted| - 1 && s.closer == Some(s.admitted[i])
  }

  ghost predicate ChannelInv(w: World, s: Queue) {
    && s.read <= |s.admitted| && s.channel == s.admitted[s.read..]
    && |s.channel| + (if s.lock.Some? && Pc(s, s.lock.value).HasPermit() then 1 else 0) <= w.capacity
  }

  lemma LockStep(w: World, s: Queue, c: Caller, act: ClientAct)
    requires LockInv(s) && ClientCan(w, s, c, act)
    ensures LockInv(ClientDo(w, s, c, act))
  {
    var s' := ClientDo(w, s, c, act);
    forall d: Caller ensures Pc(s', d).Holds() <==> s'.lock == Some(d) {
      assert d != c ==> Pc(s', d) == Pc(s, d);
    }
  }

  lemma FlagStep(w: World, s: Queue, c: Caller, act: ClientAct)
    requires LockInv(s) && FlagInv(w, s) && ClientCan(w, s, c, act)
    ensures FlagInv(w, ClientDo(w, s, c, act))
  {
    var s' := ClientDo(w, s, c, act);
    forall d: Caller | Pc(s', d).PastFlag()
      ensures if w.request(d).Close? then s'.closer == Some(d) else !s'.closed
    {
      if d != c {
        assert Pc(s', d) == Pc(s, d) && s.lock == Some(d);
        assert !Pc(s, c).Holds();
      }
    }
  }

  lemma KindStep(w: World, s: Queue, c: Caller, act: ClientAct)
    requires KindInv(w, s) && ClientCan(w, s, c, act)
    ensures KindInv(w, ClientDo(w, s, c, act))
  {
    var s' := ClientDo(w, s, c, act);
    forall d: Caller | Pc(s', d).Counted? || Pc(s', d).Deep? ensures w.request(d).Work? {
      assert d != c ==> Pc(s', d) == Pc(s, d);
    }
  }

  lemma PcStep(w: World, s: Queue, c: Caller, act: ClientAct, d: Caller)
    requires ClientCan(w, s, c, act)
    ensures var s' := ClientDo(w, s, c, act);
      && (d != c ==> Pc(s', d) == Pc(s, d))
      && (Pc(s, d).MayHaveSent() ==> Pc(s', d).MayHaveSent())
      && (s'.admitted == if act.Send? then s.admitted + [c] else s.admitted)
      && (act.Send? ==> Pc(s, c).PastFlag() && Pc(s', c).Awaiting? && s'.closer == s.closer && s'.closed == s.closed)
      && (act.Send? ==> s'.channel == s.channel + [c] && s'.read == s.read)
  {
  }

  lemma SentStep(w: World, s: Queue, c: Caller, act: ClientAct)
    requires SentInv(s) && ClientCan(w, s, c, act)
    ensures SentInv(ClientDo(w, s, c, act))
  {
    var s' := ClientDo(w, s, c, act);
    PcStep(w, s, c, act, c);
    hide ClientDo;
    hide ClientCan;
    forall d | d in s'.admitted ensures Pc(s', d).MayHaveSent() {
      PcStep(w, s, c, act, d);
    }
  }

  lemma CloserStays(w: World, s: Queue, c: Caller, act: ClientAct)
    requires FlagInv(w, s) && ClientCan(w, s, c, act)
    ensures s.closer.Some? ==> ClientDo(w, s, c, act).closer == s.closer
  {
  }

  lemma LastStep(w: World, s: Queue, c: Caller, act: ClientAct)
    requires FlagInv(w, s) && SentInv(s) && LastInv(w, s) && ClientCan(w, s, c, act)
    ensures LastInv(w, ClientDo(w, s, c, act))
  {
    var s' := ClientDo(w, s, c, act);
    PcStep(w, s, c, act, c);
    CloserStays(w, s, c, act);
    hide ClientDo;
    hide ClientCan;
    if act.Send? {
      forall i | 0 <= i < |s.admitted| ensures !w.request(s.admitted[i]).Close? {
        assert s.admitted[i] in s.admitted;
      }
    }
  }

  lemma ChannelStep(w: World, s: Queue, c: Caller, act: ClientAct)
    requires LockInv(s) && ChannelInv(w, s) && ClientCan(w, s, c, act)
    ensures ChannelInv(w, ClientDo(w, s, c, act))
  {
    if s.lock.Some? && s.lock.value != c { assert !Pc(s, c).Holds(); }
    assert Pc(s, c).Holds() <==> s.lock == Some(c);
    if act.Send? { assert (s.admitted + [c])[s.read..] == s.admitted[s.read..] + [c]; }
    var s' := ClientDo(w, s, c, act);
    assert s'.lock.Some? && s'.lock.value != c ==> Pc(s', s'.lock.value) == Pc(s, s'.lock.value);
  }

  ghost predicate FrontInv(w: World, s: Queue) {
    LockInv(s) && FlagInv(w, s) && KindInv(w, s) && SentInv(s) && LastInv(w, s) && ChannelInv(w, s)
  }

  lemma FrontClientStep(w: World, s: Queue, c: Caller, act: ClientAct)
    requires FrontInv(w, s) && ClientCan(w, s, c, act)
    ensures FrontInv(w, ClientDo(w, s, c, act))
  {
    hide *;
    hide ClientDo;
    assert LockInv(s) && FlagInv(w, s) && KindInv(w, s) && SentInv(s) && LastInv(w, s) && ChannelInv(w, s) by { FrontParts(w, s); }
    LockStep(w, s, c, act);
    FlagStep(w, s, c, act);
    KindStep(w, s, c, act);
    SentStep(w, s, c, act);
    LastStep(w, s, c, act);
    ChannelStep(w, s, c, act);
    FrontWhole(w, ClientDo(w, s, c, act));
  }

  lemma FrontParts(w: World, s: Queue)
    requires FrontInv(w, s)
    ensures LockInv(s) && FlagInv(w, s) && KindInv(w, s) && SentInv(s) && LastInv(w, s) && ChannelInv(w, s)
  {
  }

  lemma FrontWhole(w: World, s: Queue)
    requires LockInv(s) && FlagInv(w, s) && KindInv(w, s) && SentInv(s) && LastInv(w, s) && ChannelInv(w, s)
    ensures FrontInv(w, s)
  {
  }

  lemma WorkerLeavesFront(w: World, s: Queue, act: WorkerAct)
    requires WorkerCan(w, s, act)
    ensures var s' := WorkerDo(w, s, act);
      && s'.clients == s.clients && s'.lock == s.lock && s'.closed == s.closed && s'.closer == s.closer && s'.admitted == s.admitted
      && (if act.TakeNext? then s'.channel == s.channel[1..] && s'.read == s.read + 1 else s'.channel == s.channel && s'.read == s.read)
  {
    WorkerLeavesCallers(w, s, act);
    WorkerReads(w, s, act);
    hide *;
  }

  lemma WorkerLeavesCallers(w: World, s: Queue, act: WorkerAct)
    requires WorkerCan(w, s, act)
    ensures var s' := WorkerDo(w, s, act);
      s'.clients == s.clients && s'.lock == s.lock && s'.closed == s.closed && s'.closer == s.closer && s'.admitted == s.admitted
  {
    hide After;
    match act {
      case Connect(_) => {}
      case TakeNext => {}
      case Decrement => {}
      case RunJob => {}
      case Begin(_) => {}
      case RunBody => {}
      case Commit(_) => {}
      case RunCallback => {}
      case CallbacksDone => {}
      case Record => {}
      case Reply => {}
      case Exit => {}
      case Panic => {}
    }
  }

  lemma WorkerReads(w: World, s: Queue, act: WorkerAct)
    requires WorkerCan(w, s, act)
    ensures var s' := WorkerDo(w, s, act);
      if act.TakeNext? then s.channel != [] && s'.channel == s.channel[1..] && s'.read == s.read + 1
      else s'.channel == s.channel && s'.read == s.read
  {
    hide After;
    match act {
      case Connect(_) => {}
      case TakeNext => {}
      case Decrement => {}
      case RunJob => {}
      case Begin(_) => {}
      case RunBody => {}
      case Commit(_) => {}
      case RunCallback => {}
      case CallbacksDone => {}
      case Record => {}
      case Reply => {}
      case Exit => {}
      case Panic => {}
    }
  }

  lemma FrontWorkerStep(w: World, s: Queue, act: WorkerAct)
    requires FrontInv(w, s) && WorkerCan(w, s, act)
    ensures FrontInv(w, WorkerDo(w, s, act))
  {
    WorkerLeavesFront(w, s, act);
    var s' := WorkerDo(w, s, act);
    hide WorkerDo;
    assert forall c: Caller :: Pc(s', c) == Pc(s, c);
  }
}
