/**
 The verdict of an enrollment under any interleaving of its device tasks, with each other and
 with the rest of the system: once every write lands and nobody retries one of its pushes,
 the status that finalization stores is what the devices answered.
 */
module EnrollmentVerdict {
  import opened EnrollmentTables
  import opened EnrollmentProtocol
  import R = EnrollmentRecovery

  /** Steps of a process in which every queued write commits, no task panics and nobody retries
      a push of enrollment `e`. Other enrollments go on as they like. */
  ghost predicate Calm(s: Sys, step: Step, e: EnrollmentId) {
    match step
    case Work(_, event) => event != Lose && event != Panicked
    case Retry(p, _) => p in s.db.pushes && s.db.pushes[p].enrollment != e
    case Enroll(_, _, _, _, _) => true
    case Finalize(_) => true
    case _ => false
  }

  /** The enrollment has just been committed and its commands handed over: every push is
      pending, never called, and owned by one queued attempt. */
  ghost predicate JustDispatched(s: Sys, e: EnrollmentId) {
    && e in s.db.enrollments
    && forall p :: p in PushesOf(s.db.pushes, e) ==>
         && s.db.pushes[p].status == Pending && CallsOf(s.calls, p) == []
         && exists i :: i in s.attempts && s.attempts[i].push == p && s.attempts[i].pc == Queued
  }

  ghost predicate Unfinished(attempts: map<nat, Attempt>, p: PushId) {
    exists i :: i in attempts && attempts[i].push == p && attempts[i].pc != Finished
  }

  ghost predicate Recording(attempts: map<nat, Attempt>, p: PushId) {
    exists i :: i in attempts && attempts[i].push == p && attempts[i].pc in {Confirmed, Checkpointed}
  }

  /** What holds of a push all along: it is terminal or somebody still works on it; it is a
      success only after the device accepted it, and an accepted one is a success or about to be. */
  ghost predicate Tracked(db: Db, attempts: map<nat, Attempt>, last: Outcome, p: PushId)
    requires p in db.pushes
  {
    && (db.pushes[p].status.Terminal() || Unfinished(attempts, p))
    && (forall i :: i in attempts && attempts[i].push == p ==> attempts[i].pc !in {CheckpointLost, MappingLost})
    && (db.pushes[p].status == Success ==> last == Applied && EnrollmentPush(p) !in db.checkpoints)
    && (last == Applied ==> db.pushes[p].status == Success || Recording(attempts, p))
  }

  ghost predicate AllTracked(s: Sys, e: EnrollmentId) {
    && e in s.db.enrollments && s.phase == Serving
    && forall p :: p in PushesOf(s.db.pushes, e) ==> Tracked(s.db, s.attempts, Last(CallsOf(s.calls, p)), p)
  }

  lemma DispatchedIsTracked(s: Sys, e: EnrollmentId)
    requires Inv(s) && JustDispatched(s, e) && s.phase == Serving
    ensures AllTracked(s, e)
  {
    hide Referential;
    hide Histories;
    hide Sealed;
    forall p | p in PushesOf(s.db.pushes, e) ensures Unfinished(s.attempts, p) {
      var i :| i in s.attempts && s.attempts[i].push == p && s.attempts[i].pc == Queued;
    }
  }

  /** The push an attempt works on. */
  lemma OwnStep(db: Db, a: Attempt, event: Event, calls: History)
    requires Advance(db, a, event).Some? && a.push in db.pushes
    requires event != Lose && event != Panicked && a.pc !in {CheckpointLost, MappingLost}
    requires Live(a.pc) ==> EnrollmentPush(a.push) in db.checkpoints && Matches(a.pc, Last(CallsOf(calls, a.push)))
    requires db.pushes[a.push].status == Success ==>
      Last(CallsOf(calls, a.push)) == Applied && EnrollmentPush(a.push) !in db.checkpoints
    ensures var (db', pc') := Advance(db, a, event).value;
      var last' := Last(CallsOf(NextHistory(calls, a, event), a.push));
      && a.push in db'.pushes && pc' !in {CheckpointLost, MappingLost}
      && (pc' == Finished ==> db'.pushes[a.push].status.Terminal())
      && (db'.pushes[a.push].status == Success ==> last' == Applied && EnrollmentPush(a.push) !in db'.checkpoints)
      && (Live(a.pc) && last' == Applied ==> db'.pushes[a.push].status == Success || pc' in {Confirmed, Checkpointed})
      && (!Live(a.pc) ==> last' == Last(CallsOf(calls, a.push)))
      && (!Live(a.pc) && db.pushes[a.push].status == Success ==> db'.pushes[a.push].status == Success)
      && (!Live(a.pc) && db.pushes[a.push].status.Terminal() ==> db'.pushes[a.push].status.Terminal())
  {
  }

  /** A push nobody touched in a step is as tracked as before. */
  lemma OthersStayTracked(db: Db, attempts: map<nat, Attempt>, last: Outcome, p: PushId, db': Db, attempts': map<nat, Attempt>)
    requires p in db.pushes && Tracked(db, attempts, last, p)
    requires p in db'.pushes && db'.pushes[p].status == db.pushes[p].status
    requires EnrollmentPush(p) in db'.checkpoints ==> EnrollmentPush(p) in db.checkpoints
    requires forall i :: i in attempts && attempts[i].push == p ==> i in attempts' && attempts'[i] == attempts[i]
    requires forall i :: i in attempts' && attempts'[i].push == p ==> i in attempts && attempts'[i] == attempts[i]
    ensures Tracked(db', attempts', last, p)
  {
  }

  lemma OwnStaysTracked(db: Db, attempts: map<nat, Attempt>, calls: History, i: nat, event: Event)
    requires i in attempts && attempts[i].push in db.pushes
    requires Ownership(db, attempts) && Histories(attempts, calls)
    requires Advance(db, attempts[i], event).Some? && event != Lose && event != Panicked
    requires Tracked(db, attempts, Last(CallsOf(calls, attempts[i].push)), attempts[i].push)
    ensures var a := attempts[i];
      var (db', pc') := Advance(db, a, event).value;
      && a.push in db'.pushes
      && Tracked(db', attempts[i := a.(pc := pc')], Last(CallsOf(NextHistory(calls, a, event), a.push)), a.push)
  {
    hide *;
    var a := attempts[i];
    OwnFacts(db, attempts, calls, i);
    OwnStep(db, a, event, calls);
    var (db', pc') := Advance(db, a, event).value;
    MovedStaysTracked(db, attempts, Last(CallsOf(calls, a.push)), i, db', pc', Last(CallsOf(NextHistory(calls, a, event), a.push)));
  }

  lemma OwnFacts(db: Db, attempts: map<nat, Attempt>, calls: History, i: nat)
    requires i in attempts && attempts[i].push in db.pushes
    requires Ownership(db, attempts) && Histories(attempts, calls)
    requires Tracked(db, attempts, Last(CallsOf(calls, attempts[i].push)), attempts[i].push)
    ensures var a := attempts[i];
      && a.pc !in {CheckpointLost, MappingLost}
      && (Live(a.pc) ==> EnrollmentPush(a.push) in db.checkpoints && Matches(a.pc, Last(CallsOf(calls, a.push))))
      && (db.pushes[a.push].status == Success ==>
            Last(CallsOf(calls, a.push)) == Applied && EnrollmentPush(a.push) !in db.checkpoints)
  {
    hide Live;
    hide Matches;
    hide CallsOf;
    hide Last;
    hide DeclinedBefore;
    hide Unfinished;
    hide Recording;
  }

  /** An attempt that moved on to `pc'` and left its push in `db'`. */
  lemma MovedStaysTracked(db: Db, attempts: map<nat, Attempt>, last: Outcome, i: nat, db': Db, pc': Pc, last': Outcome)
    requires i in attempts && attempts[i].push in db.pushes && Ownership(db, attempts)
    requires Tracked(db, attempts, last, attempts[i].push)
    requires var a := attempts[i];
      && a.push in db'.pushes && pc' !in {CheckpointLost, MappingLost}
      && (pc' == Finished ==> db'.pushes[a.push].status.Terminal())
      && (db'.pushes[a.push].status == Success ==> last' == Applied && EnrollmentPush(a.push) !in db'.checkpoints)
      && (Live(a.pc) && last' == Applied ==> db'.pushes[a.push].status == Success || pc' in {Confirmed, Checkpointed})
      && (!Live(a.pc) ==> last' == last)
      && (!Live(a.pc) && db.pushes[a.push].status == Success ==> db'.pushes[a.push].status == Success)
      && (!Live(a.pc) && db.pushes[a.push].status.Terminal() ==> db'.pushes[a.push].status.Terminal())
    ensures Tracked(db', attempts[i := attempts[i].(pc := pc')], last', attempts[i].push)
  {
    var a, after := attempts[i], attempts[i := attempts[i].(pc := pc')];
    assert after[i].pc == pc';
    if last' == Applied && db'.pushes[a.push].status != Success && !Live(a.pc) {
      assert Recording(attempts, a.push);
      var j :| j in attempts && attempts[j].push == a.push && attempts[j].pc in {Confirmed, Checkpointed};
      assert after[j] == attempts[j];
    }
  }

  /** What a step of an attempt leaves alone of another push. */
  lemma OtherPushUntouched(s: Sys, i: nat, event: Event, s': Sys, p: PushId)
    requires Inv(s) && Next(s, Work(i, event), s') && p in s'.db.pushes && p != s.attempts[i].push
    ensures p in s.db.pushes && s'.db.pushes[p] == s.db.pushes[p]
    ensures EnrollmentPush(p) in s'.db.checkpoints ==> EnrollmentPush(p) in s.db.checkpoints
    ensures CallsOf(s'.calls, p) == CallsOf(s.calls, p)
  {
    var a := s.attempts[i];
    AdvanceIsLocal(s.db, a, event);
    HistoryEffect(s.db, a, event, s.calls);
    hide Referential;
    hide Sealed;
    hide CallsOf;
    hide Last;
    hide NextHistory;
    hide Advance;
  }

  lemma OtherPushStaysTracked(s: Sys, i: nat, event: Event, s': Sys, e: EnrollmentId, p: PushId)
    requires Inv(s) && Next(s, Work(i, event), s') && AllTracked(s, e)
    requires p in PushesOf(s'.db.pushes, e) && p != s.attempts[i].push
    ensures Tracked(s'.db, s'.attempts, Last(CallsOf(s'.calls, p)), p)
  {
    OtherPushUntouched(s, i, event, s', p);
    hide Inv;
    hide CallsOf;
    hide Last;
    hide NextHistory;
    hide Advance;
    hide Tracked;
    assert p in PushesOf(s.db.pushes, e);
    OthersStayTracked(s.db, s.attempts, Last(CallsOf(s.calls, p)), p, s'.db, s'.attempts);
  }

  lemma OwnPushStaysTracked(s: Sys, i: nat, event: Event, s': Sys, e: EnrollmentId)
    requires Inv(s) && Next(s, Work(i, event), s') && event != Lose && event != Panicked && AllTracked(s, e)
    requires s.attempts[i].push in PushesOf(s'.db.pushes, e)
    ensures var p := s.attempts[i].push; Tracked(s'.db, s'.attempts, Last(CallsOf(s'.calls, p)), p)
  {
    var a := s.attempts[i];
    AdvanceIsLocal(s.db, a, event);
    hide Referential;
    hide Sealed;
    hide CallsOf;
    hide Last;
    hide Histories;
    hide NextHistory;
    hide Advance;
    assert a.push in PushesOf(s.db.pushes, e);
    OwnStaysTracked(s.db, s.attempts, s.calls, i, event);
  }

  lemma WorkStaysTracked(s: Sys, i: nat, event: Event, s': Sys, e: EnrollmentId)
    requires Inv(s) && Next(s, Work(i, event), s') && event != Lose && event != Panicked && AllTracked(s, e)
    ensures AllTracked(s', e)
  {
    forall p | p in PushesOf(s'.db.pushes, e) ensures Tracked(s'.db, s'.attempts, Last(CallsOf(s'.calls, p)), p) {
      if p == s.attempts[i].push {
        OwnPushStaysTracked(s, i, event, s', e);
      } else {
        OtherPushStaysTracked(s, i, event, s', e, p);
      }
    }
    AdvanceIsLocal(s.db, s.attempts[i], event);
    hide Advance;
    hide Tracked;
    hide Inv;
  }

  /** What the other steps leave alone of a push of enrollment `e`. */
  lemma HandOverLeaves(s: Sys, step: Step, s': Sys, e: EnrollmentId, p: PushId)
    requires Inv(s) && Next(s, step, s') && Calm(s, step, e) && !step.Work? && AllTracked(s, e)
    requires p in PushesOf(s'.db.pushes, e)
    ensures p in PushesOf(s.db.pushes, e) && s'.db.pushes[p].status == s.db.pushes[p].status && s'.calls == s.calls
    ensures EnrollmentPush(p) in s'.db.checkpoints ==> EnrollmentPush(p) in s.db.checkpoints
    ensures forall i :: i in s.attempts && s.attempts[i].push == p ==> i in s'.attempts && s'.attempts[i] == s.attempts[i]
    ensures forall i :: i in s'.attempts && s'.attempts[i].push == p ==> i in s.attempts && s'.attempts[i] == s.attempts[i]
  {
    hide Ownership;
    hide Referential;
    hide Sealed;
    hide PhaseInv;
    hide Histories;
    hide Settled;
    hide VerdictOf;
    hide ReadFrom;
    hide Tracked;
    match step
    case Enroll(_, _, _, _, _) =>
    case Retry(_, _) =>
    case Finalize(_) =>
    case _ =>
  }

  lemma HandOverStaysTracked(s: Sys, step: Step, s': Sys, e: EnrollmentId)
    requires Inv(s) && Next(s, step, s') && Calm(s, step, e) && !step.Work? && AllTracked(s, e)
    ensures AllTracked(s', e)
  {
    hide *;
    HandOverServes(s, step, s', e);
    forall p | p in PushesOf(s'.db.pushes, e)
      ensures p in s'.db.pushes && Tracked(s'.db, s'.attempts, Last(CallsOf(s'.calls, p)), p)
    {
      InEnrollment(s'.db.pushes, e, p);
      HandOverLeaves(s, step, s', e, p);
      InEnrollment(s.db.pushes, e, p);
      TrackedOf(s, e, p);
      OthersStayTracked(s.db, s.attempts, Last(CallsOf(s.calls, p)), p, s'.db, s'.attempts);
    }
    AllTrackedIs(s', e);
  }

  lemma InEnrollment(pushes: Pushes, e: EnrollmentId, p: PushId)
    requires p in PushesOf(pushes, e)
    ensures p in pushes && pushes[p].enrollment == e
  {
  }

  lemma TrackedOf(s: Sys, e: EnrollmentId, p: PushId)
    requires AllTracked(s, e) && p in PushesOf(s.db.pushes, e)
    ensures p in s.db.pushes && Tracked(s.db, s.attempts, Last(CallsOf(s.calls, p)), p)
  {
    hide Tracked;
    hide CallsOf;
    hide Last;
  }

  lemma AllTrackedIs(s: Sys, e: EnrollmentId)
    requires e in s.db.enrollments && s.phase == Serving
    requires forall p :: p in PushesOf(s.db.pushes, e) ==>
      p in s.db.pushes && Tracked(s.db, s.attempts, Last(CallsOf(s.calls, p)), p)
    ensures AllTracked(s, e)
  {
    hide Tracked;
    hide CallsOf;
    hide Last;
  }

  lemma HandOverServes(s: Sys, step: Step, s': Sys, e: EnrollmentId)
    requires Next(s, step, s') && Calm(s, step, e) && !step.Work? && AllTracked(s, e)
    ensures e in s'.db.enrollments && s'.phase == Serving
  {
    hide Tracked;
    hide CallsOf;
    hide Last;
    hide Settled;
    hide VerdictOf;
    hide HandsOver;
  }

  lemma {:induction false} RunStaysTracked(states: seq<Sys>, steps: seq<Step>, n: nat, m: nat, e: EnrollmentId)
    requires IsRun(states, steps) && n <= m < |states| && |states| == |steps| + 1
    requires Inv(states[n]) && AllTracked(states[n], e)
    requires forall i :: n <= i < m ==> Calm(states[i], steps[i], e)
    ensures Inv(states[m]) && AllTracked(states[m], e)
    decreases m - n
  {
    hide *;
    if n < m {
      RunStaysTracked(states, steps, n, m - 1, e);
      RunStep(states, steps, m - 1);
      NextInv(states[m - 1], steps[m - 1], states[m]);
      CalmStep(states[m - 1], steps[m - 1], states[m], e);
    }
  }

  lemma CalmStep(s: Sys, step: Step, s': Sys, e: EnrollmentId)
    requires Inv(s) && Next(s, step, s') && Calm(s, step, e) && AllTracked(s, e)
    ensures AllTracked(s', e)
  {
    hide Inv;
    hide Next;
    hide AllTracked;
    if step.Work? { WorkStaysTracked(s, step.id, step.event, s', e); } else { HandOverStaysTracked(s, step, s', e); }
  }

  /** Once all attempts on its pushes are over, a tracked enrollment is settled and every push
      says what its device answered. */
  lemma JoinedIsSettled(s: Sys, e: EnrollmentId)
    requires AllTracked(s, e)
    requires forall i :: i in s.attempts && s.attempts[i].push in PushesOf(s.db.pushes, e) ==> s.attempts[i].pc == Finished
    ensures Settled(s.db.pushes, e)
    ensures forall p :: p in PushesOf(s.db.pushes, e) ==>
      (s.db.pushes[p].status == Success) == (Last(CallsOf(s.calls, p)) == Applied)
  {
    SettledMeaning(s.db.pushes, e);
    hide Settled;
    hide CallsOf;
    hide Last;
    forall p | p in PushesOf(s.db.pushes, e)
      ensures s.db.pushes[p].status.Terminal() && (s.db.pushes[p].status == Success) == (Last(CallsOf(s.calls, p)) == Applied)
    {
      assert Tracked(s.db, s.attempts, Last(CallsOf(s.calls, p)), p);
    }
  }

  /** The verdict under any interleaving: however the device tasks of an enrollment interleave,
      when they are all over and finalization has run, no push is pending or in progress, a push
      succeeded exactly when its device accepted, and the enrollment is a success iff it has a
      device and all accepted, failed iff none did, partial otherwise. */
  lemma VerdictUnderAnyInterleaving(states: seq<Sys>, steps: seq<Step>, n: nat, m: nat, e: EnrollmentId)
    requires IsRun(states, steps) && n <= m && m + 1 < |states| && |states| == |steps| + 1
    requires states[n].phase == Serving && JustDispatched(states[n], e)
    requires forall i :: n <= i < m ==> Calm(states[i], steps[i], e)
    requires forall i | i in states[m].attempts && states[m].attempts[i].push in PushesOf(states[m].db.pushes, e) ::
      states[m].attempts[i].pc == Finished
    requires steps[m] == Finalize(e)
    ensures var s, all := states[m + 1], PushesOf(states[m + 1].db.pushes, e);
      && e in s.db.enrollments
      && (forall p :: p in all ==> s.db.pushes[p].status.Terminal())
      && (forall p :: p in all ==> (s.db.pushes[p].status == Success) == (Last(CallsOf(s.calls, p)) == Applied))
      && (s.db.enrollments[e].status == AllSucceeded) == (all != {} && forall p :: p in all ==> Last(CallsOf(s.calls, p)) == Applied)
      && (s.db.enrollments[e].status == NoneSucceeded) == (forall p :: p in all ==> Last(CallsOf(s.calls, p)) != Applied)
      && s.db.enrollments[e].status != Ongoing
  {
    hide *;
    RunInv(states, steps, n);
    DispatchedIsTracked(states[n], e);
    RunStaysTracked(states, steps, n, m, e);
    RunStep(states, steps, m);
    FinalizeIs(states[m], e, states[m + 1]);
    FinalizedVerdict(states[m], e, states[m + 1]);
  }

  lemma FinalizedVerdict(s: Sys, e: EnrollmentId, s': Sys)
    requires AllTracked(s, e) && s' == s.(db := Finalized(s.db, e)) && s'.db.pushes == s.db.pushes
    requires forall i :: i in s.attempts && s.attempts[i].push in PushesOf(s.db.pushes, e) ==> s.attempts[i].pc == Finished
    ensures var all := PushesOf(s'.db.pushes, e);
      && e in s'.db.enrollments
      && (forall p :: p in all ==> p in s'.db.pushes && s'.db.pushes[p].status.Terminal())
      && (forall p :: p in all ==> (s'.db.pushes[p].status == Success) == (Last(CallsOf(s'.calls, p)) == Applied))
      && (s'.db.enrollments[e].status == AllSucceeded) == (all != {} && forall p :: p in all ==> Last(CallsOf(s'.calls, p)) == Applied)
      && (s'.db.enrollments[e].status == NoneSucceeded) == (forall p :: p in all ==> Last(CallsOf(s'.calls, p)) != Applied)
      && s'.db.enrollments[e].status != Ongoing
  {
    JoinedIsSettled(s, e);
    SettledMeaning(s.db.pushes, e);
    VerdictMeaning(s.db.pushes, e);
    hide Settled;
    hide VerdictOf;
    hide CallsOf;
    hide Last;
    hide Tracked;
  }
}
