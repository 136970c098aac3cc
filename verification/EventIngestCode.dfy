/** One call of the ingest function from beginning to end, on the objects it works with. */
module EventIngestCode {
  import opened Options
  import opened EventIngest

  /** A directory tree; each file remembers who wrote it. */
  class FileSystem {
    var files: map<Path, Call>

    constructor ()
      ensures files == map[]
    {
      files := map[];
    }
  }

  class AtomicFileGuard {
    const fs: FileSystem
    const path: Path
    const owner: Call
    var kept: bool

    /** Publishes without replacing; `works` is false when some system call fails. */
    static method Write(fs: FileSystem, path: Path, owner: Call, works: bool) returns (guard: AtomicFileGuard?)
      modifies fs
      ensures guard == null <==> !works || path in old(fs.files)
      ensures guard == null ==> fs.files == old(fs.files)
      ensures guard != null ==>
        fresh(guard) && fs.files == old(fs.files)[path := owner] && !guard.kept && guard.fs == fs && guard.path == path && guard.owner == owner
    {
      if !works || path in fs.files { return null; }
      fs.files := fs.files[path := owner];
      guard := new AtomicFileGuard(fs, path, owner);
    }

    constructor (fs: FileSystem, path: Path, owner: Call)
      ensures this.fs == fs && this.path == path && this.owner == owner && !kept
    {
      this.fs, this.path, this.owner, kept := fs, path, owner, false;
    }

    method Keep()
      modifies this
      ensures kept
    {
      kept := true;
    }

    /** What leaving scope does: an unkept guard removes the file if it is still its own. */
    method Drop()
      modifies fs
      ensures fs.files == if !kept && path in old(fs.files) && old(fs.files)[path] == owner then old(fs.files) - {path} else old(fs.files)
    {
      if kept { return; }
      if path in fs.files && fs.files[path] == owner { fs.files := fs.files - {path}; }
    }
  }

  /** How the parts that can fail behave during this call. */
  datatype Luck = Luck(writes: bool, admitted: bool, begins: bool, inserts: bool, commits: bool, deliverable: nat)

  /** A new row among the others. */
  lemma InsertedInColumns(w: World, rows: map<EventId, Row>, c: Call)
    requires RowsFit(w, rows)
    ensures var e, after := w.event(c), rows[w.event(c).id := RowFor(w, c)];
      && RowsFit(w, after) && after.Keys == rows.Keys + {e.id} && after[e.id].owner == c
      && after[e.id].path == (if e.photo.Some? then Some(Path(w.utcDate(e.capturedAt), e.id)) else None)
      && (!Conflict(rows, e) ==> forall id :: id in rows ==> after[id] == rows[id])
  {
    hide KeyOf;
  }

  lemma PrefixMeans(w: World, c: Call, n: nat)
    ensures var requests := ResolveRecomputeRequests(w, c);
      && |Prefix(w, c, n)| == (if n <= |requests| then n else |requests|)
      && forall i :: 0 <= i < |Prefix(w, c, n)| ==> Prefix(w, c, n)[i] == (c, requests[i])
  {
    hide ResolveRecomputeRequests;
  }

  /** The first `n` of these requests have been sent for the call, or all there are. */
  ghost predicate SentMore(before: seq<(Call, Request)>, after: seq<(Call, Request)>, c: Call, requests: seq<Request>, n: nat) {
    var m := if n <= |requests| then n else |requests|;
    |after| == |before| + m && before <= after && forall i :: 0 <= i < m ==> after[|before| + i] == (c, requests[i])
  }

  class EventStore {
    const w: World
    const fs: FileSystem
    var rows: map<EventId, Row>
    var sent: seq<(Call, Request)>

    constructor (w: World, fs: FileSystem)
      ensures this.w == w && this.fs == fs && rows == map[] && sent == [] && Valid()
    {
      this.w, this.fs, rows, sent := w, fs, map[], [];
    }

    /** Every row is that of the call that inserted it. */
    ghost predicate Valid()
      reads this
    {
      RowsFit(w, rows)
    }

    /** The transaction's body: `INSERT OR IGNORE`, on a copy that only a commit makes current. */
    method InsertRow(c: Call) returns (written: map<EventId, Row>, affected: nat)
      ensures if Conflict(rows, w.event(c)) then affected == 0 && written == rows
              else affected == 1 && written == rows[w.event(c).id := RowFor(w, c)]
    {
      if Conflict(rows, w.event(c)) { return rows, 0; }
      written, affected := rows[w.event(c).id := RowFor(w, c)], 1;
    }

    method PublishRequests(c: Call, deliverable: nat)
      modifies this`sent
      ensures sent == old(sent) + Prefix(w, c, deliverable)
    {
      var requests := ResolveRecomputeRequests(w, c);
      var i := 0;
      while i < |requests| && i < deliverable
        invariant 0 <= i <= |requests| && i <= deliverable && sent == old(sent) + Prefix(w, c, i)
      {
        sent := sent + [(c, requests[i])];
        assert Prefix(w, c, i + 1) == Prefix(w, c, i) + [(c, requests[i])];
        i := i + 1;
      }
    }

    /** The callback of a commit: the guard is disarmed, then the requests go out. */
    method AfterCommit(c: Call, guard: AtomicFileGuard?, deliverable: nat)
      requires guard != null ==> guard.fs == fs
      modifies this`sent, fs, if guard == null then {} else {guard}
      ensures fs.files == old(fs.files) && sent == old(sent) + Prefix(w, c, deliverable)
    {
      if guard != null {
        guard.Keep();
        guard.Drop();
      }
      PublishRequests(c, deliverable);
    }

    /** The call ends with an error exactly when something failed on the way; otherwise it is
        deduplicated exactly when its event, or one of the same access, has a row already. */
    method PersistAttendanceEventQueued(c: Call, luck: Luck) returns (outcome: Outcome)
      requires Valid()
      modifies this, fs
      ensures Valid()
      ensures outcome != Error <==>
        && luck.admitted && luck.begins && luck.inserts && luck.commits
        && (w.event(c).photo.Some? ==> luck.writes && Path(w.utcDate(w.event(c).capturedAt), w.event(c).id) !in old(fs.files))
      ensures outcome == Deduplicated <==> outcome != Error && KnownAlready(w, old(rows), w.event(c))
      ensures outcome != Inserted ==> fs.files == old(fs.files) && rows == old(rows) && sent == old(sent)
      ensures outcome == Inserted ==>
        && rows.Keys == old(rows).Keys + {w.event(c).id} && rows[w.event(c).id].owner == c
        && rows[w.event(c).id].path == (if w.event(c).photo.Some? then Some(Path(w.utcDate(w.event(c).capturedAt), w.event(c).id)) else None)
        && (forall id :: id in old(rows) ==> rows[id] == old(rows)[id])
        && fs.files == (if w.event(c).photo.Some?
                        then old(fs.files)[Path(w.utcDate(w.event(c).capturedAt), w.event(c).id) := c] else old(fs.files))
      ensures outcome == Inserted ==>
        SentMore(old(sent), sent, c, ResolveRecomputeRequests(w, c), luck.deliverable)
    {
      ConflictMeans(w, rows, w.event(c));
      PrefixMeans(w, c, luck.deliverable);
      InsertedInColumns(w, rows, c);
      assert PathOf(w, c) == Path(w.utcDate(w.event(c).capturedAt), w.event(c).id);
      hide PathOf;
      hide RowsFit;
      hide RowFor;
      hide KnownAlready;
      hide Conflict;
      hide KeyOf;
      hide Prefix;
      hide ResolveRecomputeRequests;
      var guard: AtomicFileGuard? := null;
      if w.event(c).photo.Some? {
        guard := AtomicFileGuard.Write(fs, PathOf(w, c), c, luck.writes);
        if guard == null { return Error; }
        assert old(fs.files)[PathOf(w, c) := c] - {PathOf(w, c)} == old(fs.files);
      }
      if !luck.admitted || !luck.begins || !luck.inserts {
        if guard != null { guard.Drop(); }
        return Error;
      }
      var written, affected := InsertRow(c);
      if affected == 0 {
        // the guard was not handed to a callback: it ends with the body
        if guard != null { guard.Drop(); }
        return if luck.commits then Deduplicated else Error;
      }
      if !luck.commits {
        if guard != null { guard.Drop(); }
        return Error;
      }
      rows := written;
      AfterCommit(c, guard, luck.deliverable);
      outcome := Inserted;
    }
  }

  // --------------------------------------------------- the call as a run of the machine

  ghost predicate Runs(w: World, s: State, steps: seq<Step>, s': State)
    decreases |steps|
  {
    if steps == [] then s' == s else Can(w, s, steps[0]) && Runs(w, Do(w, s, steps[0]), steps[1..], s')
  }

  lemma RunsOne(w: World, s: State, step: Step)
    requires Can(w, s, step)
    ensures Runs(w, s, [step], Do(w, s, step))
  {
    hide Can;
    hide Do;
    assert [step][1..] == [];
  }

  lemma {:induction false} RunsMore(w: World, s: State, a: seq<Step>, s1: State, b: seq<Step>, s2: State)
    requires Runs(w, s, a, s1) && Runs(w, s1, b, s2)
    ensures Runs(w, s, a + b, s2)
    decreases |a|
  {
    hide Can;
    hide Do;
    if a == [] {
      assert a + b == b;
    } else {
      RunsMore(w, Do(w, s, a[0]), a[1..], s1, b, s2);
      assert (a + b)[1..] == a[1..] + b;
    }
  }

  /** The state behind a written photo. */
  ghost function Fronted(w: World, s: State, c: Call): State {
    if w.event(c).photo.None? then s.(phases := s.phases[c := Guarded])
    else s.(phases := s.phases[c := Guarded], files := s.files[PathOf(w, c) := c], guards := s.guards + {c})
  }

  /** The same, in the writer's hands. */
  ghost function Taking(w: World, s: State, c: Call, writer: Writer): State {
    Fronted(w, s, c).(phases := s.phases[c := Working], writer := writer)
  }

  /** Nothing of this call is there yet. */
  ghost predicate Untouched(w: World, s: State, c: Call) {
    PhaseOf(s, c) == New && c !in s.guards && s.writer == Idle && s.channel == []
  }

  ghost predicate CanWrite(w: World, s: State, c: Call, luck: Luck) {
    w.event(c).photo.Some? ==> luck.writes && PathOf(w, c) !in s.files
  }

  lemma FrontRuns(w: World, s: State, c: Call, luck: Luck)
    requires Untouched(w, s, c) && CanWrite(w, s, c, luck)
    ensures Runs(w, s, [WritePhoto(c, true)], Fronted(w, s, c))
  {
    hide PathOf;
    RunsOne(w, s, WritePhoto(c, true));
  }

  lemma FrontFails(w: World, s: State, c: Call, luck: Luck)
    requires Untouched(w, s, c) && !CanWrite(w, s, c, luck)
    ensures Runs(w, s, [WritePhoto(c, false)], Ended(s, c, Error))
  {
    hide PathOf;
    RunsOne(w, s, WritePhoto(c, false));
  }

  /** The same, in the channel. */
  ghost function Waiting(w: World, s: State, c: Call): State {
    Fronted(w, s, c).(phases := s.phases[c := Queued], channel := [c])
  }

  lemma AcceptRuns(w: World, s: State, c: Call)
    requires Untouched(w, s, c)
    ensures Runs(w, Fronted(w, s, c), [Accept(c)], Waiting(w, s, c))
  {
    hide PathOf;
    assert s.phases[c := Guarded][c := Queued] == s.phases[c := Queued];
    RunsOne(w, Fronted(w, s, c), Accept(c));
    hide Runs;
  }

  lemma TakeRuns(w: World, s: State, c: Call)
    requires Untouched(w, s, c)
    ensures Runs(w, Waiting(w, s, c), [Take], Taking(w, s, c, Taken(c)))
  {
    hide PathOf;
    assert s.phases[c := Queued][c := Working] == s.phases[c := Working];
    RunsOne(w, Waiting(w, s, c), Take);
    hide Runs;
  }

  lemma TakingRuns(w: World, s: State, c: Call)
    requires Untouched(w, s, c)
    ensures Runs(w, Fronted(w, s, c), [Accept(c), Take], Taking(w, s, c, Taken(c)))
  {
    hide *;
    AcceptRuns(w, s, c);
    TakeRuns(w, s, c);
    RunsMore(w, Fronted(w, s, c), [Accept(c)], Waiting(w, s, c), [Take], Taking(w, s, c, Taken(c)));
    assert [Accept(c)] + [Take] == [Accept(c), Take];
  }

  /** What undoing leaves: the call ended, and files, rows and requests as they were. */
  ghost predicate Undone(s: State, c: Call, s': State, outcome: Outcome) {
    && PhaseOf(s', c) == Done(outcome) && s'.writer == Idle && s'.channel == []
    && s'.files == s.files && s'.rows == s.rows && s'.sent == s.sent
  }

  lemma DropRestores(w: World, s: State, c: Call, luck: Luck, writer: Writer)
    requires Untouched(w, s, c) && CanWrite(w, s, c, luck)
    ensures Dropped(w, Fronted(w, s, c), c).(phases := s.phases) == s
    ensures Dropped(w, Taking(w, s, c, writer), c) == s.(phases := s.phases[c := Working], writer := writer)
  {
    hide PathOf;
    assert s.files[PathOf(w, c) := c] - {PathOf(w, c)} == s.files - {PathOf(w, c)};
    assert PathOf(w, c) !in s.files ==> s.files - {PathOf(w, c)} == s.files;
  }

  /** The step at which the call fails, and the state it leaves. */
  lemma FailureRuns(w: World, s: State, c: Call, luck: Luck, writer: Writer, step: Step)
    requires Untouched(w, s, c) && CanWrite(w, s, c, luck)
    requires || (writer == Taken(c) && step == Begin(false)) || (writer == InTransaction(c) && step == Insert(false))
             || (writer == Committing(c, true) && step == Commit(false))
    ensures Runs(w, Taking(w, s, c, writer), [step], Ended(s, c, Error))
  {
    DropRestores(w, s, c, luck, writer);
    hide PathOf;
    var s1 := Taking(w, s, c, writer);
    assert Do(w, s1, step) == Ended(Dropped(w, s1, c), c, Error).(writer := Idle);
    hide Dropped;
    assert s.phases[c := Working][c := Done(Error)] == s.phases[c := Done(Error)];
    RunsOne(w, s1, step);
  }

  lemma RefusalRuns(w: World, s: State, c: Call, luck: Luck)
    requires Untouched(w, s, c) && CanWrite(w, s, c, luck)
    ensures Runs(w, Fronted(w, s, c), [Refuse(c)], Ended(s, c, Error))
  {
    DropRestores(w, s, c, luck, Idle);
    hide PathOf;
    var s1 := Fronted(w, s, c);
    assert Do(w, s1, Refuse(c)) == Ended(Dropped(w, s1, c), c, Error) && Dropped(w, s1, c).phases == s1.phases;
    hide Dropped;
    RunsOne(w, s1, Refuse(c));
  }

  lemma BeginRuns(w: World, s: State, c: Call)
    ensures Runs(w, Taking(w, s, c, Taken(c)), [Begin(true)], Taking(w, s, c, InTransaction(c)))
  {
    hide PathOf;
    RunsOne(w, Taking(w, s, c, Taken(c)), Begin(true));
  }

  lemma InsertRuns(w: World, s: State, c: Call)
    requires !Conflict(s.rows, w.event(c))
    ensures Runs(w, Taking(w, s, c, InTransaction(c)), [Insert(true)], Taking(w, s, c, Committing(c, true)))
  {
    hide PathOf;
    hide Conflict;
    RunsOne(w, Taking(w, s, c, InTransaction(c)), Insert(true));
  }

  /** A known event: the guard goes with the body, whatever becomes of the commit. */
  lemma KnownRuns(w: World, s: State, c: Call, luck: Luck) returns (steps: seq<Step>)
    requires Untouched(w, s, c) && CanWrite(w, s, c, luck) && Conflict(s.rows, w.event(c))
    ensures Runs(w, Taking(w, s, c, InTransaction(c)), steps, Ended(s, c, if luck.commits then Deduplicated else Error))
  {
    DropRestores(w, s, c, luck, InTransaction(c));
    hide PathOf;
    hide Conflict;
    var s1 := Taking(w, s, c, InTransaction(c));
    var s2 := s.(phases := s.phases[c := Working], writer := Committing(c, false));
    assert Do(w, s1, Insert(true)) == Dropped(w, s1, c).(writer := Committing(c, false)) == s2;
    RunsOne(w, s1, Insert(true));
    assert s.phases[c := Working][c := Done(Error)] == s.phases[c := Done(Error)];
    assert s.phases[c := Working][c := Done(Deduplicated)] == s.phases[c := Done(Deduplicated)];
    RunsOne(w, s2, Commit(luck.commits));
    if luck.commits {
      var s3 := s2.(writer := Replying(c, Deduplicated));
      RunsOne(w, s3, Reply);
      hide Runs;
      RunsMore(w, s2, [Commit(true)], s3, [Reply], Ended(s, c, Deduplicated));
      RunsMore(w, s1, [Insert(true)], s2, [Commit(true)] + [Reply], Ended(s, c, Deduplicated));
      steps := [Insert(true)] + ([Commit(true)] + [Reply]);
    } else {
      assert Do(w, s2, Commit(false)) == Ended(s, c, Error);
      hide Runs;
      RunsMore(w, s1, [Insert(true)], s2, [Commit(false)], Ended(s, c, Error));
      steps := [Insert(true)] + [Commit(false)];
    }
  }

  /** The requests go out one by one until they are all sent or the receiver is gone. */
  lemma {:induction false} SendingRuns(w: World, s: State, c: Call, left: seq<Request>, n: nat) returns (steps: seq<Step>, s': State)
    requires s.writer == Sending(c, left)
    ensures Runs(w, s, steps, s') && s'.writer == Replying(c, Inserted)
    ensures s'.rows == s.rows && s'.files == s.files && s'.channel == s.channel
    ensures SentMore(s.sent, s'.sent, c, left, n)
    decreases |left|
  {
    if left == [] || n == 0 {
      var step := if left == [] then SendDone else SendOne(false);
      RunsOne(w, s, step);
      steps, s' := [step], Do(w, s, step);
    } else {
      var s1 := Do(w, s, SendOne(true));
      RunsOne(w, s, SendOne(true));
      var more;
      more, s' := SendingRuns(w, s1, c, left[1..], n - 1);
      hide Runs;
      RunsMore(w, s, [SendOne(true)], s1, more, s');
      steps := [SendOne(true)] + more;
      SentBehind(s.sent, s1.sent, s'.sent, c, left, n);
      hide Do;
    }
  }

  lemma SentBehind(before: seq<(Call, Request)>, first: seq<(Call, Request)>, sent: seq<(Call, Request)>, c: Call, left: seq<Request>, n: nat)
    requires left != [] && n > 0 && first == before + [(c, left[0])] && SentMore(first, sent, c, left[1..], n - 1)
    ensures SentMore(before, sent, c, left, n)
  {
    var m := if n <= |left| then n else |left|;
    forall i | 0 <= i < m ensures sent[|before| + i] == (c, left[i]) {
      if i == 0 { assert sent[|before|] == first[|before|]; } else { assert sent[|first| + (i - 1)] == (c, left[1..][i - 1]); }
    }
  }

  /** The state in which the callback of the commit has run its first step. */
  ghost function Kept(w: World, s: State, c: Call): State {
    var s1 := Taking(w, s, c, Sending(c, ResolveRecomputeRequests(w, c)));
    s1.(rows := s.rows[w.event(c).id := RowFor(w, c)], guards := s1.guards - {c},
        committed := s.committed + [c], published := s.published + [Some(0)])
  }

  lemma KeptRuns(w: World, s: State, c: Call)
    ensures Runs(w, Taking(w, s, c, Committing(c, true)), [Commit(true), Keep], Kept(w, s, c))
  {
    hide PathOf;
    hide KeyOf;
    hide ResolveRecomputeRequests;
    var s1 := Taking(w, s, c, Committing(c, true));
    var s2 := Do(w, s1, Commit(true));
    RunsOne(w, s1, Commit(true));
    RunsOne(w, s2, Keep);
    assert (s.published + [None])[|s.published| := Some(0)] == s.published + [Some(0)];
    assert Do(w, s2, Keep) == Kept(w, s, c);
    hide Runs;
    RunsMore(w, s1, [Commit(true)], s2, [Keep], Do(w, s2, Keep));
    assert [Commit(true)] + [Keep] == [Commit(true), Keep];
  }

  /** What a new event leaves. */
  ghost predicate Stored(w: World, s: State, c: Call, deliverable: nat, s': State) {
    var e := w.event(c);
    && PhaseOf(s', c) == Done(Inserted) && s'.writer == Idle && s'.channel == []
    && s'.rows == s.rows[e.id := RowFor(w, c)]
    && s'.files == (if e.photo.Some? then s.files[Path(w.utcDate(e.capturedAt), e.id) := c] else s.files)
    && SentMore(s.sent, s'.sent, c, ResolveRecomputeRequests(w, c), deliverable)
  }

  lemma NewRuns(w: World, s: State, c: Call, deliverable: nat) returns (steps: seq<Step>, s': State)
    requires Untouched(w, s, c)
    ensures Runs(w, Taking(w, s, c, Committing(c, true)), steps, s') && Stored(w, s, c, deliverable, s')
  {
    KeptRuns(w, s, c);
    var s1, s2, requests := Taking(w, s, c, Committing(c, true)), Kept(w, s, c), ResolveRecomputeRequests(w, c);
    hide RowFor;
    hide ResolveRecomputeRequests;
    var sends, s3 := SendingRuns(w, s2, c, requests, deliverable);
    s' := Do(w, s3, Reply);
    RunsOne(w, s3, Reply);
    hide Runs;
    RunsMore(w, s2, sends, s3, [Reply], s');
    RunsMore(w, s1, [Commit(true), Keep], s2, sends + [Reply], s');
    steps := [Commit(true), Keep] + (sends + [Reply]);
  }

  /** Behind the admission: what follows once the writer has the call. */
  lemma TakenRuns(w: World, s: State, c: Call, luck: Luck) returns (steps: seq<Step>, s': State)
    requires Untouched(w, s, c) && CanWrite(w, s, c, luck)
    ensures Runs(w, Taking(w, s, c, Taken(c)), steps, s')
    ensures if !(luck.begins && luck.inserts && luck.commits) then s' == Ended(s, c, Error)
      else if Conflict(s.rows, w.event(c)) then s' == Ended(s, c, Deduplicated) else Stored(w, s, c, luck.deliverable, s')
  {
    hide *;
    var s1, s2, s3 := Taking(w, s, c, Taken(c)), Taking(w, s, c, InTransaction(c)), Taking(w, s, c, Committing(c, true));
    if !luck.begins {
      FailureRuns(w, s, c, luck, Taken(c), Begin(false));
      return [Begin(false)], Ended(s, c, Error);
    }
    BeginRuns(w, s, c);
    var more;
    if !luck.inserts {
      FailureRuns(w, s, c, luck, InTransaction(c), Insert(false));
      more, s' := [Insert(false)], Ended(s, c, Error);
    } else if Conflict(s.rows, w.event(c)) {
      more := KnownRuns(w, s, c, luck);
      s' := Ended(s, c, if luck.commits then Deduplicated else Error);
    } else {
      InsertRuns(w, s, c);
      var rest;
      if luck.commits {
        rest, s' := NewRuns(w, s, c, luck.deliverable);
      } else {
        FailureRuns(w, s, c, luck, Committing(c, true), Commit(false));
        rest, s' := [Commit(false)], Ended(s, c, Error);
      }
      RunsMore(w, s2, [Insert(true)], s3, rest, s');
      more := [Insert(true)] + rest;
    }
    RunsMore(w, s1, [Begin(true)], s2, more, s');
    steps := [Begin(true)] + more;
  }

  lemma UndoneIs(w: World, s: State, c: Call, outcome: Outcome)
    requires Untouched(w, s, c)
    ensures Undone(s, c, Ended(s, c, outcome), outcome)
  {
  }

  /** The method above is a run of the machine: from a state in which nobody is in the middle of
      anything, the machine can take this call, with the same luck, through to the same outcome, and
      leaves the same rows, files and requests. */
  lemma CallIsARun(w: World, s: State, c: Call, luck: Luck) returns (steps: seq<Step>, s': State)
    requires Untouched(w, s, c) && RowsFit(w, s.rows)
    ensures Runs(w, s, steps, s')
    ensures var e := w.event(c);
      var good := luck.admitted && luck.begins && luck.inserts && luck.commits
        && (e.photo.Some? ==> luck.writes && Path(w.utcDate(e.capturedAt), e.id) !in s.files);
      if !good then Undone(s, c, s', Error)
      else if KnownAlready(w, s.rows, e) then Undone(s, c, s', Deduplicated)
      else Stored(w, s, c, luck.deliverable, s')
  {
    PathIs(w, c);
    CanWriteIs(w, s, c, luck);
    hide *;
    ConflictMeans(w, s.rows, w.event(c));
    UndoneIs(w, s, c, Error);
    UndoneIs(w, s, c, Deduplicated);
    if !CanWrite(w, s, c, luck) {
      FrontFails(w, s, c, luck);
      return [WritePhoto(c, false)], Ended(s, c, Error);
    }
    FrontRuns(w, s, c, luck);
    var more;
    if luck.admitted {
      TakingRuns(w, s, c);
      var rest;
      rest, s' := TakenRuns(w, s, c, luck);
      RunsMore(w, Fronted(w, s, c), [Accept(c), Take], Taking(w, s, c, Taken(c)), rest, s');
      more := [Accept(c), Take] + rest;
    } else {
      RefusalRuns(w, s, c, luck);
      more, s' := [Refuse(c)], Ended(s, c, Error);
    }
    RunsMore(w, s, [WritePhoto(c, true)], Fronted(w, s, c), more, s');
    steps := [WritePhoto(c, true)] + more;
  }

  lemma PathIs(w: World, c: Call)
    ensures PathOf(w, c) == Path(w.utcDate(w.event(c).capturedAt), w.event(c).id)
  {
  }

  lemma CanWriteIs(w: World, s: State, c: Call, luck: Luck)
    ensures CanWrite(w, s, c, luck) <==> (w.event(c).photo.Some? ==> luck.writes && PathOf(w, c) !in s.files)
  {
  }
}
