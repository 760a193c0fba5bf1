/** What a caller finds in the tables after each call, row by row and in the call's own terms,
    and what stays there over the calls that follow. */
module Effects {
  import opened Basics
  import opened Schema
  import opened Calls
  import opened Invariants
  import opened History
  import opened Truth
  import opened Idempotency
  import Sorting
  import Retrieval

  // ---- arguments -------------------------------------------------------------

  /** A write is refused for its arguments exactly outside these bounds, and then nothing happens. */
  lemma RefusedExactly(db: Db, c: Call, id: MemoryId)
    requires c.Remember? || c.Revise?
    ensures Exec(db, c, id).outcome == Raised(ValidationFailed)
            <==> || c.text == "" || |c.text| > 8192 || |c.tags| > 16
                 || (c.Remember? && (c.importance < 0 || c.importance > 100 || (c.kind == TASK && c.expiresAt == None)))
                 || (c.key.Some? && (|Strip(c.key.value)| < 8 || |Strip(c.key.value)| > 128))
    ensures Exec(db, c, id).outcome.Raised? ==> Exec(db, c, id).db == db
  {
    KeyedEffect(db, c, id);
  }

  // ---- the outbox ------------------------------------------------------------

  /** A call that writes a revision and names a model leaves, in the same commit, a job for it that is
      pending, untried and due at once; any other job stays as it is, and without a model all do. */
  lemma EmbeddingQueued(db: Db, c: Call, id: MemoryId)
    requires Exec(db, c, id).outcome.Created? || Exec(db, c, id).outcome.Revised?
    ensures var s := Exec(db, c, id);
            && (c.Remember? || c.Revise?)
            && s.db.vectors == db.vectors
            && (forall j | j in db.jobs :: j in s.db.jobs && s.db.jobs[j] == db.jobs[j])
            && (c.model == None ==> s.db.jobs == db.jobs)
            && (c.model.Some? ==>
                  var k := JobKey(s.outcome.view.id, s.outcome.view.no, c.model.value);
                  && s.db.jobs.Keys == db.jobs.Keys + {k}
                  && (k !in db.jobs ==> s.db.jobs[k] == Job(c.project, PENDING, 0, c.now, c.now))
                  && (WellFormed(db) && Admissible(db, c, id) ==> k !in db.jobs))
  {
    hide Exec, WellFormed;
    JobsAfter(db, c, id);
    if WellFormed(db) && Admissible(db, c, id) && c.model.Some? {
      var view := Exec(db, c, id).outcome.view;
      NotYetWritten(db, c, id);
      NewRevisionHasNoJob(db, view.id, view.no, c.model.value);
    }
  }

  lemma JobsAfter(db: Db, c: Call, id: MemoryId)
    requires Exec(db, c, id).outcome.Created? || Exec(db, c, id).outcome.Revised?
    ensures var s := Exec(db, c, id);
            && (c.Remember? || c.Revise?) && s.db.vectors == db.vectors
            && s.db.jobs == Enqueue(db.jobs, c, s.outcome.view.id, s.outcome.view.no)
  {
    hide Enqueue, Release, Retire, WithDoneKey, Picked, Passed;
    KeyedEffect(db, c, id);
  }

  lemma NotYetWritten(db: Db, c: Call, id: MemoryId)
    requires WellFormed(db) && Admissible(db, c, id) && (Exec(db, c, id).outcome.Created? || Exec(db, c, id).outcome.Revised?)
    ensures var view := Exec(db, c, id).outcome.view; RevKey(view.id, view.no) !in db.revisions
  {
    hide WellFormed, Enqueue, Release, Retire, WithDoneKey, Picked, Passed;
    KeyedEffect(db, c, id);
    if c.Remember? {
      FreshHasNoRevisions(db, id);
    } else {
      NextIsNew(db, c.target);
    }
  }

  lemma NewRevisionHasNoJob(db: Db, x: MemoryId, no: nat, model: Model)
    requires WellFormed(db) && RevKey(x, no) !in db.revisions
    ensures JobKey(x, no, model) !in db.jobs
  {
    assert JobKey(x, no, model) in db.jobs ==> JobOk(db.revisions, JobKey(x, no, model), db.jobs[JobKey(x, no, model)]);
  }

  /** The call takes the job away: it purges the memory, or sweeps up a job that is dead and was
      created more than thirty days before. */
  ghost predicate TakesJob(db: Db, e: Event, k: JobKey) {
    || (e.call.Purge? && e.call.target == k.id)
    || (e.call.Collect? && k in e.call.dead && k in db.jobs && db.jobs[k].state == DEAD && e.call.now > db.jobs[k].createdAt + 2592000)
  }

  lemma StepKeepsJob(db: Db, e: Event, k: JobKey)
    requires k in db.jobs && !TakesJob(db, e, k)
    ensures var d := Exec(db, e.call, e.id).db;
            k in d.jobs && d.jobs[k].project == db.jobs[k].project && d.jobs[k].createdAt == db.jobs[k].createdAt
  {
    hide Deferred;
    if e.call.Remember? || e.call.Revise? {
      KeyedKeepsJobs(db, e.call, e.id);
    } else if e.call.Embed? && k in e.call.batch {
      DeferredKeeps(db.jobs[k], e.call.now);
    }
  }

  lemma KeyedKeepsJobs(db: Db, c: Call, id: MemoryId)
    requires c.Remember? || c.Revise?
    ensures var d := Exec(db, c, id).db; forall k | k in db.jobs :: k in d.jobs && d.jobs[k] == db.jobs[k]
  {
    hide Exec, Picked, Passed, Release, Retire;
    if Exec(db, c, id).outcome.Created? || Exec(db, c, id).outcome.Revised? {
      JobsAfter(db, c, id);
    } else {
      QuietKeepsJobs(db, c, id);
    }
  }

  lemma QuietKeepsJobs(db: Db, c: Call, id: MemoryId)
    requires (c.Remember? || c.Revise?) && !Exec(db, c, id).outcome.Created? && !Exec(db, c, id).outcome.Revised?
    ensures Exec(db, c, id).db.jobs == db.jobs
  {
    hide ExecKeyed;
    KeyedEffect(db, c, id);
  }

  lemma DeferredKeeps(j: Job, now: Time)
    ensures Deferred(j, now).project == j.project && Deferred(j, now).createdAt == j.createdAt
  {
  }

  /** A job stays until something takes it. */
  lemma {:induction false} JobStays(db: Db, log: seq<Event>, k: JobKey)
    requires Faithful(db, log) && k in db.jobs
    requires forall n | 0 <= n < |log| :: !TakesJob(Replay(db, log[..n]), log[n], k)
    ensures var d := Replay(db, log);
            k in d.jobs && d.jobs[k].project == db.jobs[k].project && d.jobs[k].createdAt == db.jobs[k].createdAt
  {
    hide Exec, TakesJob;
    if log != [] {
      var init := log[..|log| - 1];
      forall n | 0 <= n < |init|
        ensures !TakesJob(Replay(db, init[..n]), init[n], k)
      {
        assert init[..n] == log[..n];
      }
      JobStays(db, init, k);
      StepKeepsJob(Replay(db, init), log[|log| - 1], k);
    }
  }

  /** Over any run: every revision written with a model has its job, until its memory is purged or a
      sweep finds the job dead and thirty days old; and it has a vector, that of its text, exactly
      when that job is done. */
  lemma {:induction false} EveryRevisionHasItsJob(db: Db, log: seq<Event>, i: nat, k: JobKey)
    requires WellFormed(db) && Faithful(db, log) && i < |log|
    requires var e := log[i];
             && (e.call.Remember? || e.call.Revise?) && e.call.model == Some(k.model)
             && (e.outcome.Created? || e.outcome.Revised?) && e.outcome.view.id == k.id && e.outcome.view.no == k.no
    requires forall n | i < n < |log| :: !(log[n].call.Purge? && log[n].call.target == k.id)
    requires forall n | i < n < |log| && log[n].call.Collect? && k in log[n].call.dead ::
               var before := Replay(db, log[..n]);
               !(k in before.jobs && before.jobs[k].state == DEAD && log[n].call.now > before.jobs[k].createdAt + 2592000)
    ensures var d, c := Replay(db, log), log[i].call;
            && k in d.jobs && d.jobs[k].project == c.project && d.jobs[k].createdAt == c.now
            && (k in d.vectors <==> d.jobs[k].state == DONE)
            && (k in d.vectors ==> RevKey(k.id, k.no) in d.revisions && d.vectors[k] == d.revisions[RevKey(k.id, k.no)].content)
  {
    hide Exec, Faithful, Replay, WellFormed, Admissible;
    FaithfulAt(db, log, i);
    FaithfulPrefix(db, log, i);
    RunWellFormed(db, log[..i]);
    RunWellFormed(db, log);
    EmbeddingQueued(Replay(db, log[..i]), log[i].call, log[i].id);
    forall n | i < n < |log|
      ensures !TakesJob(Replay(db, log[..n]), log[n], k)
    {
    }
    JobStaysFrom(db, log, i, k);
    DoneHasVector(Replay(db, log), k);
  }

  lemma JobStaysFrom(db: Db, log: seq<Event>, i: nat, k: JobKey)
    requires Faithful(db, log) && i < |log| && k in Replay(db, log[..i + 1]).jobs
    requires forall n | i < n < |log| :: !TakesJob(Replay(db, log[..n]), log[n], k)
    ensures var before, d := Replay(db, log[..i + 1]), Replay(db, log);
            k in d.jobs && d.jobs[k].project == before.jobs[k].project && d.jobs[k].createdAt == before.jobs[k].createdAt
  {
    hide Exec, Faithful, Replay, TakesJob;
    var before, rest := log[..i + 1], log[i + 1..];
    assert log == before + rest;
    ReplaySplit(db, before, rest);
    forall n | 0 <= n < |rest|
      ensures !TakesJob(Replay(Replay(db, before), rest[..n]), rest[n], k)
    {
      assert log[..i + 1 + n] == before + rest[..n];
      ReplaySplit(db, before, rest[..n]);
      assert rest[n] == log[i + 1 + n];
    }
    JobStays(Replay(db, before), rest, k);
  }

  lemma DoneHasVector(d: Db, k: JobKey)
    requires WellFormed(d) && k in d.jobs
    ensures k in d.vectors <==> d.jobs[k].state == DONE
    ensures k in d.vectors ==> RevKey(k.id, k.no) in d.revisions && d.vectors[k] == d.revisions[RevKey(k.id, k.no)].content
  {
    assert k in d.vectors ==> VectorOk(d.revisions, k, d.vectors[k]);
  }

  /** Seconds a job waits after its n-th failure. */
  lemma BackoffDoubles()
    ensures Backoff(1) == 2 && Backoff(2) == 4 && Backoff(3) == 8 && Backoff(4) == 16
  {
    assert Backoff(2) == 2 * Backoff(1);
  }

  /** A batch that was embedded settles its jobs; one that failed costs each an attempt: 2, 4, 8, 16
      seconds of waiting, then death.  Other jobs and other tables do not change. */
  lemma BatchSettled(db: Db, c: Call, id: MemoryId)
    requires WellFormed(db) && c.Embed? && Admissible(db, c, id)
    ensures var d := Exec(db, c, id).db;
            && d == db.(jobs := d.jobs, vectors := d.vectors) && d.jobs.Keys == db.jobs.Keys
            && (forall k | k in db.jobs && k !in c.batch :: d.jobs[k] == db.jobs[k])
            && (forall k | k in c.batch :: k in db.jobs && d.jobs[k] ==
                  if c.ok then db.jobs[k].(state := DONE)
                  else if db.jobs[k].attempts == 4 then db.jobs[k].(state := DEAD, attempts := 5)
                  else db.jobs[k].(attempts := db.jobs[k].attempts + 1, nextAttemptAt := c.now + match db.jobs[k].attempts
                    case 0 => 2
                    case 1 => 4
                    case 2 => 8
                    case _ => 16))
  {
    hide WellFormed, Deferred, Backoff, StoredVectors;
    assert Exec(db, c, id).db == ExecEmbed(db, c).db;
    BatchRows(db, c, id);
    forall k | k in c.batch {
      JobFails(db.jobs[k], c.now);
    }
  }

  /** Only a batch that was embedded stores vectors: one for each of its jobs, that of the text. */
  lemma BatchStored(db: Db, c: Call, id: MemoryId)
    requires WellFormed(db) && c.Embed? && Admissible(db, c, id)
    ensures var d := Exec(db, c, id).db;
            && d.vectors.Keys == db.vectors.Keys + (if c.ok then c.batch else {})
            && (forall k | k in db.vectors :: d.vectors[k] == db.vectors[k])
            && (forall k | k in c.batch && c.ok :: RevKey(k.id, k.no) in db.revisions && d.vectors[k] == db.revisions[RevKey(k.id, k.no)].content)
  {
    hide WellFormed, AfterBatch;
    assert Exec(db, c, id).db == ExecEmbed(db, c).db;
    BatchRows(db, c, id);
  }

  lemma JobFails(j: Job, now: Time)
    requires j.attempts < 5
    ensures Deferred(j, now) ==
            if j.attempts == 4 then j.(state := DEAD, attempts := 5)
            else j.(attempts := j.attempts + 1, nextAttemptAt := now + match j.attempts
              case 0 => 2
              case 1 => 4
              case 2 => 8
              case _ => 16)
  {
    BackoffDoubles();
  }

  lemma BatchRows(db: Db, c: Call, id: MemoryId)
    requires WellFormed(db) && c.Embed? && Admissible(db, c, id)
    ensures forall k | k in c.batch :: JobOk(db.revisions, k, db.jobs[k]) && k !in db.vectors
  {
  }

  // ---- memories --------------------------------------------------------------

  /** A created memory is what was asked for, active, at revision 1 with the text of the call. */
  lemma CreatedAsAsked(db: Db, c: Call, id: MemoryId)
    requires WellFormed(db) && Admissible(db, c, id) && Exec(db, c, id).outcome.Created?
    ensures var d, o := Exec(db, c, id).db, Exec(db, c, id).outcome;
            && c.Remember? && o.view == View(id, 1, c.text) && id !in db.memories
            && d.memories.Keys == db.memories.Keys + {id}
            && d.memories[id] == Memory(c.project, c.kind, ACTIVE, 1, c.importance, c.expiresAt, None, None, None)
            && d.revisions == db.revisions[RevKey(id, 1) := Revision(c.project, c.text, c.digest, c.tags, true, c.author)]
  {
    hide WellFormed, CreateWith;
    CreatedIs(db, c, id);
    FreshHasNoRevisions(db, id);
    CreatedRows(db, c, id, Losers(db.memories, c, id));
  }

  lemma CreatedIs(db: Db, c: Call, id: MemoryId)
    requires Exec(db, c, id).outcome.Created?
    ensures c.Remember? && Exec(db, c, id).outcome.view == View(id, 1, c.text)
    ensures Exec(db, c, id).db == CreateWith(db, c, id, Losers(db.memories, c, id))
  {
    hide CreateWith, Picked, Passed, Sorting.Ascending, Losers;
    KeyedEffect(db, c, id);
  }

  lemma CreatedRows(db: Db, c: Call, id: MemoryId, gone: set<MemoryId>)
    requires c.Remember?
    ensures var d := CreateWith(db, c, id, gone);
            && d.memories.Keys == db.memories.Keys + {id}
            && d.memories[id] == Memory(c.project, c.kind, ACTIVE, 1, c.importance, c.expiresAt, None, None, None)
            && d.revisions == db.revisions[RevKey(id, 1) := Revision(c.project, c.text, c.digest, c.tags, true, c.author)]
  {
    hide Release, Enqueue, WithDoneKey;
  }

  lemma {:induction false} PickedContains(ms: map<MemoryId, Memory>, p: ProjectId, w: MemoryId, xs: seq<MemoryId>, x: MemoryId)
    ensures x in Picked(ms, p, w, xs) <==> x in xs && x != w && Retirable(ms, p, x)
    ensures x in Passed(ms, p, w, xs) <==> x in xs && !(x != w && Retirable(ms, p, x))
  {
    hide Retirable;
    if xs != [] {
      var init, last := xs[..|xs| - 1], xs[|xs| - 1];
      PickedContains(ms, p, w, init, x);
      assert xs == init + [last];
    }
  }

  lemma {:induction false} PickedIncreasing(ms: map<MemoryId, Memory>, p: ProjectId, w: MemoryId, xs: seq<MemoryId>)
    requires Sorting.Increasing(xs)
    ensures Sorting.Increasing(Picked(ms, p, w, xs)) && Sorting.Increasing(Passed(ms, p, w, xs))
  {
    hide Retirable, Sorting.Increasing;
    if xs == [] {
      NoneIncreasing();
    } else {
      var init, last := xs[..|xs| - 1], xs[|xs| - 1];
      assert xs == init + [last];
      StartIncreasing(init, last);
      PickedIncreasing(ms, p, w, init);
      forall x
        ensures x in Picked(ms, p, w, init) ==> x in init
        ensures x in Passed(ms, p, w, init) ==> x in init
      {
        PickedContains(ms, p, w, init, x);
      }
      AppendIncreasing(Picked(ms, p, w, init), init, last);
      AppendIncreasing(Passed(ms, p, w, init), init, last);
      assert Picked(ms, p, w, init) + [] == Picked(ms, p, w, init) && Passed(ms, p, w, init) + [] == Passed(ms, p, w, init);
    }
  }

  lemma NoneIncreasing()
    ensures Sorting.Increasing([])
  {
  }

  lemma StartIncreasing(init: seq<MemoryId>, last: MemoryId)
    requires Sorting.Increasing(init + [last])
    ensures Sorting.Increasing(init)
  {
    forall i, j | 0 <= i < j < |init|
      ensures init[i] < init[j]
    {
      assert (init + [last])[i] < (init + [last])[j];
    }
  }

  lemma AppendIncreasing(s: seq<MemoryId>, init: seq<MemoryId>, last: MemoryId)
    requires Sorting.Increasing(s) && Sorting.Increasing(init + [last]) && forall x | x in s :: x in init
    ensures Sorting.Increasing(s + [last])
  {
    forall i | 0 <= i < |s|
      ensures s[i] < last
    {
      assert s[i] in init;
      var j :| 0 <= j < |init| && init[j] == s[i];
      assert (init + [last])[j] < (init + [last])[|init|];
    }
  }

  /** Every target of a new memory is reported once, in ascending order: as retired if it was an active
      memory of the project, else as skipped.  The retired, and no other, now name the new memory
      as their successor and give up their dedup key; the new memory holds that of its content. */
  lemma RetiredAsReported(db: Db, c: Call, id: MemoryId)
    requires WellFormed(db) && Admissible(db, c, id) && Exec(db, c, id).outcome.Created?
    ensures var d, o := Exec(db, c, id).db, Exec(db, c, id).outcome;
            && c.Remember?
            && (forall x :: x in o.retired <==>
                  x in c.supersedes && x in db.memories && db.memories[x].project == c.project && db.memories[x].status == ACTIVE)
            && (forall x :: x in o.skipped <==> x in c.supersedes && x !in o.retired)
            && Sorting.Increasing(o.retired) && Sorting.Increasing(o.skipped)
            && (forall x | x in db.memories :: x in d.memories && d.memories[x] ==
                  if x in o.retired
                  then db.memories[x].(status := SUPERSEDED, supersededBy := Some(id), supersededAt := Some(c.now))
                  else db.memories[x])
            && (forall k :: k in d.dedup <==>
                  k == DedupKey(c.project, 1, c.digest) || (k in db.dedup && db.dedup[k] !in o.retired))
            && (forall k | k in d.dedup :: d.dedup[k] == if k == DedupKey(c.project, 1, c.digest) then id else db.dedup[k])
  {
    hide WellFormed, CreateWith, Picked, Passed, Sorting.Ascending, Exec, Losers, Sorting.Increasing;
    CreatedIs(db, c, id);
    FreshHasNoRevisions(db, id);
    TargetsReported(db, c, id);
    KeysOfProject(db);
    KeysAndRows(db, c, id, Losers(db.memories, c, id));
  }

  lemma TargetsReported(db: Db, c: Call, id: MemoryId)
    requires id !in db.memories && Exec(db, c, id).outcome.Created?
    ensures var o := Exec(db, c, id).outcome;
            && c.Remember?
            && (forall x :: x in o.retired <==> x in c.supersedes && Retirable(db.memories, c.project, x))
            && (forall x :: x in o.skipped <==> x in c.supersedes && x !in o.retired)
            && (forall x :: x in o.retired <==> x in Losers(db.memories, c, id))
            && Sorting.Increasing(o.retired) && Sorting.Increasing(o.skipped)
  {
    hide CreateWith, Picked, Passed, Sorting.Ascending, Sorting.Increasing;
    KeyedEffect(db, c, id);
    var o, order := Exec(db, c, id).outcome, Sorting.Ascending(c.supersedes);
    Sorting.AscendingSorts(c.supersedes);
    PickedIncreasing(db.memories, c.project, id, order);
    forall x
      ensures x in o.retired <==> x in order && x != id && Retirable(db.memories, c.project, x)
      ensures x in o.skipped <==> x in order && !(x != id && Retirable(db.memories, c.project, x))
    {
      PickedContains(db.memories, c.project, id, order, x);
    }
  }

  lemma KeysAndRows(db: Db, c: Call, id: MemoryId, gone: set<MemoryId>)
    requires c.Remember? && id !in db.memories
    requires forall k | k in db.dedup :: db.dedup[k] in db.memories && db.memories[db.dedup[k]].project == k.project
    requires forall x | x in gone :: Retirable(db.memories, c.project, x)
    ensures var d := CreateWith(db, c, id, gone);
            && (forall x | x in db.memories :: x in d.memories && d.memories[x] ==
                  if x in gone
                  then db.memories[x].(status := SUPERSEDED, supersededBy := Some(id), supersededAt := Some(c.now))
                  else db.memories[x])
            && (forall k :: k in d.dedup <==> k == DedupKey(c.project, 1, c.digest) || (k in db.dedup && db.dedup[k] !in gone))
            && (forall k | k in d.dedup :: d.dedup[k] == if k == DedupKey(c.project, 1, c.digest) then id else db.dedup[k])
  {
    hide Enqueue, WithDoneKey;
  }

  /** A dedup key belongs to the project of the memory that holds it. */
  lemma KeysOfProject(db: Db)
    requires WellFormed(db)
    ensures forall k | k in db.dedup :: db.dedup[k] in db.memories && db.memories[db.dedup[k]].project == k.project
  {
    forall k | k in db.dedup
      ensures db.dedup[k] in db.memories && db.memories[db.dedup[k]].project == k.project
    {
      assert OwnKey(db.memories, db.revisions, db.dedup[k], k);
    }
  }

  /** A revise that succeeds found the memory active, unexpired and at the expected revision, moves the
      number on by one, appends the new text and flags the replaced one; nothing else of any
      memory changes, its dedup key included. */
  lemma RevisedAsAsked(db: Db, c: Call, id: MemoryId)
    requires WellFormed(db) && Exec(db, c, id).outcome.Revised?
    ensures var d, o := Exec(db, c, id).db, Exec(db, c, id).outcome;
            && c.Revise? && c.target in db.memories && RevKey(c.target, db.memories[c.target].current) in db.revisions
            && var m := db.memories[c.target];
            && m.project == c.project && m.status == ACTIVE && (m.expiresAt.Some? ==> c.now < m.expiresAt.value)
            && m.current == c.expected == o.previous && o.view == View(c.target, m.current + 1, c.text)
            && d.memories == db.memories[c.target := m.(current := m.current + 1)]
            && RevKey(c.target, m.current + 1) !in db.revisions
            && d.revisions == db.revisions[RevKey(c.target, m.current) := db.revisions[RevKey(c.target, m.current)].(isCurrent := false)]
                                          [RevKey(c.target, m.current + 1) := Revision(c.project, c.text, c.digest, c.tags, true, c.author)]
            && d.dedup == db.dedup && d.birth == db.birth
  {
    hide WellFormed, Enqueue, WithDoneKey, Judge;
    KeyedEffect(db, c, id);
    SeenBefore(db, c, id);
    NextIsNew(db, c.target);
  }

  lemma SeenBefore(db: Db, c: Call, id: MemoryId)
    requires c.Revise? && Exec(db, c, id).outcome.Revised?
    ensures Visible(db, c.project, c.target, c.now)
    ensures var n := db.memories[c.target].current; Exec(db, c, id).outcome == Revised(View(c.target, n + 1, c.text), n)
  {
  }

  /** A forget that took effect tombstones the memory and frees its content; nothing else changes. */
  lemma ForgottenAsAsked(db: Db, c: Call, id: MemoryId, x: MemoryId)
    requires WellFormed(db) && Exec(db, c, id).outcome == Forgotten(x)
    ensures var d := Exec(db, c, id).db;
            && c.Forget? && x == c.target && x in db.memories
            && db.memories[x].project == c.project && db.memories[x].status == ACTIVE
            && d == db.(memories := db.memories[x := db.memories[x].(status := DELETED, deletedAt := Some(c.now))], dedup := d.dedup)
            && (forall k :: k in d.dedup <==> k in db.dedup && db.dedup[k] != x)
            && (forall k | k in d.dedup :: d.dedup[k] == db.dedup[k])
  {
    hide WellFormed;
    if c.Remember? || c.Revise? {
      KeyedEffect(db, c, id);
      assert false;
    }
    KeysOfProject(db);
  }

  /** What a forget answers is decided by the row alone: expiry plays no part. */
  lemma ForgetDecides(db: Db, c: Call, id: MemoryId)
    requires c.Forget?
    ensures var o := Exec(db, c, id).outcome;
            && (o == Raised(MemoryNotFound) <==> c.target !in db.memories || db.memories[c.target].project != c.project)
            && (o == Forgotten(c.target) <==>
                  c.target in db.memories && db.memories[c.target].project == c.project && db.memories[c.target].status == ACTIVE)
            && (o == AlreadyForgotten(c.target) <==>
                  c.target in db.memories && db.memories[c.target].project == c.project && db.memories[c.target].status != ACTIVE)
            && (o != Forgotten(c.target) ==> Exec(db, c, id).db == db)
  {
  }

  /** Between purges, a step takes a memory out of the active ones if and only if its answer says so,
      and brings none back. */
  lemma RetirementIsReported(db: Db, c: Call, id: MemoryId, x: MemoryId)
    requires WellFormed(db) && Admissible(db, c, id) && x in db.memories && !c.Purge?
    ensures var d := Exec(db, c, id).db;
            && x in d.memories
            && (db.memories[x].status == ACTIVE && d.memories[x].status != ACTIVE <==> Retires(Exec(db, c, id).outcome, x))
            && (db.memories[x].status != ACTIVE ==> d.memories[x] == db.memories[x])
  {
    hide WellFormed;
    var o := Exec(db, c, id).outcome;
    if o.Created? {
      RetiredAsReported(db, c, id);
    } else if o.Revised? {
      RevisedAsAsked(db, c, id);
    } else if c.Remember? || c.Revise? {
      KeyedEffect(db, c, id);
    }
  }

  /** A memory is visible from its creation until the expiry asked for, and from then on never again,
      in any later store: not by id, not to a lexical search, not to a vector search. */
  lemma {:induction false} VisibleUntilExpiry(db: Db, c: Call, id: MemoryId, log: seq<Event>, now: Time, no: nat, model: Model)
    requires WellFormed(db) && Admissible(db, c, id) && Exec(db, c, id).outcome.Created?
    requires Faithful(Exec(db, c, id).db, log)
    ensures c.Remember?
    ensures Visible(Exec(db, c, id).db, c.project, id, now) <==> c.expiresAt == None || now < c.expiresAt.value
    ensures var d := Replay(Exec(db, c, id).db, log);
            c.expiresAt.Some? && now >= c.expiresAt.value ==>
              && !Visible(d, c.project, id, now)
              && RevKey(id, no) !in Retrieval.CurrentRevisions(d, c.project, now)
              && RevKey(id, no) !in Retrieval.VectorRows(d, c.project, model, now)
  {
    hide Exec, Faithful, Replay, WellFormed, Retrieval.CurrentRevisions, Retrieval.VectorRows, Visible, Admissible;
    var d := Exec(db, c, id).db;
    StepWellFormed(db, c, id);
    CreatedVisible(db, c, id, now);
    if c.expiresAt.Some? && now >= c.expiresAt.value {
      Retrieval.NeverAgain(d, log, c.project, model, RevKey(id, no), now, now);
      RunWellFormed(d, log);
      RunGrows(d, log);
      Retrieval.HiddenStaysHidden(d, Replay(d, log), c.project, id, now, now);
    }
  }

  lemma CreatedVisible(db: Db, c: Call, id: MemoryId, now: Time)
    requires WellFormed(db) && Admissible(db, c, id) && Exec(db, c, id).outcome.Created?
    ensures c.Remember? && id in Exec(db, c, id).db.birth
    ensures Visible(Exec(db, c, id).db, c.project, id, now) <==> c.expiresAt == None || now < c.expiresAt.value
  {
    hide Exec, WellFormed, Admissible;
    CreatedAsAsked(db, c, id);
    StepWellFormed(db, c, id);
    HasBirth(Exec(db, c, id).db, id);
  }

  lemma HasBirth(d: Db, x: MemoryId)
    requires WellFormed(d) && x in d.memories
    ensures x in d.birth
  {
  }

  // ---- keys ------------------------------------------------------------------

  /** Two requests ask for the same thing as far as a key can tell. */
  predicate SameRequest(a: Call, b: Call) {
    || (a.Remember? && b.Remember? && a.kind == b.kind && a.text == b.text && a.tags == b.tags && a.importance == b.importance)
    || (a.Revise? && b.Revise? && a.target == b.target && a.expected == b.expected && a.text == b.text && a.tags == b.tags)
  }

  /** A call writes at most the row of its own key, which expires seven days on: completed with the
      memory and the revision it wrote, or in progress if it deduplicated or conflicted. */
  lemma KeyRowWritten(db: Db, c: Call, id: MemoryId)
    requires c.Remember? || c.Revise?
    ensures var s := Exec(db, c, id);
            && (c.key == None || s.outcome.Replayed? || s.outcome.Raised? ==> s.db.idem == db.idem)
            && (c.key.Some? && !s.outcome.Replayed? && !s.outcome.Raised? ==>
                  var k := IdemKey(c.project, Strip(c.key.value));
                  && k !in db.idem && s.db.idem.Keys == db.idem.Keys + {k}
                  && (forall j | j in db.idem :: s.db.idem[j] == db.idem[j])
                  && s.db.idem[k].expiresAt == c.now + 604800
                  && (s.outcome.Created? || s.outcome.Revised? ==>
                        s.db.idem[k].state == COMPLETED
                        && s.db.idem[k].response == Some(Response(s.outcome.view.id, s.outcome.view.no)))
                  && (s.outcome.Deduplicated? || s.outcome.Conflicted? ==>
                        s.db.idem[k].state == IN_PROGRESS && s.db.idem[k].response == None))
  {
    hide Exec, WithDoneKey, WithOpenKey, Strip;
    KeysAfter(db, c, id);
    var o := Exec(db, c, id).outcome;
    if o.Created? || o.Revised? {
      DoneKeySays(db.idem, c, Response(o.view.id, o.view.no));
    } else if !o.Replayed? && !o.Raised? {
      OpenKeySays(db, c);
    }
  }

  lemma DoneKeySays(idem: map<IdemKey, IdemRow>, c: Call, r: Response)
    requires c.Remember? || c.Revise?
    ensures c.key == None ==> WithDoneKey(idem, c, r) == idem
    ensures c.key.Some? ==>
              var k, after := IdemKey(c.project, Strip(c.key.value)), WithDoneKey(idem, c, r);
              && after.Keys == idem.Keys + {k} && (forall j | j in idem && j != k :: after[j] == idem[j])
              && after[k].expiresAt == c.now + 604800 && after[k].state == COMPLETED && after[k].response == Some(r)
  {
  }

  lemma OpenKeySays(db: Db, c: Call)
    requires c.Remember? || c.Revise?
    ensures c.key == None ==> WithOpenKey(db, c).idem == db.idem
    ensures c.key.Some? ==>
              var k, after := IdemKey(c.project, Strip(c.key.value)), WithOpenKey(db, c).idem;
              && after.Keys == db.idem.Keys + {k} && (forall j | j in db.idem && j != k :: after[j] == db.idem[j])
              && after[k].expiresAt == c.now + 604800 && after[k].state == IN_PROGRESS && after[k].response == None
  {
  }

  lemma KeysAfter(db: Db, c: Call, id: MemoryId)
    requires c.Remember? || c.Revise?
    ensures var s := Exec(db, c, id);
            match s.outcome
            case Created(view, _, _) => (Keyed(c) ==> KeyFor(c) !in db.idem) && s.db.idem == WithDoneKey(db.idem, c, Response(view.id, view.no))
            case Revised(view, _) => (Keyed(c) ==> KeyFor(c) !in db.idem) && s.db.idem == WithDoneKey(db.idem, c, Response(view.id, view.no))
            case Deduplicated(_) => (Keyed(c) ==> KeyFor(c) !in db.idem) && s.db.idem == WithOpenKey(db, c).idem
            case Conflicted(_) => (Keyed(c) ==> KeyFor(c) !in db.idem) && s.db.idem == WithOpenKey(db, c).idem
            case Replayed(_) => s.db.idem == db.idem
            case Raised(_) => s.db.idem == db.idem
            case _ => false
  {
    hide Enqueue, Release, Retire, WithDoneKey, Picked, Passed, Visible;
    KeyedEffect(db, c, id);
  }

  lemma StepKeepsKey(db: Db, c: Call, id: MemoryId, k: IdemKey)
    requires k in db.idem && (c.Collect? && k in c.keys ==> c.now <= db.idem[k].expiresAt)
    ensures k in Exec(db, c, id).db.idem && Exec(db, c, id).db.idem[k] == db.idem[k]
  {
    if !(c.Collect? && k in c.keys) {
      RowStays(db, c, id, k);
    }
  }

  lemma {:induction false} KeyStays(db: Db, log: seq<Event>, k: IdemKey)
    requires Faithful(db, log) && k in db.idem
    requires forall e | e in log && Collects(e, k) :: e.call.now <= db.idem[k].expiresAt
    ensures k in Replay(db, log).idem && Replay(db, log).idem[k] == db.idem[k]
  {
    hide Exec;
    if log != [] {
      var init, e := log[..|log| - 1], log[|log| - 1];
      KeyStays(db, init, k);
      assert e in log;
      StepKeepsKey(Replay(db, init), e.call, e.id, k);
    }
  }

  /** A row written under a key stands unchanged through every collection of the next seven days. */
  lemma {:induction false} KeyStaysSevenDays(db: Db, log: seq<Event>, i: nat, j: nat, k: IdemKey)
    requires Faithful(db, log) && i < j <= |log| && Keyed(log[i].call) && KeyFor(log[i].call) == k
    requires !log[i].outcome.Replayed? && !log[i].outcome.Raised?
    requires forall n | i < n < j && log[n].call.Collect? && k in log[n].call.keys :: log[n].call.now <= log[i].call.now + 604800
    ensures var before, after := Replay(db, log[..i + 1]), Replay(db, log[..j]);
            k in before.idem && k in after.idem && after.idem[k] == before.idem[k]
            && before.idem[k].expiresAt == log[i].call.now + 604800
  {
    hide Exec, Faithful, Replay;
    FaithfulAt(db, log, i);
    KeyRowWritten(Replay(db, log[..i]), log[i].call, log[i].id);
    var before, rest := log[..i + 1], log[i + 1..j];
    assert log[..j] == before + rest;
    FaithfulPrefix(db, log, j);
    ReplaySplit(db, before, rest);
    forall e | e in rest && Collects(e, k)
      ensures e.call.now <= log[i].call.now + 604800
    {
      var n :| 0 <= n < |rest| && rest[n] == e;
      assert e == log[i + 1 + n];
    }
    KeyStays(Replay(db, before), rest, k);
  }

  /** For seven days after a keyed call took effect, a call under that key replays its memory exactly
      when it is valid, asks for the same thing and the memory can still be seen; it is told the key
      is taken exactly when it asks for something else; and whatever it is told, it changes nothing. */
  lemma {:induction false} RetryDecided(db: Db, log: seq<Event>, i: nat, j: nat, k: IdemKey)
    requires WellFormed(db) && Faithful(db, log) && i < j < |log|
    requires forall n | i < n < j && log[n].call.Collect? && k in log[n].call.keys :: log[n].call.now <= log[i].call.now + 604800
    requires Keyed(log[i].call) && KeyFor(log[i].call) == k && (log[i].outcome.Created? || log[i].outcome.Revised?)
    requires Keyed(log[j].call) && KeyFor(log[j].call) == k
    ensures var before, c, o := Replay(db, log[..j]), log[j].call, log[j].outcome;
            var x := log[i].outcome.view.id;
            && Replay(db, log[..j + 1]) == before
            && (o.Replayed? <==> ArgumentsOk(c) && SameRequest(log[i].call, c) && Visible(before, c.project, x, c.now))
            && (o.Replayed? ==> o == Replayed(ViewOf(before, x)))
            && (o == Raised(KeyReused) <==> ArgumentsOk(c) && !SameRequest(log[i].call, c))
            && (o == Raised(MemoryNotFound) <==> ArgumentsOk(c) && SameRequest(log[i].call, c) && !Visible(before, c.project, x, c.now))
  {
    hide Exec, Faithful, Replay, WellFormed, Visible, ViewOf;
    KeyStaysSevenDays(db, log, i, j, k);
    FaithfulAt(db, log, i);
    FaithfulAt(db, log, j);
    RowWritten(Replay(db, log[..i]), log[i].call, log[i].id);
    FaithfulPrefix(db, log, j);
    RunWellFormed(db, log[..j]);
    KeyRowLength(Replay(db, log[..j]), k);
    RetryMeets(Replay(db, log[..j]), log[j].call, log[j].id, log[i].call, Landed(log[i].outcome));
  }

  lemma RetryMeets(db: Db, c: Call, id: MemoryId, first: Call, r: Response)
    requires Keyed(c) && Keyed(first) && KeyFor(c) in db.idem && KeyLengthOk(KeyFor(c).request)
    requires db.idem[KeyFor(c)] == DoneRow(first, r)
    ensures Exec(db, c, id) ==
            if !ArgumentsOk(c) then Step(db, Raised(ValidationFailed))
            else if !SameRequest(first, c) then Step(db, Raised(KeyReused))
            else if Visible(db, c.project, r.id, c.now) then Step(db, Replayed(ViewOf(db, r.id)))
            else Step(db, Raised(MemoryNotFound))
  {
    hide ArgumentsOk;
    assert SameRequest(first, c) <==> Print(first) == Print(c) && OperationOf(first) == OperationOf(c);
  }

  /** A collection takes the keys it names that had expired and the jobs it names that are dead and
      thirty days old, and nothing else. */
  lemma CollectedExactly(db: Db, c: Call, id: MemoryId)
    requires c.Collect?
    ensures var d := Exec(db, c, id).db;
            && d == db.(idem := d.idem, jobs := d.jobs)
            && (forall k :: k in d.idem <==> k in db.idem && (k in c.keys ==> c.now <= db.idem[k].expiresAt))
            && (forall k | k in d.idem :: d.idem[k] == db.idem[k])
            && (forall k :: k in d.jobs <==>
                  k in db.jobs && (k in c.dead && db.jobs[k].state == DEAD ==> c.now <= db.jobs[k].createdAt + 2592000))
            && (forall k | k in d.jobs :: d.jobs[k] == db.jobs[k])
  {
    var d := ExecCollect(db, c).db;
    assert Exec(db, c, id).db == d;
  }

  // ---- whole runs ------------------------------------------------------------

  /** What holds of every store that calls can lead to. */
  lemma {:induction false} EveryReachableStore(log: seq<Event>)
    requires Faithful(EMPTY, log)
    ensures var d := Replay(EMPTY, log);
            && (forall x | x in d.memories ::
                  var m := d.memories[x];
                  && 0 <= m.importance <= 100 && m.current >= 1
                  && (m.status == SUPERSEDED <==> m.supersededAt.Some?) && (m.status == DELETED <==> m.deletedAt.Some?)
                  && (m.status == SUPERSEDED <==> m.supersededBy.Some?)
                  && (m.supersededBy.Some? ==>
                        m.supersededBy.value != x && m.supersededBy.value in d.memories
                        && d.memories[m.supersededBy.value].project == m.project)
                  && (m.kind == TASK ==> m.expiresAt.Some?)
                  && (forall n: nat :: RevKey(x, n) in d.revisions <==> 1 <= n <= m.current))
            && (forall k | k in d.revisions ::
                  && k.id in d.memories && d.revisions[k].project == d.memories[k.id].project
                  && (d.revisions[k].isCurrent <==> k.no == d.memories[k.id].current)
                  && 1 <= |d.revisions[k].content| <= 8192 && |d.revisions[k].tags| <= 16)
            && (forall k | k in d.dedup :: d.dedup[k] in d.memories && d.memories[d.dedup[k]].status == ACTIVE)
            && (forall x | x in d.memories && d.memories[x].status == ACTIVE ::
                  var k := DedupKey(d.memories[x].project, 1, d.revisions[RevKey(x, 1)].digest);
                  k in d.dedup && d.dedup[k] == x)
            && (forall k | k in d.idem :: 8 <= |k.request| <= 128 && (d.idem[k].state == COMPLETED <==> d.idem[k].response.Some?))
            && (forall k | k in d.jobs ::
                  && RevKey(k.id, k.no) in d.revisions && d.jobs[k].attempts <= 5
                  && (d.jobs[k].state == DEAD <==> d.jobs[k].attempts == 5)
                  && (k in d.vectors <==> d.jobs[k].state == DONE))
            && (forall k | k in d.vectors :: k in d.jobs && d.vectors[k] == d.revisions[RevKey(k.id, k.no)].content)
  {
    hide Replay, Faithful;
    EmptyWellFormed();
    RunWellFormed(EMPTY, log);
    var d := Replay(EMPTY, log);
    MemoriesSay(d);
    RevisionsSay(d);
    KeysSay(d);
    JobsSay(d);
  }

  lemma MemoriesSay(d: Db)
    requires WellFormed(d)
    ensures forall x | x in d.memories ::
              var m := d.memories[x];
              && 0 <= m.importance <= 100 && m.current >= 1
              && (m.status == SUPERSEDED <==> m.supersededAt.Some?) && (m.status == DELETED <==> m.deletedAt.Some?)
              && (m.status == SUPERSEDED <==> m.supersededBy.Some?)
              && (m.supersededBy.Some? ==>
                    m.supersededBy.value != x && m.supersededBy.value in d.memories
                    && d.memories[m.supersededBy.value].project == m.project)
              && (m.kind == TASK ==> m.expiresAt.Some?)
  {
    hide RevisionsOk, DedupOk, IdemOk, JobsOk;
    forall x | x in d.memories
      ensures RowChecks(x, d.memories[x]) && SuccessorOk(d.memories, d.birth, x)
    {
    }
  }

  lemma RevisionsSay(d: Db)
    requires WellFormed(d)
    ensures forall x | x in d.memories :: forall n: nat :: RevKey(x, n) in d.revisions <==> 1 <= n <= d.memories[x].current
    ensures forall k | k in d.revisions ::
              && k.id in d.memories && d.revisions[k].project == d.memories[k.id].project
              && (d.revisions[k].isCurrent <==> k.no == d.memories[k.id].current)
              && 1 <= |d.revisions[k].content| <= 8192 && |d.revisions[k].tags| <= 16
  {
    hide MemoriesOk, DedupOk, IdemOk, JobsOk;
    forall k | k in d.revisions
      ensures RevisionOk(d.memories, k, d.revisions[k])
    {
    }
    forall x, n: nat | x in d.memories
      ensures RevKey(x, n) in d.revisions <==> 1 <= n <= d.memories[x].current
    {
      assert Gapless(d.revisions, x, d.memories[x].current);
      assert RevKey(x, n) in d.revisions ==> RevisionOk(d.memories, RevKey(x, n), d.revisions[RevKey(x, n)]);
    }
  }

  lemma KeysSay(d: Db)
    requires WellFormed(d)
    ensures forall k | k in d.dedup :: d.dedup[k] in d.memories && d.memories[d.dedup[k]].status == ACTIVE
    ensures forall x | x in d.memories && d.memories[x].status == ACTIVE ::
              && RevKey(x, 1) in d.revisions
              && var k := DedupKey(d.memories[x].project, 1, d.revisions[RevKey(x, 1)].digest);
                 k in d.dedup && d.dedup[k] == x
    ensures forall k | k in d.idem :: 8 <= |k.request| <= 128 && (d.idem[k].state == COMPLETED <==> d.idem[k].response.Some?)
  {
    hide JobsOk;
    forall x | x in d.memories && d.memories[x].status == ACTIVE
      ensures RevKey(x, 1) in d.revisions
      ensures OwnKey(d.memories, d.revisions, x, DedupKey(d.memories[x].project, 1, d.revisions[RevKey(x, 1)].digest))
    {
      assert RowChecks(x, d.memories[x]) && Gapless(d.revisions, x, d.memories[x].current);
    }
    forall k | k in d.dedup
      ensures OwnKey(d.memories, d.revisions, d.dedup[k], k)
    {
    }
  }

  lemma JobsSay(d: Db)
    requires WellFormed(d)
    ensures forall k | k in d.jobs ::
              && RevKey(k.id, k.no) in d.revisions && d.jobs[k].attempts <= 5
              && (d.jobs[k].state == DEAD <==> d.jobs[k].attempts == 5)
              && (k in d.vectors <==> d.jobs[k].state == DONE)
    ensures forall k | k in d.vectors ::
              k in d.jobs && RevKey(k.id, k.no) in d.revisions && d.vectors[k] == d.revisions[RevKey(k.id, k.no)].content
  {
    hide MemoriesOk, RevisionsOk, DedupOk, IdemOk;
    forall k | k in d.jobs
      ensures JobOk(d.revisions, k, d.jobs[k])
    {
    }
    forall k | k in d.vectors
      ensures VectorOk(d.revisions, k, d.vectors[k])
    {
    }
  }
}
