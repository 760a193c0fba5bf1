/** Every committed step keeps the store well formed. */
module Invariants {
  import opened Basics
  import opened Schema
  import opened Calls
  import Sorting

  lemma EmptyWellFormed()
    ensures WellFormed(EMPTY)
  {
  }

  // ---- the key table ---------------------------------------------------------

  predicate Granted(db: Db, c: Call)
    requires c.Remember? || c.Revise?
  {
    Judge(db, c) == Claimed || Judge(db, c) == Unkeyed
  }

  lemma OpenKeyOk(db: Db, c: Call)
    requires IdemOk(db.idem, db.birth) && (c.Remember? || c.Revise?) && Granted(db, c)
    ensures IdemOk(WithOpenKey(db, c).idem, db.birth)
  {
    if c.key.Some? {
      StripTwice(c.key.value);
    }
  }

  lemma DoneKeyOk(db: Db, c: Call, r: Response, birth: map<MemoryId, nat>)
    requires IdemOk(db.idem, db.birth) && (c.Remember? || c.Revise?) && Granted(db, c)
    requires db.birth.Keys <= birth.Keys && r.id in birth
    ensures IdemOk(WithDoneKey(db.idem, c, r), birth)
  {
    if c.key.Some? {
      StripTwice(c.key.value);
    }
  }

  lemma EnqueueOk(revisions: map<RevKey, Revision>, jobs: map<JobKey, Job>, vectors: map<JobKey, string>,
                  c: Call, x: MemoryId, no: nat)
    requires JobsOk(revisions, jobs, vectors) && (c.Remember? || c.Revise?)
    requires RevKey(x, no) in revisions && revisions[RevKey(x, no)].project == c.project
    ensures JobsOk(revisions, Enqueue(jobs, c, x, no), vectors)
  {
  }

  /** Jobs and vectors look only at the project and the text of the revisions they name. */
  lemma JobsFrame(before: map<RevKey, Revision>, after: map<RevKey, Revision>,
                  jobs: map<JobKey, Job>, vectors: map<JobKey, string>)
    requires JobsOk(before, jobs, vectors)
    requires forall k | k in before :: k in after && after[k].project == before[k].project
                                       && after[k].content == before[k].content
    ensures JobsOk(after, jobs, vectors)
  {
    forall k | k in jobs
      ensures JobOk(after, k, jobs[k])
    {
      assert JobOk(before, k, jobs[k]);
    }
    forall k | k in vectors
      ensures VectorOk(after, k, vectors[k])
    {
      assert VectorOk(before, k, vectors[k]);
    }
  }

  /** Revisions look only at the project and the current number of their memory. */
  lemma RevisionsFrame(before: map<MemoryId, Memory>, after: map<MemoryId, Memory>, revisions: map<RevKey, Revision>)
    requires RevisionsOk(before, revisions) && after.Keys == before.Keys
    requires forall x | x in before :: after[x].project == before[x].project && after[x].current == before[x].current
    ensures RevisionsOk(after, revisions)
  {
    forall k | k in revisions
      ensures RevisionOk(after, k, revisions[k])
    {
      assert RevisionOk(before, k, revisions[k]);
    }
    forall x | x in after
      ensures Gapless(revisions, x, after[x].current)
    {
      assert Gapless(revisions, x, before[x].current);
    }
  }

  /** Retiring active memories and deleting their keys keeps the one-to-one correspondence. */
  lemma ReleaseOk(before: map<MemoryId, Memory>, after: map<MemoryId, Memory>, revisions: map<RevKey, Revision>,
                  dedup: map<DedupKey, MemoryId>, project: ProjectId, gone: set<MemoryId>)
    requires DedupOk(before, revisions, dedup) && after.Keys == before.Keys
    requires forall x | x in gone :: Retirable(before, project, x)
    requires forall x | x in before :: if x in gone then after[x].status != ACTIVE else after[x] == before[x]
    ensures DedupOk(after, revisions, Release(dedup, project, gone))
  {
    var d := Release(dedup, project, gone);
    forall k | k in d
      ensures OwnKey(after, revisions, d[k], k)
    {
      assert OwnKey(before, revisions, dedup[k], k);
    }
    forall x, k | OwnKey(after, revisions, x, k)
      ensures k in d && d[k] == x
    {
      assert OwnKey(before, revisions, x, k);
    }
  }

  // ---- remember --------------------------------------------------------------

  lemma CreateKeepsMemories(db: Db, c: Call, id: MemoryId)
    requires MemoriesOk(db.memories, db.birth) && c.Remember? && ArgumentsOk(c) && id !in db.birth
    ensures var d := CreateWith(db, c, id, Losers(db.memories, c, id)); MemoriesOk(d.memories, d.birth)
  {
    var gone := Losers(db.memories, c, id);
    var ms := Retire(db.memories, gone, id, c.now)[id := NewRow(c)];
    var birth := db.birth[id := |db.birth|];
    assert |birth| == |db.birth| + 1;
    forall x | x in ms
      ensures RowChecks(x, ms[x]) && x in birth && SuccessorOk(ms, birth, x)
    {
      if x != id {
        assert RowChecks(x, db.memories[x]) && SuccessorOk(db.memories, db.birth, x);
      }
    }
  }

  /** One more memory with one revision. */
  lemma RevisionsAdd(ms: map<MemoryId, Memory>, revisions: map<RevKey, Revision>, id: MemoryId, m: Memory, r: Revision)
    requires RevisionsOk(ms, revisions) && id !in ms && m.current == 1
    requires r.project == m.project && r.isCurrent && TextOk(r.content, r.tags)
    ensures RevisionsOk(ms[id := m], revisions[RevKey(id, 1) := r])
  {
    var ms', rs := ms[id := m], revisions[RevKey(id, 1) := r];
    forall k | k in rs
      ensures RevisionOk(ms', k, rs[k])
    {
      if k != RevKey(id, 1) {
        assert RevisionOk(ms, k, revisions[k]);
      }
    }
    forall x | x in ms'
      ensures Gapless(rs, x, ms'[x].current)
    {
      if x != id {
        assert Gapless(revisions, x, ms[x].current);
      }
    }
  }

  lemma CreateKeepsRevisions(db: Db, c: Call, id: MemoryId, gone: set<MemoryId>)
    requires RevisionsOk(db.memories, db.revisions) && c.Remember? && ArgumentsOk(c) && id !in db.memories
    ensures var d := CreateWith(db, c, id, gone); RevisionsOk(d.memories, d.revisions)
  {
    hide RevisionsOk;
    var ms := Retire(db.memories, gone, id, c.now);
    RevisionsFrame(db.memories, ms, db.revisions);
    RevisionsAdd(ms, db.revisions, id, NewRow(c), NewRevision(c));
  }

  lemma CreateKeepsDedup(db: Db, c: Call, id: MemoryId)
    requires DedupOk(db.memories, db.revisions, db.dedup) && c.Remember?
    requires id !in db.memories && DedupKeyFor(c) !in db.dedup
    ensures var d := CreateWith(db, c, id, Losers(db.memories, c, id)); DedupOk(d.memories, d.revisions, d.dedup)
  {
    var gone := Losers(db.memories, c, id);
    var ms := Retire(db.memories, gone, id, c.now);
    var keys := Release(db.dedup, c.project, gone);
    ReleaseOk(db.memories, ms, db.revisions, db.dedup, c.project, gone);
    var d := CreateWith(db, c, id, gone);
    forall k | k in d.dedup
      ensures OwnKey(d.memories, d.revisions, d.dedup[k], k)
    {
      if k != DedupKeyFor(c) {
        assert OwnKey(ms, db.revisions, keys[k], k);
      }
    }
    forall x, k | OwnKey(d.memories, d.revisions, x, k)
      ensures k in d.dedup && d.dedup[k] == x
    {
      if x != id {
        assert OwnKey(ms, db.revisions, x, k);
        assert k in db.dedup;
      }
    }
  }

  lemma CreateWellFormed(db: Db, c: Call, id: MemoryId)
    requires WellFormed(db) && c.Remember? && ArgumentsOk(c) && id !in db.birth
    requires Granted(db, c) && DedupKeyFor(c) !in db.dedup
    ensures WellFormed(CreateWith(db, c, id, Losers(db.memories, c, id)))
  {
    var gone := Losers(db.memories, c, id);
    var d := CreateWith(db, c, id, gone);
    CreateKeepsMemories(db, c, id);
    CreateKeepsRevisions(db, c, id, gone);
    CreateKeepsDedup(db, c, id);
    DoneKeyOk(db, c, Response(id, 1), d.birth);
    FreshHasNoRevisions(db, id);
    JobsFrame(db.revisions, d.revisions, db.jobs, db.vectors);
    EnqueueOk(d.revisions, db.jobs, db.vectors, c, id, 1);
  }

  lemma FreshHasNoRevisions(db: Db, id: MemoryId)
    requires WellFormed(db) && id !in db.birth
    ensures id !in db.memories && forall n :: RevKey(id, n) !in db.revisions
  {
    assert forall n :: RevKey(id, n) in db.revisions ==> RevisionOk(db.memories, RevKey(id, n), db.revisions[RevKey(id, n)]);
  }

  // ---- revise ----------------------------------------------------------------

  lemma ReviseKeepsMemories(db: Db, c: Call)
    requires MemoriesOk(db.memories, db.birth) && c.Revise? && c.target in db.memories
    ensures MemoriesOk(ReviseWith(db, c).memories, db.birth)
  {
    var d := ReviseWith(db, c);
    forall x | x in d.memories
      ensures RowChecks(x, d.memories[x]) && x in db.birth && SuccessorOk(d.memories, db.birth, x)
    {
      assert RowChecks(x, db.memories[x]) && SuccessorOk(db.memories, db.birth, x);
    }
  }

  lemma ReviseKeepsRevisions(db: Db, c: Call)
    requires RevisionsOk(db.memories, db.revisions) && c.Revise? && ArgumentsOk(c)
    requires Retirable(db.memories, c.project, c.target)
    ensures var d := ReviseWith(db, c); RevisionsOk(d.memories, d.revisions)
  {
    var d := ReviseWith(db, c);
    forall k | k in d.revisions
      ensures RevisionOk(d.memories, k, d.revisions[k])
    {
      if k in db.revisions {
        assert RevisionOk(db.memories, k, db.revisions[k]);
      }
    }
    forall x | x in d.memories
      ensures Gapless(d.revisions, x, d.memories[x].current)
    {
      assert Gapless(db.revisions, x, db.memories[x].current);
    }
  }

  lemma ReviseKeepsDedup(db: Db, c: Call)
    requires WellFormed(db) && c.Revise? && Retirable(db.memories, c.project, c.target)
    ensures var d := ReviseWith(db, c); DedupOk(d.memories, d.revisions, db.dedup)
  {
    var d := ReviseWith(db, c);
    var n := db.memories[c.target].current;
    assert n >= 1 by {
      assert RowChecks(c.target, db.memories[c.target]);
    }
    forall x, k
      ensures OwnKey(d.memories, d.revisions, x, k) <==> OwnKey(db.memories, db.revisions, x, k)
    {
      assert Gapless(db.revisions, c.target, n);
      assert RevKey(x, 1) in db.revisions ==> d.revisions[RevKey(x, 1)].digest == db.revisions[RevKey(x, 1)].digest;
    }
  }

  lemma ReviseKeepsJobs(db: Db, c: Call)
    requires RevisionsOk(db.memories, db.revisions) && JobsOk(db.revisions, db.jobs, db.vectors)
    requires c.Revise? && Retirable(db.memories, c.project, c.target)
    ensures var d := ReviseWith(db, c); JobsOk(d.revisions, d.jobs, d.vectors)
  {
    var d := ReviseWith(db, c);
    var n := db.memories[c.target].current;
    assert RevKey(c.target, n + 1) !in db.revisions by {
      assert RevKey(c.target, n + 1) in db.revisions ==>
          RevisionOk(db.memories, RevKey(c.target, n + 1), db.revisions[RevKey(c.target, n + 1)]);
    }
    JobsFrame(db.revisions, d.revisions, db.jobs, db.vectors);
    EnqueueOk(d.revisions, db.jobs, db.vectors, c, c.target, n + 1);
  }

  lemma ReviseWellFormed(db: Db, c: Call)
    requires WellFormed(db) && c.Revise? && ArgumentsOk(c) && Granted(db, c)
    requires CasMatches(db.memories, c.project, c.target, c.expected)
    ensures WellFormed(ReviseWith(db, c))
  {
    ReviseKeepsMemories(db, c);
    ReviseKeepsRevisions(db, c);
    ReviseKeepsDedup(db, c);
    ReviseKeepsJobs(db, c);
    assert c.target in db.birth by {
      assert RowChecks(c.target, db.memories[c.target]);
    }
    DoneKeyOk(db, c, Response(c.target, db.memories[c.target].current + 1), db.birth);
  }

  // ---- forget, purge ---------------------------------------------------------

  lemma ForgetWellFormed(db: Db, project: ProjectId, x: MemoryId, now: Time)
    requires WellFormed(db) && Retirable(db.memories, project, x)
    ensures WellFormed(ForgetWith(db, project, x, now))
  {
    var d := ForgetWith(db, project, x, now);
    forall y | y in d.memories
      ensures RowChecks(y, d.memories[y]) && y in db.birth && SuccessorOk(d.memories, db.birth, y)
    {
      assert RowChecks(y, db.memories[y]) && SuccessorOk(db.memories, db.birth, y);
    }
    RevisionsFrame(db.memories, d.memories, db.revisions);
    ReleaseOk(db.memories, d.memories, db.revisions, db.dedup, project, {x});
  }

  lemma PurgeKeepsMemories(db: Db, x: MemoryId, now: Time)
    requires MemoriesOk(db.memories, db.birth)
    ensures MemoriesOk(PurgeWith(db, x, now).memories, db.birth)
  {
    var ms := PurgeWith(db, x, now).memories;
    forall y | y in ms
      ensures RowChecks(y, ms[y]) && y in db.birth && SuccessorOk(ms, db.birth, y)
    {
      assert RowChecks(y, db.memories[y]) && SuccessorOk(db.memories, db.birth, y);
    }
  }

  lemma PurgeKeepsRevisions(db: Db, x: MemoryId, now: Time)
    requires RevisionsOk(db.memories, db.revisions)
    ensures var d := PurgeWith(db, x, now); RevisionsOk(d.memories, d.revisions)
  {
    var d := PurgeWith(db, x, now);
    forall k | k in d.revisions
      ensures RevisionOk(d.memories, k, d.revisions[k])
    {
      assert RevisionOk(db.memories, k, db.revisions[k]);
    }
    forall y | y in d.memories
      ensures Gapless(d.revisions, y, d.memories[y].current)
    {
      assert Gapless(db.revisions, y, db.memories[y].current);
    }
  }

  lemma PurgeKeepsDedup(db: Db, x: MemoryId, now: Time)
    requires WellFormed(db)
    ensures var d := PurgeWith(db, x, now); DedupOk(d.memories, d.revisions, d.dedup)
  {
    var d := PurgeWith(db, x, now);
    forall k | k in d.dedup
      ensures OwnKey(d.memories, d.revisions, d.dedup[k], k)
    {
      var y := db.dedup[k];
      assert OwnKey(db.memories, db.revisions, y, k) && SuccessorOk(db.memories, db.birth, y);
    }
    forall y, k | OwnKey(d.memories, d.revisions, y, k)
      ensures k in d.dedup && d.dedup[k] == y
    {
      assert OwnKey(db.memories, db.revisions, y, k);
    }
  }

  lemma PurgeKeepsJobs(db: Db, x: MemoryId, now: Time)
    requires JobsOk(db.revisions, db.jobs, db.vectors)
    ensures var d := PurgeWith(db, x, now); JobsOk(d.revisions, d.jobs, d.vectors)
  {
    var d := PurgeWith(db, x, now);
    forall k | k in d.jobs
      ensures JobOk(d.revisions, k, d.jobs[k])
    {
      assert JobOk(db.revisions, k, db.jobs[k]);
    }
    forall k | k in d.vectors
      ensures VectorOk(d.revisions, k, d.vectors[k])
    {
      assert VectorOk(db.revisions, k, db.vectors[k]);
    }
  }

  lemma PurgeWellFormed(db: Db, x: MemoryId, now: Time)
    requires WellFormed(db)
    ensures WellFormed(PurgeWith(db, x, now))
  {
    PurgeKeepsMemories(db, x, now);
    PurgeKeepsRevisions(db, x, now);
    PurgeKeepsDedup(db, x, now);
    PurgeKeepsJobs(db, x, now);
  }

  // ---- embed -----------------------------------------------------------------

  lemma DeferredOk(j: Job, now: Time)
    requires JobChecks(j) && j.state == PENDING
    ensures JobChecks(Deferred(j, now)) && Deferred(j, now).state != DONE
    ensures Deferred(j, now).project == j.project
  {
  }

  lemma EmbedWellFormed(db: Db, c: Call, id: MemoryId)
    requires WellFormed(db) && c.Embed? && Admissible(db, c, id)
    ensures WellFormed(ExecEmbed(db, c).db)
  {
    var d := ExecEmbed(db, c).db;
    forall k | k in d.jobs
      ensures JobOk(d.revisions, k, d.jobs[k])
      ensures k in c.batch && !c.ok ==> d.jobs[k].state != DONE
    {
      assert JobOk(db.revisions, k, db.jobs[k]);
      if k in c.batch {
        DeferredOk(db.jobs[k], c.now);
      }
    }
    forall k
      ensures k in d.vectors <==> k in d.jobs && d.jobs[k].state == DONE
    {
      assert k in c.batch ==> JobOk(db.revisions, k, db.jobs[k]);
    }
    forall k | k in d.vectors
      ensures VectorOk(d.revisions, k, d.vectors[k])
    {
      if k in db.vectors {
        assert VectorOk(db.revisions, k, db.vectors[k]);
      }
    }
  }

  // ---- every call ------------------------------------------------------------

  lemma RememberWellFormed(db: Db, c: Call, id: MemoryId)
    requires WellFormed(db) && c.Remember? && ArgumentsOk(c) && Granted(db, c) && id !in db.birth
    ensures WellFormed(ExecRemember(db, c, id).db)
  {
    if DedupKeyFor(c) in db.dedup {
      OpenKeyOk(db, c);
    } else {
      CreateWellFormed(db, c, id);
    }
  }

  lemma ReviseStepWellFormed(db: Db, c: Call)
    requires WellFormed(db) && c.Revise? && ArgumentsOk(c) && Granted(db, c)
    ensures WellFormed(ExecRevise(db, c).db)
  {
    if CasMatches(db.memories, c.project, c.target, c.expected) {
      ReviseWellFormed(db, c);
    } else {
      OpenKeyOk(db, c);
    }
  }

  lemma KeyedWellFormed(db: Db, c: Call, id: MemoryId)
    requires WellFormed(db) && Admissible(db, c, id) && (c.Remember? || c.Revise?)
    ensures WellFormed(ExecKeyed(db, c, id).db)
  {
    if ArgumentsOk(c) && Granted(db, c) {
      if c.Remember? {
        RememberWellFormed(db, c, id);
        assert ExecKeyed(db, c, id) == ExecRemember(db, c, id);
      } else {
        ReviseStepWellFormed(db, c);
        assert ExecKeyed(db, c, id) == ExecRevise(db, c);
      }
    } else {
      assert ExecKeyed(db, c, id).db == db;
    }
  }

  /** Whatever call runs next, and whether it succeeds, conflicts, is deduplicated,
      replayed or refused, the committed store satisfies every constraint afterwards. */
  lemma StepWellFormed(db: Db, c: Call, id: MemoryId)
    requires WellFormed(db) && Admissible(db, c, id)
    ensures WellFormed(Exec(db, c, id).db)
  {
    if c.Remember? || c.Revise? {
      KeyedWellFormed(db, c, id);
    } else if c.Forget? {
      if Retirable(db.memories, c.project, c.target) {
        ForgetWellFormed(db, c.project, c.target, c.now);
      }
    } else if c.Purge? {
      PurgeWellFormed(db, c.target, c.now);
    } else if c.Embed? {
      EmbedWellFormed(db, c, id);
    }
  }
}
