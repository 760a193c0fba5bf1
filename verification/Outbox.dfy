/** The embedding outbox: workers claiming disjoint batches of jobs, with bounded retries,
    crashes that roll back, and writers, collection and purges going on beside them. */
module Outbox {
  import opened Basics
  import opened Schema
  import opened Calls

  type Worker = nat

  /** One open worker transaction: the rows it holds locked and the clock it started at. */
  datatype Batch = Batch(model: Model, rows: seq<JobKey>, now: Time)

  datatype Pool = Pool(
    revisions: map<RevKey, Revision>,
    jobs: map<JobKey, Job>,
    vectors: map<JobKey, string>,
    claims: map<Worker, Batch>)

  datatype Move =
    | Write(key: RevKey, revision: Revision, model: Option<Model>, now: Time)
    | Claim(worker: Worker, batch: Batch, size: nat)
    | Embedded(worker: Worker)
    | Failed(worker: Worker)
    | Crash(worker: Worker)
    | Sweep(dead: set<JobKey>, now: Time)
    | Erase(id: MemoryId)

  // ---- claiming --------------------------------------------------------------

  ghost predicate Locked(claims: map<Worker, Batch>, k: JobKey) {
    exists w :: w in claims && k in claims[w].rows
  }

  /** A row the claiming query can return: pending, of this model, due and held by nobody. */
  predicate Claimable(jobs: map<JobKey, Job>, held: set<JobKey>, model: Model, now: Time, k: JobKey) {
    && k in jobs && jobs[k].state == PENDING && k.model == model
    && jobs[k].nextAttemptAt <= now && k !in held
  }

  ghost function Held(claims: map<Worker, Batch>): set<JobKey> {
    set w, k | w in claims && k in claims[w].rows :: k
  }

  /** What the query may answer: distinct claimable rows, earliest first, none passed over
      for a later one, and fewer than asked for only when there are no more. */
  ghost predicate Answers(jobs: map<JobKey, Job>, held: set<JobKey>, model: Model, now: Time, size: nat, rows: seq<JobKey>) {
    && |rows| <= size
    && (forall i | 0 <= i < |rows| ::
          && rows[i] in jobs && jobs[rows[i]].state == PENDING && rows[i].model == model
          && jobs[rows[i]].nextAttemptAt <= now && rows[i] !in held)
    && (forall i, j | 0 <= i < j < |rows| ::
          rows[i] != rows[j] && jobs[rows[i]].nextAttemptAt <= jobs[rows[j]].nextAttemptAt)
    && (forall k | k in jobs && jobs[k].state == PENDING && k.model == model && jobs[k].nextAttemptAt <= now && k !in held && k !in rows ::
          |rows| == size && forall i | 0 <= i < |rows| :: jobs[rows[i]].nextAttemptAt <= jobs[k].nextAttemptAt)
  }

  function Keys(rows: seq<JobKey>): set<JobKey> {
    set k | k in rows
  }

  // ---- the machine -----------------------------------------------------------

  ghost predicate Enabled(p: Pool, m: Move) {
    match m
    case Write(k, _, _, _) => k !in p.revisions
    case Claim(w, b, size) =>
      w !in p.claims && b.rows != [] && Answers(p.jobs, Held(p.claims), b.model, b.now, size, b.rows)
    case Embedded(w) => w in p.claims
    case Failed(w) => w in p.claims
    case Crash(w) => w in p.claims
    case Sweep(_, _) => true
    case Erase(x) => forall k | k in p.jobs && k.id == x :: !Locked(p.claims, k)
  }

  function Finish(p: Pool, w: Worker, ok: bool): Pool
    requires w in p.claims
  {
    var b := p.claims[w];
    Pool(p.revisions,
         AfterBatch(p.jobs, Keys(b.rows), ok, b.now),
         StoredVectors(p.vectors, p.revisions, Keys(b.rows), ok),
         p.claims - {w})
  }

  function Fresh(project: ProjectId, now: Time): Job {
    Job(project, PENDING, 0, now, now)
  }

  ghost function Apply(p: Pool, m: Move): Pool
    requires Enabled(p, m)
  {
    match m
    case Write(k, r, model, now) =>
      p.(revisions := p.revisions[k := r],
         jobs := if model.None? then p.jobs else p.jobs[JobKey(k.id, k.no, model.value) := Fresh(r.project, now)])
    case Claim(w, b, _) => p.(claims := p.claims[w := b])
    case Embedded(w) => Finish(p, w, true)
    case Failed(w) => Finish(p, w, false)
    case Crash(w) => p.(claims := p.claims - {w})
    case Sweep(dead, now) =>
      p.(jobs := map k | k in p.jobs && !(k in dead && JobCollectable(p.jobs[k], now)) :: p.jobs[k])
    case Erase(x) =>
      p.(revisions := (map k | k in p.revisions && k.id != x :: p.revisions[k]),
         jobs := (map k | k in p.jobs && k.id != x :: p.jobs[k]),
         vectors := (map k | k in p.vectors && k.id != x :: p.vectors[k]))
  }

  ghost predicate ValidRun(p: Pool, run: seq<Move>)
    decreases |run|, 0
  {
    run == [] || (ValidRun(p, run[..|run| - 1]) && Enabled(After(p, run[..|run| - 1]), run[|run| - 1]))
  }

  ghost function After(p: Pool, run: seq<Move>): Pool
    requires ValidRun(p, run)
    decreases |run|, 1
  {
    if run == [] then p else Apply(After(p, run[..|run| - 1]), run[|run| - 1])
  }

  // ---- the invariant ---------------------------------------------------------

  /** Seconds of back-off a job has been through after n failures. */
  function Waited(n: nat): Time {
    if n == 0 then 0 else Waited(n - 1) + Backoff(n)
  }

  ghost predicate Patient(jobs: map<JobKey, Job>) {
    forall k | k in jobs && jobs[k].state == PENDING :: jobs[k].nextAttemptAt >= jobs[k].createdAt + Waited(jobs[k].attempts)
  }

  /** A claimed row stays what it was when it was claimed, and nobody else holds it. */
  ghost predicate ClaimOk(jobs: map<JobKey, Job>, b: Batch) {
    && b.rows != []
    && (forall i | 0 <= i < |b.rows| ::
          && b.rows[i] in jobs && jobs[b.rows[i]].state == PENDING
          && jobs[b.rows[i]].nextAttemptAt <= b.now && b.rows[i].model == b.model)
    && (forall i, j | 0 <= i < j < |b.rows| :: b.rows[i] != b.rows[j])
  }

  ghost predicate ClaimsOk(jobs: map<JobKey, Job>, claims: map<Worker, Batch>) {
    && (forall w | w in claims :: ClaimOk(jobs, claims[w]))
    && (forall v, w | v in claims && w in claims && v != w :: Keys(claims[v].rows) !! Keys(claims[w].rows))
  }

  ghost predicate PoolOk(p: Pool) {
    JobsOk(p.revisions, p.jobs, p.vectors) && ClaimsOk(p.jobs, p.claims) && Patient(p.jobs)
  }

  lemma WriteIsNew(p: Pool, m: Move)
    requires JobsOk(p.revisions, p.jobs, p.vectors) && m.Write? && Enabled(p, m)
    ensures forall k | k in p.jobs :: RevKey(k.id, k.no) != m.key
    ensures m.model.Some? ==> JobKey(m.key.id, m.key.no, m.model.value) !in p.jobs
  {
    forall k | k in p.jobs
      ensures RevKey(k.id, k.no) != m.key
    {
      assert JobOk(p.revisions, k, p.jobs[k]);
    }
  }

  lemma WriteKeepsJobs(p: Pool, m: Move)
    requires JobsOk(p.revisions, p.jobs, p.vectors) && m.Write? && Enabled(p, m)
    ensures var q := Apply(p, m); JobsOk(q.revisions, q.jobs, q.vectors)
  {
    var q := Apply(p, m);
    WriteIsNew(p, m);
    forall k | k in q.jobs
      ensures JobOk(q.revisions, k, q.jobs[k])
    {
      assert k in p.jobs ==> JobOk(p.revisions, k, p.jobs[k]);
    }
    forall k | k in q.vectors
      ensures VectorOk(q.revisions, k, q.vectors[k])
    {
      assert VectorOk(p.revisions, k, p.vectors[k]);
    }
  }

  lemma WriteKeeps(p: Pool, m: Move)
    requires PoolOk(p) && m.Write? && Enabled(p, m)
    ensures PoolOk(Apply(p, m))
  {
    hide JobsOk;
    var q := Apply(p, m);
    WriteKeepsJobs(p, m);
    WriteIsNew(p, m);
    forall w | w in q.claims
      ensures ClaimOk(q.jobs, p.claims[w])
    {
      assert ClaimOk(p.jobs, p.claims[w]);
    }
  }

  lemma ClaimKeeps(p: Pool, m: Move)
    requires PoolOk(p) && m.Claim? && Enabled(p, m)
    ensures PoolOk(Apply(p, m))
  {
    forall w | w in p.claims
      ensures Keys(p.claims[w].rows) !! Keys(m.batch.rows)
    {
      assert forall k | k in m.batch.rows :: k !in Held(p.claims);
      assert forall k | k in p.claims[w].rows :: Locked(p.claims, k);
    }
  }

  lemma ReleaseKeeps(jobs: map<JobKey, Job>, claims: map<Worker, Batch>, w: Worker)
    requires ClaimsOk(jobs, claims)
    ensures ClaimsOk(jobs, claims - {w})
  {
  }

  lemma FinishKeepsJobs(p: Pool, w: Worker, ok: bool)
    requires JobsOk(p.revisions, p.jobs, p.vectors) && w in p.claims && ClaimOk(p.jobs, p.claims[w])
    ensures JobsOk(p.revisions, Finish(p, w, ok).jobs, Finish(p, w, ok).vectors)
  {
    var q, b := Finish(p, w, ok), p.claims[w];
    assert ClaimOk(p.jobs, b);
    forall k | k in q.jobs
      ensures JobOk(q.revisions, k, q.jobs[k])
      ensures k in Keys(b.rows) ==> p.jobs[k].state == PENDING
    {
      assert JobOk(p.revisions, k, p.jobs[k]);
    }
    forall k | k in q.vectors
      ensures VectorOk(q.revisions, k, q.vectors[k]) && k in q.jobs && q.jobs[k].state == DONE
    {
      if k in p.vectors {
        assert VectorOk(p.revisions, k, p.vectors[k]);
      }
    }
  }

  lemma FinishKeepsClaims(p: Pool, w: Worker, ok: bool)
    requires PoolOk(p) && w in p.claims
    ensures ClaimsOk(Finish(p, w, ok).jobs, Finish(p, w, ok).claims)
  {
    var q, b := Finish(p, w, ok), p.claims[w];
    forall v | v in q.claims
      ensures ClaimOk(q.jobs, q.claims[v])
    {
      assert ClaimOk(p.jobs, p.claims[v]);
      assert Keys(p.claims[v].rows) !! Keys(b.rows);
      forall i | 0 <= i < |q.claims[v].rows|
        ensures q.claims[v].rows[i] !in Keys(b.rows)
      {
        assert q.claims[v].rows[i] in Keys(p.claims[v].rows);
      }
    }
  }

  lemma FinishKeepsPatience(p: Pool, w: Worker, ok: bool)
    requires PoolOk(p) && w in p.claims
    ensures Patient(Finish(p, w, ok).jobs)
  {
    var q, b := Finish(p, w, ok), p.claims[w];
    assert ClaimOk(p.jobs, b);
    forall k | k in q.jobs && q.jobs[k].state == PENDING
      ensures q.jobs[k].nextAttemptAt >= q.jobs[k].createdAt + Waited(q.jobs[k].attempts)
    {
      if k in Keys(b.rows) {
        var i :| 0 <= i < |b.rows| && b.rows[i] == k;
        assert p.jobs[k].nextAttemptAt <= b.now;
      }
    }
  }

  lemma SweepKeeps(p: Pool, m: Move)
    requires PoolOk(p) && m.Sweep? && Enabled(p, m)
    ensures PoolOk(Apply(p, m))
  {
    var q := Apply(p, m);
    assert forall k | k in p.jobs && k !in q.jobs :: p.jobs[k].state == DEAD;
    assert forall k | k in q.jobs :: JobOk(p.revisions, k, p.jobs[k]);
    forall w | w in q.claims
      ensures ClaimOk(q.jobs, q.claims[w])
    {
      assert ClaimOk(p.jobs, p.claims[w]);
    }
  }

  lemma EraseKeeps(p: Pool, m: Move)
    requires PoolOk(p) && m.Erase? && Enabled(p, m)
    ensures PoolOk(Apply(p, m))
  {
    var q := Apply(p, m);
    forall k | k in q.jobs
      ensures JobOk(q.revisions, k, q.jobs[k])
    {
      assert JobOk(p.revisions, k, p.jobs[k]);
    }
    forall k | k in q.vectors
      ensures VectorOk(q.revisions, k, q.vectors[k])
    {
      assert VectorOk(p.revisions, k, p.vectors[k]);
    }
    forall w | w in q.claims
      ensures ClaimOk(q.jobs, q.claims[w])
    {
      assert ClaimOk(p.jobs, p.claims[w]);
      forall i | 0 <= i < |q.claims[w].rows|
        ensures q.claims[w].rows[i].id != m.id
      {
        assert Locked(p.claims, q.claims[w].rows[i]);
      }
    }
  }

  lemma MoveKeeps(p: Pool, m: Move)
    requires PoolOk(p) && Enabled(p, m)
    ensures PoolOk(Apply(p, m))
  {
    hide JobsOk, Patient, AfterBatch, StoredVectors, ClaimOk;
    match m
    case Write(_, _, _, _) => WriteKeeps(p, m);
    case Claim(_, _, _) => ClaimKeeps(p, m);
    case Embedded(w) =>
      FinishKeepsJobs(p, w, true);
      FinishKeepsClaims(p, w, true);
      FinishKeepsPatience(p, w, true);
    case Failed(w) =>
      FinishKeepsJobs(p, w, false);
      FinishKeepsClaims(p, w, false);
      FinishKeepsPatience(p, w, false);
    case Crash(w) => ReleaseKeeps(p.jobs, p.claims, w);
    case Sweep(_, _) => SweepKeeps(p, m);
    case Erase(_) => EraseKeeps(p, m);
  }

  /** Under any interleaving of workers, crashes, writers, sweeps and purges: a vector exists
      exactly for the DONE jobs, and batches open at the same time are disjoint. */
  lemma {:induction false} EveryRunOk(p: Pool, run: seq<Move>)
    requires PoolOk(p) && ValidRun(p, run)
    ensures PoolOk(After(p, run))
  {
    hide PoolOk, Enabled, Apply;
    if run != [] {
      EveryRunOk(p, run[..|run| - 1]);
      MoveKeeps(After(p, run[..|run| - 1]), run[|run| - 1]);
    }
  }

  /** However much happened since the claim, finishing a batch is the atomic embedding call
      on the store of that moment. */
  lemma FinishIsEmbed(p: Pool, run: seq<Move>, db: Db, w: Worker, ok: bool)
    requires PoolOk(p) && ValidRun(p, run) && w in After(p, run).claims
    requires db.revisions == After(p, run).revisions && db.jobs == After(p, run).jobs && db.vectors == After(p, run).vectors
    ensures var b := After(p, run).claims[w];
            var c := Embed(Keys(b.rows), ok, b.now);
            && Admissible(db, c, 0)
            && Exec(db, c, 0).db == db.(jobs := Finish(After(p, run), w, ok).jobs, vectors := Finish(After(p, run), w, ok).vectors)
  {
    hide ValidRun, After, AfterBatch, StoredVectors;
    EveryRunOk(p, run);
    assert ClaimOk(After(p, run).jobs, After(p, run).claims[w]);
  }

  /** A batch claimed and embedded: its jobs are done and have the vectors of their texts, nothing
      else is touched and its locks are gone. */
  lemma ClaimedThenEmbedded(p: Pool, w: Worker, b: Batch, size: nat)
    requires PoolOk(p) && Enabled(p, Claim(w, b, size))
    ensures ValidRun(p, [Claim(w, b, size), Move.Embedded(w)])
    ensures var q := After(p, [Claim(w, b, size), Move.Embedded(w)]);
            && q.claims == p.claims && q.revisions == p.revisions && q.jobs.Keys == p.jobs.Keys
            && (forall k | k in p.jobs :: q.jobs[k] == if k in b.rows then p.jobs[k].(state := DONE) else p.jobs[k])
            && q.vectors.Keys == p.vectors.Keys + (set k | k in b.rows)
            && (forall k | k in p.vectors :: q.vectors[k] == p.vectors[k])
            && (forall k | k in b.rows :: RevKey(k.id, k.no) in p.revisions && q.vectors[k] == p.revisions[RevKey(k.id, k.no)].content)
  {
    hide Enabled, Apply;
    var claimed := Apply(p, Claim(w, b, size));
    TwoMoves(p, Claim(w, b, size), Move.Embedded(w)) by {
      Claimed(p, w, b, size);
    }
    Claimed(p, w, b, size);
    Finished(claimed, w);
    assert claimed.claims - {w} == p.claims;
  }

  lemma Claimed(p: Pool, w: Worker, b: Batch, size: nat)
    requires PoolOk(p) && Enabled(p, Claim(w, b, size))
    ensures w !in p.claims && Apply(p, Claim(w, b, size)) == p.(claims := p.claims[w := b])
    ensures PoolOk(Apply(p, Claim(w, b, size)))
    ensures Enabled(Apply(p, Claim(w, b, size)), Move.Embedded(w)) && Enabled(Apply(p, Claim(w, b, size)), Crash(w))
  {
    hide PoolOk;
    MoveKeeps(p, Claim(w, b, size));
  }

  lemma Finished(p: Pool, w: Worker)
    requires PoolOk(p) && w in p.claims && Enabled(p, Move.Embedded(w))
    ensures var q, rows := Apply(p, Move.Embedded(w)), p.claims[w].rows;
            && q.claims == p.claims - {w} && q.revisions == p.revisions && q.jobs.Keys == p.jobs.Keys
            && (forall k | k in p.jobs :: q.jobs[k] == if k in rows then p.jobs[k].(state := DONE) else p.jobs[k])
            && q.vectors.Keys == p.vectors.Keys + (set k | k in rows)
            && (forall k | k in p.vectors :: q.vectors[k] == p.vectors[k])
            && (forall k | k in rows :: RevKey(k.id, k.no) in p.revisions && q.vectors[k] == p.revisions[RevKey(k.id, k.no)].content)
  {
    assert ClaimOk(p.jobs, p.claims[w]);
    forall k | k in p.claims[w].rows
      ensures JobOk(p.revisions, k, p.jobs[k]) && k !in p.vectors
    {
    }
  }

  lemma TwoMoves(p: Pool, m: Move, n: Move)
    requires Enabled(p, m) && Enabled(Apply(p, m), n)
    ensures ValidRun(p, [m, n]) && After(p, [m, n]) == Apply(Apply(p, m), n)
  {
    hide Enabled, Apply;
    assert [m, n][..1] == [m] && [m][..0] == [];
    assert ValidRun(p, []) && After(p, []) == p;
    assert ValidRun(p, [m]) && After(p, [m]) == Apply(p, m);
  }

  /** A worker that crashes leaves everything as if it had never claimed. */
  lemma CrashLosesNothing(p: Pool, w: Worker, b: Batch, size: nat)
    requires PoolOk(p) && Enabled(p, Claim(w, b, size))
    ensures ValidRun(p, [Claim(w, b, size), Crash(w)]) && After(p, [Claim(w, b, size), Crash(w)]) == p
  {
    hide PoolOk;
    Claimed(p, w, b, size);
    TwoMoves(p, Claim(w, b, size), Crash(w));
    assert p.claims[w := b] - {w} == p.claims;
  }

  // ---- no job is lost --------------------------------------------------------

  /** The two ways a job can leave the table: its memory is purged, or it is swept up dead and old. */
  ghost predicate Leaves(p: Pool, m: Move, k: JobKey) {
    && k in p.jobs
    && ((m.Erase? && m.id == k.id)
        || (m.Sweep? && k in m.dead && p.jobs[k].state == DEAD && m.now > p.jobs[k].createdAt + 2592000))
  }

  ghost predicate LeavesDuring(p: Pool, run: seq<Move>, k: JobKey) {
    exists i: nat :: i < |run| && ValidRun(p, run[..i]) && Leaves(After(p, run[..i]), run[i], k)
  }

  /** How a job may go on: attempts only grow, and a settled job never changes again. */
  ghost predicate JobAdvances(a: Job, b: Job) {
    && a.attempts <= b.attempts && a.createdAt == b.createdAt && a.project == b.project
    && (a.state != PENDING ==> b == a)
  }

  lemma MoveKeepsJob(p: Pool, m: Move, k: JobKey)
    requires PoolOk(p) && Enabled(p, m) && k in p.jobs && !Leaves(p, m, k)
    ensures k in Apply(p, m).jobs && JobAdvances(p.jobs[k], Apply(p, m).jobs[k])
  {
    assert JobOk(p.revisions, k, p.jobs[k]);
    if m.Embedded? || m.Failed? {
      assert ClaimOk(p.jobs, p.claims[m.worker]);
    }
  }

  lemma LeavesLater(p: Pool, run: seq<Move>, k: JobKey)
    requires run != [] && LeavesDuring(p, run[..|run| - 1], k)
    ensures LeavesDuring(p, run, k)
  {
    var init := run[..|run| - 1];
    var i: nat :| i < |init| && ValidRun(p, init[..i]) && Leaves(After(p, init[..i]), init[i], k);
    assert init[..i] == run[..i] && init[i] == run[i];
  }

  /** No run loses a job: until a purge of its memory, or a sweep that finds it DEAD, it is
      pending or settled for good. */
  lemma {:induction false} NoJobIsLost(p: Pool, run: seq<Move>, k: JobKey)
    requires PoolOk(p) && ValidRun(p, run) && k in p.jobs && !LeavesDuring(p, run, k)
    ensures k in After(p, run).jobs && JobAdvances(p.jobs[k], After(p, run).jobs[k])
  {
    hide PoolOk, Enabled, Apply, Leaves;
    if run != [] {
      var init, m := run[..|run| - 1], run[|run| - 1];
      if LeavesDuring(p, init, k) {
        LeavesLater(p, run, k);
      }
      NoJobIsLost(p, init, k);
      EveryRunOk(p, init);
      MoveKeepsJob(After(p, init), m, k);
    }
  }

  // ---- retrying ends ---------------------------------------------------------

  ghost function Left(j: Job): nat {
    if j.state == PENDING && j.attempts < MAX_ATTEMPTS then MAX_ATTEMPTS - j.attempts else 0
  }

  /** Attempts still allowed, over all pending jobs. */
  ghost function Work(jobs: map<JobKey, Job>): nat
    decreases |jobs|
  {
    if jobs == map[] then 0
    else
      var k :| k in jobs;
      assert |jobs - {k}| < |jobs| by {
        assert (jobs - {k}).Keys == jobs.Keys - {k};
      }
      Left(jobs[k]) + Work(jobs - {k})
  }

  lemma {:induction false} WorkWithout(jobs: map<JobKey, Job>, k: JobKey)
    requires k in jobs
    ensures Work(jobs) == Left(jobs[k]) + Work(jobs - {k})
    decreases |jobs|
  {
    var c :| c in jobs && Work(jobs) == Left(jobs[c]) + Work(jobs - {c});
    if c != k {
      assert (jobs - {c}).Keys == jobs.Keys - {c};
      assert (jobs - {k}).Keys == jobs.Keys - {k};
      WorkWithout(jobs - {c}, k);
      WorkWithout(jobs - {k}, c);
      assert jobs - {c} - {k} == jobs - {k} - {c};
    }
  }

  lemma WorkSet(jobs: map<JobKey, Job>, k: JobKey, j: Job)
    ensures Work(jobs[k := j]) == Left(j) + Work(jobs - {k})
  {
    WorkWithout(jobs[k := j], k);
    assert jobs[k := j] - {k} == jobs - {k};
  }

  lemma {:induction false} WorkOfPart(part: map<JobKey, Job>, whole: map<JobKey, Job>)
    requires forall k | k in part :: k in whole && whole[k] == part[k]
    ensures Work(part) <= Work(whole)
    decreases |whole|
  {
    if k :| k in whole {
      assert (whole - {k}).Keys == whole.Keys - {k};
      WorkWithout(whole, k);
      if k in part {
        WorkWithout(part, k);
        WorkOfPart(part - {k}, whole - {k});
      } else {
        WorkOfPart(part, whole - {k});
      }
    } else {
      assert part == map[];
    }
  }

  /** Finishing a batch, well or badly, uses up at least one attempt per job in it. */
  lemma {:induction false} WorkFalls(jobs: map<JobKey, Job>, batch: set<JobKey>, ok: bool, now: Time)
    requires forall k | k in batch :: k in jobs && jobs[k].state == PENDING && jobs[k].attempts < MAX_ATTEMPTS
    ensures Work(AfterBatch(jobs, batch, ok, now)) + |batch| <= Work(jobs)
    decreases |batch|
  {
    if k :| k in batch {
      var rest := batch - {k};
      WorkFalls(jobs, rest, ok, now);
      var some, all := AfterBatch(jobs, rest, ok, now), AfterBatch(jobs, batch, ok, now);
      assert some[k] == jobs[k];
      assert all == some[k := all[k]];
      WorkSet(some, k, all[k]);
      WorkWithout(some, k);
      assert |batch| == |rest| + 1;
    } else {
      assert AfterBatch(jobs, batch, ok, now) == jobs;
    }
  }

  lemma MoveWork(p: Pool, m: Move)
    requires PoolOk(p) && Enabled(p, m)
    ensures m.Embedded? || m.Failed? ==> Work(Apply(p, m).jobs) + |Keys(p.claims[m.worker].rows)| <= Work(p.jobs)
    ensures m.Embedded? || m.Failed? ==> |Keys(p.claims[m.worker].rows)| >= 1
    ensures m.Write? ==> Work(Apply(p, m).jobs) <= Work(p.jobs) + MAX_ATTEMPTS
    ensures Work(Apply(p, m).jobs) <= Work(p.jobs) + if m.Write? then MAX_ATTEMPTS else 0
  {
    match m
    case Write(k, r, model, now) =>
      if model.Some? {
        var key := JobKey(k.id, k.no, model.value);
        assert key !in p.jobs by {
          assert key in p.jobs ==> JobOk(p.revisions, key, p.jobs[key]);
        }
        WorkSet(p.jobs, key, Fresh(r.project, now));
        assert p.jobs - {key} == p.jobs;
      }
    case Claim(_, _, _) =>
    case Embedded(w) => BatchWork(p, w, true);
    case Failed(w) => BatchWork(p, w, false);
    case Crash(_) =>
    case Sweep(_, _) => WorkOfPart(Apply(p, m).jobs, p.jobs);
    case Erase(_) => WorkOfPart(Apply(p, m).jobs, p.jobs);
  }

  lemma BatchWork(p: Pool, w: Worker, ok: bool)
    requires PoolOk(p) && w in p.claims
    ensures Work(Finish(p, w, ok).jobs) + |Keys(p.claims[w].rows)| <= Work(p.jobs)
    ensures |Keys(p.claims[w].rows)| >= 1
  {
    var b := p.claims[w];
    assert ClaimOk(p.jobs, b);
    assert b.rows[0] in Keys(b.rows);
    forall k | k in Keys(b.rows)
      ensures k in p.jobs && p.jobs[k].state == PENDING && p.jobs[k].attempts < MAX_ATTEMPTS
    {
      assert JobOk(p.revisions, k, p.jobs[k]);
    }
    WorkFalls(p.jobs, Keys(b.rows), ok, b.now);
  }

  ghost function Writes(run: seq<Move>): nat {
    if run == [] then 0 else Writes(run[..|run| - 1]) + if run[|run| - 1].Write? then 1 else 0
  }

  ghost function Finishes(run: seq<Move>): nat {
    if run == [] then 0
    else Finishes(run[..|run| - 1]) + if run[|run| - 1].Embedded? || run[|run| - 1].Failed? then 1 else 0
  }

  lemma {:induction false} BatchesUseWork(p: Pool, run: seq<Move>)
    requires PoolOk(p) && ValidRun(p, run)
    ensures Finishes(run) + Work(After(p, run).jobs) <= Work(p.jobs) + MAX_ATTEMPTS * Writes(run)
  {
    hide PoolOk, Enabled, Apply, Work;
    if run != [] {
      var init, m := run[..|run| - 1], run[|run| - 1];
      BatchesUseWork(p, init);
      EveryRunOk(p, init);
      MoveWork(After(p, init), m);
    }
  }

  lemma {:induction false} WritesCounted(run: seq<Move>)
    ensures Writes(run) == |set i | 0 <= i < |run| && run[i].Write?|
  {
    if run != [] {
      var init, n := run[..|run| - 1], |run| - 1;
      WritesCounted(init);
      var before := set i | 0 <= i < |init| && init[i].Write?;
      assert (set i | 0 <= i < |run| && run[i].Write?) == if run[n].Write? then before + {n} else before;
    }
  }

  lemma {:induction false} FinishesCounted(run: seq<Move>)
    ensures Finishes(run) == |set i | 0 <= i < |run| && (run[i].Embedded? || run[i].Failed?)|
  {
    if run != [] {
      var init, n := run[..|run| - 1], |run| - 1;
      FinishesCounted(init);
      var before := set i | 0 <= i < |init| && (init[i].Embedded? || init[i].Failed?);
      assert (set i | 0 <= i < |run| && (run[i].Embedded? || run[i].Failed?))
          == if run[n].Embedded? || run[n].Failed? then before + {n} else before;
    }
  }

  lemma {:induction false} WorkAtMost(jobs: map<JobKey, Job>)
    ensures Work(jobs) <= 5 * |jobs|
    decreases |jobs|
  {
    if k :| k in jobs {
      WorkWithout(jobs, k);
      assert (jobs - {k}).Keys == jobs.Keys - {k};
      WorkAtMost(jobs - {k});
    }
  }

  /** Retrying always ends: no run commits more batches than five for each job there was
      or was added, however the embedder behaves. */
  lemma RetryingEnds(p: Pool, run: seq<Move>)
    requires PoolOk(p) && ValidRun(p, run)
    ensures |set i | 0 <= i < |run| && (run[i].Embedded? || run[i].Failed?)|
            <= 5 * (|p.jobs| + |set i | 0 <= i < |run| && run[i].Write?|)
  {
    hide PoolOk, ValidRun, After, Work, Writes, Finishes;
    BatchesUseWork(p, run);
    WritesCounted(run);
    FinishesCounted(run);
    WorkAtMost(p.jobs);
  }

  /** After its first, second, third and fourth failure a job is due again 2, 4, 8 and 16 seconds later.
      As long as it stands as the failure left it, no claim takes it before that, and from then
      on any claim of its model that finds it unlocked takes it or is filled with jobs due no later. */
  lemma RetriedWhenDue(p: Pool, w: Worker, k: JobKey, jobs: map<JobKey, Job>, held: set<JobKey>, now: Time, size: nat, rows: seq<JobKey>)
    requires PoolOk(p) && w in p.claims && k in p.claims[w].rows && k in p.jobs && p.jobs[k].attempts < 4
    requires k in jobs && jobs[k] == Finish(p, w, false).jobs[k] && k !in held
    requires Answers(jobs, held, k.model, now, size, rows)
    ensures var wait := match p.jobs[k].attempts
              case 0 => 2
              case 1 => 4
              case 2 => 8
              case _ => 16;
            var due := p.claims[w].now + wait;
            && (now < due ==> k !in rows)
            && (now >= due ==> k in rows || (|rows| == size && forall i | 0 <= i < |rows| :: jobs[rows[i]].nextAttemptAt <= due))
  {
    hide JobsOk, Patient, StoredVectors;
    assert ClaimOk(p.jobs, p.claims[w]);
    assert k in Keys(p.claims[w].rows);
    assert Backoff(1) == 2 && Backoff(2) == 4 && Backoff(3) == 8 && Backoff(4) == 16;
  }

  /** A job is there for the claim that follows the commit of its revision. */
  lemma ClaimedOnceWritten(p: Pool, m: Move, held: set<JobKey>, now: Time, size: nat, rows: seq<JobKey>)
    requires Enabled(p, m) && m.Write? && m.model.Some? && now >= m.now
    requires Answers(Apply(p, m).jobs, held, m.model.value, now, size, rows)
    ensures var k, jobs := JobKey(m.key.id, m.key.no, m.model.value), Apply(p, m).jobs;
            k in jobs && (k in held || k in rows || (|rows| == size && forall i | 0 <= i < |rows| :: jobs[rows[i]].nextAttemptAt <= m.now))
  {
  }

  /** The four back-offs before a job dies last thirty seconds together, so a job that dies
      does so at least thirty seconds after it was enqueued. */
  lemma DeathTakesThirtySeconds(p: Pool, run: seq<Move>, w: Worker, k: JobKey)
    requires PoolOk(p) && ValidRun(p, run) && Enabled(After(p, run), Failed(w))
    requires k in After(p, run).jobs && After(p, run).jobs[k].state == PENDING
    requires Apply(After(p, run), Failed(w)).jobs[k].state == DEAD
    ensures Waited(MAX_ATTEMPTS - 1) == 30
    ensures After(p, run).claims[w].now >= After(p, run).jobs[k].createdAt + 30
    ensures After(p, run).jobs[k].attempts == MAX_ATTEMPTS - 1
  {
    hide ValidRun, After, Waited;
    EveryRunOk(p, run);
    DiesPatiently(After(p, run), w, k);
    ThirtySeconds();
  }

  lemma DiesPatiently(q: Pool, w: Worker, k: JobKey)
    requires PoolOk(q) && w in q.claims && k in q.jobs && q.jobs[k].state == PENDING
    requires Finish(q, w, false).jobs[k].state == DEAD
    ensures q.claims[w].now >= q.jobs[k].createdAt + Waited(MAX_ATTEMPTS - 1)
    ensures q.jobs[k].attempts == MAX_ATTEMPTS - 1
  {
    hide Waited;
    assert ClaimOk(q.jobs, q.claims[w]);
    assert JobOk(q.revisions, k, q.jobs[k]);
  }

  lemma ThirtySeconds()
    ensures Waited(4) == 30
  {
    assert Backoff(1) == 2 && Backoff(2) == 4 && Backoff(3) == 8 && Backoff(4) == 16;
    assert Waited(1) == 2 && Waited(2) == 6 && Waited(3) == 14;
  }

  // ---- one worker ------------------------------------------------------------

  datatype BatchOutcome = BatchOutcome(claimed: nat, embedded: nat, failed: nat, dead: nat)

  ghost function DeadAmong(jobs: map<JobKey, Job>, rows: seq<JobKey>): set<JobKey> {
    set k | k in rows && k in jobs && jobs[k].state == DEAD
  }

  lemma {:induction false} EarliestExists(jobs: map<JobKey, Job>, pool: set<JobKey>)
    requires pool != {} && forall k | k in pool :: k in jobs
    ensures exists k :: k in pool && forall j | j in pool :: jobs[k].nextAttemptAt <= jobs[j].nextAttemptAt
  {
    var c :| c in pool;
    if pool != {c} {
      assert pool - {c} != {};
      EarliestExists(jobs, pool - {c});
      var k :| k in pool - {c} && forall j | j in pool - {c} :: jobs[k].nextAttemptAt <= jobs[j].nextAttemptAt;
      var first := if jobs[c].nextAttemptAt <= jobs[k].nextAttemptAt then c else k;
      assert forall j | j in pool :: jobs[first].nextAttemptAt <= jobs[j].nextAttemptAt;
    }
  }

  /** A claimed batch can be finished: the tables stay consistent and work is used up. */
  lemma BatchFits(revisions: map<RevKey, Revision>, jobs: map<JobKey, Job>, vectors: map<JobKey, string>,
                  held: set<JobKey>, model: Model, now: Time, size: nat, rows: seq<JobKey>, ok: bool)
    requires JobsOk(revisions, jobs, vectors) && Answers(jobs, held, model, now, size, rows)
    ensures forall i | 0 <= i < |rows| ::
              && RevKey(rows[i].id, rows[i].no) in revisions
              && rows[i] in jobs && jobs[rows[i]].state == PENDING && jobs[rows[i]].attempts < MAX_ATTEMPTS
    ensures JobsOk(revisions, AfterBatch(jobs, Keys(rows), ok, now), StoredVectors(vectors, revisions, Keys(rows), ok))
    ensures Work(AfterBatch(jobs, Keys(rows), ok, now)) + |rows| <= Work(jobs)
  {
    forall i | 0 <= i < |rows|
      ensures JobOk(revisions, rows[i], jobs[rows[i]])
    {
    }
    if rows != [] {
      OneWorker(revisions, jobs, vectors, Batch(model, rows, now), ok);
    } else {
      NothingClaimed(revisions, jobs, vectors, ok, now);
    }
    KeysCount(rows);
    WorkFalls(jobs, Keys(rows), ok, now);
  }

  lemma OneWorker(revisions: map<RevKey, Revision>, jobs: map<JobKey, Job>, vectors: map<JobKey, string>, b: Batch, ok: bool)
    requires JobsOk(revisions, jobs, vectors) && ClaimOk(jobs, b)
    ensures JobsOk(revisions, AfterBatch(jobs, Keys(b.rows), ok, b.now), StoredVectors(vectors, revisions, Keys(b.rows), ok))
  {
    var p := Pool(revisions, jobs, vectors, map[0 := b]);
    FinishKeepsJobs(p, 0, ok);
  }

  lemma NothingClaimed(revisions: map<RevKey, Revision>, jobs: map<JobKey, Job>, vectors: map<JobKey, string>, ok: bool, now: Time)
    ensures AfterBatch(jobs, Keys([]), ok, now) == jobs
    ensures StoredVectors(vectors, revisions, Keys([]), ok) == vectors
  {
  }

  lemma {:induction false} KeysCount(rows: seq<JobKey>)
    requires forall i, j | 0 <= i < j < |rows| :: rows[i] != rows[j]
    ensures |Keys(rows)| == |rows|
  {
    if rows != [] {
      var init, last := rows[..|rows| - 1], rows[|rows| - 1];
      KeysCount(init);
      assert Keys(rows) == Keys(init) + {last} && last !in Keys(init);
    }
  }

  lemma DeadFew(jobs: map<JobKey, Job>, rows: seq<JobKey>)
    requires forall i, j | 0 <= i < j < |rows| :: rows[i] != rows[j]
    ensures |DeadAmong(jobs, rows)| <= |rows|
  {
    KeysCount(rows);
    assert Keys(rows) == DeadAmong(jobs, rows) + (Keys(rows) - DeadAmong(jobs, rows));
  }

  lemma NoneDeferred(jobs: map<JobKey, Job>, now: Time)
    ensures AfterBatch(jobs, Keys([]), false, now) == jobs && DeadAmong(jobs, []) == {}
  {
  }

  /** One more row of the batch deferred: it alone changes, and it counts when it died. */
  lemma DeferNext(before: map<JobKey, Job>, done: seq<JobKey>, k: JobKey, now: Time)
    requires k in before && k !in done && before[k].state == PENDING
    ensures var jobs := AfterBatch(before, Keys(done), false, now);
            && k in jobs && jobs[k] == before[k]
            && var more := AfterBatch(before, Keys(done + [k]), false, now);
            && more == jobs[k := Deferred(before[k], now)]
            && (Deferred(before[k], now) == if before[k].attempts + 1 >= MAX_ATTEMPTS
                then before[k].(state := DEAD, attempts := before[k].attempts + 1)
                else before[k].(attempts := before[k].attempts + 1, nextAttemptAt := now + Backoff(before[k].attempts + 1)))
            && |DeadAmong(more, done + [k])|
               == |DeadAmong(jobs, done)| + if before[k].attempts + 1 >= MAX_ATTEMPTS then 1 else 0
  {
    var jobs := AfterBatch(before, Keys(done), false, now);
    var more := AfterBatch(before, Keys(done + [k]), false, now);
    assert Keys(done + [k]) == Keys(done) + {k};
    assert more == jobs[k := Deferred(before[k], now)];
    var dying := DeadAmong(jobs, done);
    assert k !in dying;
    if before[k].attempts + 1 >= MAX_ATTEMPTS {
      assert DeadAmong(more, done + [k]) == dying + {k};
    } else {
      assert DeadAmong(more, done + [k]) == dying;
    }
  }

  lemma NoneStored(vectors: map<JobKey, string>, revisions: map<RevKey, Revision>)
    ensures StoredVectors(vectors, revisions, Keys([]), true) == vectors
  {
  }

  lemma StoreNext(before: map<JobKey, string>, revisions: map<RevKey, Revision>, done: seq<JobKey>, k: JobKey)
    requires RevKey(k.id, k.no) in revisions
    ensures var some := StoredVectors(before, revisions, Keys(done), true);
            StoredVectors(before, revisions, Keys(done + [k]), true)
            == if k in some then some else some[k := revisions[RevKey(k.id, k.no)].content]
  {
    assert Keys(done + [k]) == Keys(done) + {k};
  }

  /** The rows chosen so far and the pool of those left, all of them earlier than all of these. */
  ghost predicate Chosen(jobs: map<JobKey, Job>, held: set<JobKey>, model: Model, now: Time, pool: set<JobKey>, rows: seq<JobKey>) {
    && (forall k :: Claimable(jobs, held, model, now, k) <==> k in pool || k in rows)
    && (forall k | k in pool :: k in jobs && k !in rows)
    && (forall i | 0 <= i < |rows| :: rows[i] in jobs)
    && (forall i, k | 0 <= i < |rows| && k in pool :: jobs[rows[i]].nextAttemptAt <= jobs[k].nextAttemptAt)
    && (forall i, j | 0 <= i < j < |rows| ::
          rows[i] != rows[j] && jobs[rows[i]].nextAttemptAt <= jobs[rows[j]].nextAttemptAt)
  }

  lemma PoolExact(jobs: map<JobKey, Job>, held: set<JobKey>, model: Model, now: Time, pool: set<JobKey>)
    requires pool == set k | k in jobs && Claimable(jobs, held, model, now, k)
    ensures Chosen(jobs, held, model, now, pool, [])
  {
  }

  lemma PoolKnown(jobs: map<JobKey, Job>, held: set<JobKey>, model: Model, now: Time, pool: set<JobKey>, rows: seq<JobKey>)
    requires Chosen(jobs, held, model, now, pool, rows)
    ensures forall k | k in pool :: k in jobs
  {
  }

  lemma ChooseNext(jobs: map<JobKey, Job>, held: set<JobKey>, model: Model, now: Time, pool: set<JobKey>, rows: seq<JobKey>, k: JobKey)
    requires Chosen(jobs, held, model, now, pool, rows) && k in pool
    requires forall j | j in pool :: j in jobs
    requires forall j | j in pool :: jobs[k].nextAttemptAt <= jobs[j].nextAttemptAt
    ensures Chosen(jobs, held, model, now, pool - {k}, rows + [k])
  {
    hide Claimable;
  }

  lemma AllChosen(jobs: map<JobKey, Job>, held: set<JobKey>, model: Model, now: Time, size: nat, pool: set<JobKey>, rows: seq<JobKey>)
    requires Chosen(jobs, held, model, now, pool, rows) && |rows| <= size && (|rows| == size || pool == {})
    ensures Answers(jobs, held, model, now, size, rows)
  {
    forall i | 0 <= i < |rows|
      ensures Claimable(jobs, held, model, now, rows[i])
    {
      assert rows[i] in rows;
    }
  }

  /** The tables a worker shares with everybody else. */
  datatype Tables = Tables(revisions: map<RevKey, Revision>, jobs: map<JobKey, Job>, vectors: map<JobKey, string>)

  ghost predicate TablesOk(t: Tables) {
    JobsOk(t.revisions, t.jobs, t.vectors)
  }

  /** Other sessions keep the tables consistent and add at most so many attempts each time. */
  ghost predicate Courteous(others: (nat, Tables) -> Tables, added: nat -> nat) {
    forall n, t | TablesOk(t) :: TablesOk(others(n, t)) && Work(others(n, t).jobs) <= Work(t.jobs) + added(n)
  }

  lemma NoAnswerIsIdle(jobs: map<JobKey, Job>, held: set<JobKey>, model: Model, now: Time, size: nat)
    requires Answers(jobs, held, model, now, size, []) && size > 0
    ensures forall k | k in jobs && jobs[k].state == PENDING && k.model == model && jobs[k].nextAttemptAt <= now :: k in held
  {
  }

  /** Nobody else at work is courteous. */
  lemma AloneIsCourteous()
    ensures Courteous((n, t) => t, n => 0)
  {
  }

  lemma CourteousAt(others: (nat, Tables) -> Tables, added: nat -> nat, n: nat, t: Tables)
    requires Courteous(others, added) && JobsOk(t.revisions, t.jobs, t.vectors)
    ensures var u := others(n, t); JobsOk(u.revisions, u.jobs, u.vectors) && Work(u.jobs) <= Work(t.jobs) + added(n)
  {
    hide JobsOk, Work;
    assert TablesOk(t);
  }

  ghost function Added(added: nat -> nat, n: nat): nat {
    if n == 0 then 0 else Added(added, n - 1) + added(n - 1)
  }

  lemma {:induction false} AddedAtMost(added: nat -> nat, n: nat, most: nat)
    requires forall i | 0 <= i < n :: added(i) <= most
    ensures Added(added, n) <= n * most
  {
    if n > 0 {
      AddedAtMost(added, n - 1, most);
    }
  }

  // ---- the batches of one drain ----------------------------------------------

  /** One batch of a drain: the tables it found, the rows it claimed and the tables it left. */
  datatype Round = Round(before: Tables, rows: seq<JobKey>, after: Tables)

  /** The batch claimed what the query answers and did to it what the embedder's answer calls for. */
  ghost predicate RoundOk(r: Round, model: Model, size: nat, held: set<JobKey>, ok: bool, now: Time) {
    && r.rows != [] && Answers(r.before.jobs, held, model, now, size, r.rows)
    && r.after == Tables(r.before.revisions, AfterBatch(r.before.jobs, Keys(r.rows), ok, now),
                         StoredVectors(r.before.vectors, r.before.revisions, Keys(r.rows), ok))
  }

  /** The tables after the first batches of a drain, with what others commit next still to come. */
  ghost function LeftBy(start: Tables, rounds: seq<Round>): Tables {
    if rounds == [] then start else rounds[|rounds| - 1].after
  }

  ghost predicate RoundsOk(start: Tables, rounds: seq<Round>, model: Model, size: nat, held: nat -> set<JobKey>, up: nat -> bool,
                           clock: nat -> Time, others: (nat, Tables) -> Tables) {
    forall i: nat | i < |rounds| ::
      && rounds[i].before == others(i, LeftBy(start, rounds[..i]))
      && RoundOk(rounds[i], model, size, held(i), up(i), clock(i))
  }

  lemma RoundsMore(start: Tables, rounds: seq<Round>, r: Round, model: Model, size: nat, held: nat -> set<JobKey>, up: nat -> bool,
                   clock: nat -> Time, others: (nat, Tables) -> Tables)
    requires RoundsOk(start, rounds, model, size, held, up, clock, others)
    requires r.before == others(|rounds|, LeftBy(start, rounds))
    requires RoundOk(r, model, size, held(|rounds|), up(|rounds|), clock(|rounds|))
    ensures RoundsOk(start, rounds + [r], model, size, held, up, clock, others)
  {
    hide RoundOk, LeftBy;
    var all := rounds + [r];
    forall i: nat | i < |all|
      ensures all[i].before == others(i, LeftBy(start, all[..i]))
      ensures RoundOk(all[i], model, size, held(i), up(i), clock(i))
    {
      if i < |rounds| {
        assert all[i] == rounds[i] && all[..i] == rounds[..i];
      } else {
        assert all[i] == r && all[..i] == rounds;
      }
    }
  }

  /** Some of the rows of each batch, told apart by the number of the batch. */
  ghost function Picks(rounds: seq<Round>, some: (nat, Round) -> set<JobKey>): set<(nat, JobKey)> {
    set i: nat, k | i < |rounds| && k in some(i, rounds[i]) :: (i, k)
  }

  ghost function Tagged(n: nat, ks: set<JobKey>): set<(nat, JobKey)> {
    set k | k in ks :: (n, k)
  }

  /** The counts reported for a batch. */
  ghost predicate RoundCounts(r: Round, ok: bool, outcome: BatchOutcome) {
    && (forall i, j | 0 <= i < j < |r.rows| :: r.rows[i] != r.rows[j])
    && outcome == if ok then BatchOutcome(|r.rows|, |r.rows|, 0, 0)
                  else BatchOutcome(|r.rows|, 0, |r.rows|, |DeadAmong(r.after.jobs, r.rows)|)
  }

  lemma NoneDead(jobs: map<JobKey, Job>)
    ensures DeadAmong(jobs, []) == {}
  {
  }

  lemma {:induction false} TaggedCount(n: nat, ks: set<JobKey>)
    ensures |Tagged(n, ks)| == |ks|
  {
    if k :| k in ks {
      TaggedCount(n, ks - {k});
      assert Tagged(n, ks) == Tagged(n, ks - {k}) + {(n, k)};
    }
  }

  lemma Disjoint(a: set<(nat, JobKey)>, n: nat, ks: set<JobKey>)
    requires forall p | p in a :: p.0 < n
    ensures |a + Tagged(n, ks)| == |a| + |ks|
  {
    TaggedCount(n, ks);
    assert a !! Tagged(n, ks);
  }

  /** One more batch counted. */
  lemma PicksNext(rounds: seq<Round>, r: Round, some: (nat, Round) -> set<JobKey>)
    ensures |Picks(rounds + [r], some)| == |Picks(rounds, some)| + |some(|rounds|, r)|
  {
    var all, n := rounds + [r], |rounds|;
    assert forall i | 0 <= i < n :: all[i] == rounds[i];
    Disjoint(Picks(rounds, some), n, some(n, r));
    assert Picks(all, some) == Picks(rounds, some) + Tagged(n, some(n, r));
  }

  class EmbeddingWorker {
    var revisions: map<RevKey, Revision>
    var jobs: map<JobKey, Job>
    var vectors: map<JobKey, string>
    const model: Model
    const batchSize: nat

    constructor (model: Model, batchSize: nat,
                 revisions: map<RevKey, Revision>, jobs: map<JobKey, Job>, vectors: map<JobKey, string>)
      ensures this.model == model && this.batchSize == batchSize
      ensures this.revisions == revisions && this.jobs == jobs && this.vectors == vectors
    {
      this.model, this.batchSize := model, batchSize;
      this.revisions, this.jobs, this.vectors := revisions, jobs, vectors;
    }

    ghost predicate Valid()
      reads this
    {
      JobsOk(revisions, jobs, vectors)
    }

    /** The claiming query: the earliest rows first, as many as fit. */
    method ClaimJobs(held: set<JobKey>, now: Time) returns (rows: seq<JobKey>)
      ensures Answers(jobs, held, model, now, batchSize, rows)
      ensures |rows| <= batchSize
      ensures forall i | 0 <= i < |rows| ::
                && rows[i] in jobs && jobs[rows[i]].state == PENDING && rows[i].model == model
                && jobs[rows[i]].nextAttemptAt <= now && rows[i] !in held
      ensures forall i, j | 0 <= i < j < |rows| ::
                rows[i] != rows[j] && jobs[rows[i]].nextAttemptAt <= jobs[rows[j]].nextAttemptAt
      ensures forall k | k in jobs && jobs[k].state == PENDING && k.model == model && jobs[k].nextAttemptAt <= now && k !in held ::
                k in rows || (|rows| == batchSize && forall i | 0 <= i < |rows| :: jobs[rows[i]].nextAttemptAt <= jobs[k].nextAttemptAt)
    {
      hide Claimable;
      var pool := set k | k in jobs && Claimable(jobs, held, model, now, k);
      rows := [];
      PoolExact(jobs, held, model, now, pool);
      while |rows| < batchSize && pool != {}
        invariant |rows| <= batchSize && Chosen(jobs, held, model, now, pool, rows)
        decreases |pool|
      {
        PoolKnown(jobs, held, model, now, pool, rows);
        EarliestExists(jobs, pool);
        var k :| k in pool && forall j | j in pool :: jobs[k].nextAttemptAt <= jobs[j].nextAttemptAt;
        ChooseNext(jobs, held, model, now, pool, rows, k);
        rows := rows + [k];
        pool := pool - {k};
      }
      AllChosen(jobs, held, model, now, batchSize, pool, rows);
    }

    /** The embedder failed: one failed attempt for each row of the batch. */
    method Defer(rows: seq<JobKey>, now: Time) returns (outcome: BatchOutcome)
      requires forall i | 0 <= i < |rows| :: rows[i] in jobs && jobs[rows[i]].attempts < MAX_ATTEMPTS && jobs[rows[i]].state == PENDING
      requires forall i, j | 0 <= i < j < |rows| :: rows[i] != rows[j]
      modifies `jobs
      ensures jobs == AfterBatch(old(jobs), Keys(rows), false, now)
      ensures outcome == BatchOutcome(|rows|, 0, |rows|, |DeadAmong(jobs, rows)|)
    {
      hide AfterBatch, DeadAmong, Deferred;
      var dead := 0;
      ghost var before := jobs;
      NoneDeferred(before, now);
      assert rows[..0] == [];
      for i := 0 to |rows|
        invariant jobs == AfterBatch(before, Keys(rows[..i]), false, now)
        invariant dead == |DeadAmong(jobs, rows[..i])|
      {
        var k := rows[i];
        assert k !in rows[..i] && rows[..i + 1] == rows[..i] + [k];
        DeferNext(before, rows[..i], k, now);
        var attempts := jobs[k].attempts + 1;
        if attempts >= MAX_ATTEMPTS {
          jobs := jobs[k := jobs[k].(state := DEAD, attempts := attempts)];
          dead := dead + 1;
        } else {
          var delay := Backoff(attempts);
          jobs := jobs[k := jobs[k].(attempts := attempts, nextAttemptAt := now + delay)];
        }
      }
      assert rows[..|rows|] == rows;
      outcome := BatchOutcome(|rows|, 0, |rows|, dead);
    }

    /** The embedder answered: one vector per row, then all rows DONE. */
    method Store(rows: seq<JobKey>, now: Time)
      requires forall i | 0 <= i < |rows| :: RevKey(rows[i].id, rows[i].no) in revisions
      modifies `jobs, `vectors
      ensures jobs == AfterBatch(old(jobs), Keys(rows), true, now)
      ensures vectors == StoredVectors(old(vectors), revisions, Keys(rows), true)
    {
      hide StoredVectors;
      ghost var before := vectors;
      NoneStored(before, revisions);
      assert rows[..0] == [];
      for i := 0 to |rows|
        invariant jobs == old(jobs) && revisions == old(revisions)
        invariant vectors == StoredVectors(before, revisions, Keys(rows[..i]), true)
      {
        var k := rows[i];
        assert rows[..i + 1] == rows[..i] + [k];
        StoreNext(before, revisions, rows[..i], k);
        if k !in vectors {
          vectors := vectors[k := revisions[RevKey(k.id, k.no)].content];
        }
      }
      assert rows[..|rows|] == rows;
      jobs := map k | k in jobs :: if k in Keys(rows) then jobs[k].(state := DONE) else jobs[k];
    }

    /** One batch, in one transaction.  `held` is what other workers have locked. */
    method RunOnce(held: set<JobKey>, ok: bool, now: Time) returns (outcome: BatchOutcome, ghost rows: seq<JobKey>)
      requires Valid()
      modifies `jobs, `vectors
      ensures Valid() && Answers(old(jobs), held, model, now, batchSize, rows)
      ensures jobs == AfterBatch(old(jobs), Keys(rows), ok, now)
      ensures vectors == StoredVectors(old(vectors), revisions, Keys(rows), ok)
      ensures outcome == if rows == [] then BatchOutcome(0, 0, 0, 0)
                         else if ok then BatchOutcome(|rows|, |rows|, 0, 0)
                         else BatchOutcome(|rows|, 0, |rows|, |DeadAmong(jobs, rows)|)
      ensures outcome.dead <= outcome.failed && outcome.claimed == outcome.embedded + outcome.failed
      ensures rows == [] ==> jobs == old(jobs) && vectors == old(vectors)
      ensures Work(jobs) + outcome.claimed <= Work(old(jobs))
      ensures forall k | k in old(jobs) && old(jobs)[k].state == PENDING && k.model == model && old(jobs)[k].nextAttemptAt <= now && k !in held ::
                k in rows || |rows| == batchSize
      ensures outcome.claimed == 0 && batchSize > 0 ==>
                forall k | k in jobs && jobs[k].state == PENDING && k.model == model && jobs[k].nextAttemptAt <= now :: k in held
    {
      var claimed := ClaimJobs(held, now);
      rows := claimed;
      BatchFits(revisions, jobs, vectors, held, model, now, batchSize, rows, ok);
      if claimed == [] {
        NothingClaimed(revisions, jobs, vectors, ok, now);
        if batchSize > 0 {
          NoAnswerIsIdle(jobs, held, model, now, batchSize);
        }
        return BatchOutcome(0, 0, 0, 0), rows;
      }
      if !ok {
        outcome := Defer(claimed, now);
        DeadFew(jobs, rows);
        return;
      }
      Store(claimed, now);
      outcome := BatchOutcome(|claimed|, |claimed|, 0, 0);
    }

    function Here(): Tables
      reads this
    {
      Tables(revisions, jobs, vectors)
    }

    /** What other sessions have committed by the n-th transaction becomes visible. */
    method MeetOthers(n: nat, others: (nat, Tables) -> Tables, ghost added: nat -> nat)
      requires Valid() && Courteous(others, added)
      modifies `revisions, `jobs, `vectors
      ensures Valid() && Work(jobs) <= Work(old(jobs)) + added(n)
      ensures Tables(revisions, jobs, vectors) == others(n, old(Tables(revisions, jobs, vectors)))
    {
      hide JobsOk, Work, Courteous;
      CourteousAt(others, added, n, Tables(revisions, jobs, vectors));
      var now := others(n, Tables(revisions, jobs, vectors));
      revisions, jobs, vectors := now.revisions, now.jobs, now.vectors;
    }

    /** What others have committed meanwhile, then one batch. */
    method OneRound(n: nat, now: Time, held: set<JobKey>, ok: bool, others: (nat, Tables) -> Tables, ghost added: nat -> nat)
      returns (outcome: BatchOutcome, ghost round: Round)
      requires Valid() && Courteous(others, added)
      modifies `revisions, `jobs, `vectors
      ensures Valid() && round.before == others(n, old(Here())) && round.after == Here()
      ensures outcome.claimed == 0 ==> Here() == round.before
      ensures outcome.claimed > 0 ==> RoundOk(round, model, batchSize, held, ok, now)
      ensures RoundCounts(round, ok, outcome)
      ensures outcome.claimed == outcome.embedded + outcome.failed && outcome.dead <= outcome.failed
      ensures Work(jobs) + outcome.claimed <= Work(old(jobs)) + added(n)
      ensures outcome.claimed == 0 && batchSize > 0 ==>
                forall k | k in jobs && jobs[k].state == PENDING && k.model == model && jobs[k].nextAttemptAt <= now :: k in held
    {
      hide JobsOk, AfterBatch, StoredVectors, Work, Courteous, Answers, DeadAmong, RoundOk, Keys;
      MeetOthers(n, others, added);
      ghost var before := Here();
      var done, rows := RunOnce(held, ok, now);
      outcome := done;
      round := Round(before, rows, Here());
      AnswersDistinct(before.jobs, held, model, now, batchSize, rows);
      if rows != [] {
        RoundIs(round, model, batchSize, held, ok, now);
      } else {
        NoneDead(jobs);
      }
    }

    /** Batches until the queue has nothing to give, or the budget of batches is spent.  Before the
        i-th transaction other sessions commit others(i, -); it starts at clock(i), finds held(i)
        locked, and its embedder answers up(i). */
    method Drain(maxBatches: nat, clock: nat -> Time, held: nat -> set<JobKey>, up: nat -> bool,
                 others: (nat, Tables) -> Tables, ghost added: nat -> nat)
      returns (totals: BatchOutcome, ran: nat, ghost rounds: seq<Round>)
      requires Valid() && Courteous(others, added)
      modifies `revisions, `jobs, `vectors
      ensures Valid() && |rounds| == ran <= maxBatches
      ensures RoundsOk(old(Here()), rounds, model, batchSize, held, up, clock, others)
      ensures Here() == if ran < maxBatches then others(ran, LeftBy(old(Here()), rounds)) else LeftBy(old(Here()), rounds)
      ensures Tallied(rounds, up, totals)
      ensures ran <= totals.claimed && totals.claimed == totals.embedded + totals.failed && totals.dead <= totals.failed
      ensures Work(jobs) + totals.claimed <= Work(old(jobs)) + Added(added, if ran < maxBatches then ran + 1 else ran)
      ensures totals.claimed <= 5 * |old(jobs)| + Added(added, if ran < maxBatches then ran + 1 else ran)
      ensures ran < maxBatches && batchSize > 0 ==>
                forall k | k in jobs && jobs[k].state == PENDING && k.model == model && jobs[k].nextAttemptAt <= clock(ran) :: k in held(ran)
    {
      hide JobsOk, Work, Courteous, RoundsOk, RoundOk, Tallied;
      totals, ran, rounds := BatchOutcome(0, 0, 0, 0), 0, [];
      ghost var start := Here();
      NoRounds(start, model, batchSize, held, up, clock, others);
      NothingTallied(up);
      while ran < maxBatches
        invariant Valid() && |rounds| == ran <= maxBatches && ran <= totals.claimed
        invariant RoundsOk(start, rounds, model, batchSize, held, up, clock, others) && Here() == LeftBy(start, rounds)
        invariant Tallied(rounds, up, totals)
        invariant totals.claimed == totals.embedded + totals.failed && totals.dead <= totals.failed
        invariant Work(jobs) + totals.claimed <= Work(old(jobs)) + Added(added, ran)
      {
        var outcome, round := OneRound(ran, clock(ran), held(ran), up(ran), others, added);
        if outcome.claimed == 0 {
          break;
        }
        RoundsMore(start, rounds, round, model, batchSize, held, up, clock, others);
        TalliedMore(rounds, round, up, totals, outcome);
        totals := BatchOutcome(totals.claimed + outcome.claimed, totals.embedded + outcome.embedded,
                               totals.failed + outcome.failed, totals.dead + outcome.dead);
        ran, rounds := ran + 1, rounds + [round];
      }
      WorkAtMost(old(jobs));
    }
  }

  lemma NoRounds(start: Tables, model: Model, size: nat, held: nat -> set<JobKey>, up: nat -> bool,
                 clock: nat -> Time, others: (nat, Tables) -> Tables)
    ensures RoundsOk(start, [], model, size, held, up, clock, others)
  {
  }

  lemma AnswersDistinct(jobs: map<JobKey, Job>, held: set<JobKey>, model: Model, now: Time, size: nat, rows: seq<JobKey>)
    requires Answers(jobs, held, model, now, size, rows)
    ensures forall i, j | 0 <= i < j < |rows| :: rows[i] != rows[j]
  {
  }

  lemma RoundIs(r: Round, model: Model, size: nat, held: set<JobKey>, ok: bool, now: Time)
    requires r.rows != [] && Answers(r.before.jobs, held, model, now, size, r.rows) && r.after.revisions == r.before.revisions
    requires r.after.jobs == AfterBatch(r.before.jobs, Keys(r.rows), ok, now)
    requires r.after.vectors == StoredVectors(r.before.vectors, r.before.revisions, Keys(r.rows), ok)
    ensures RoundOk(r, model, size, held, ok, now)
  {
  }

  /** Totals that count each row of each batch once, under what became of it. */
  ghost predicate Tallied(rounds: seq<Round>, up: nat -> bool, totals: BatchOutcome) {
    && totals.claimed == |set i: nat, k | i < |rounds| && k in rounds[i].rows :: (i, k)|
    && totals.embedded == |set i: nat, k | i < |rounds| && up(i) && k in rounds[i].rows :: (i, k)|
    && totals.failed == |set i: nat, k | i < |rounds| && !up(i) && k in rounds[i].rows :: (i, k)|
    && totals.dead == |set i: nat, k | i < |rounds| && !up(i) && k in DeadAmong(rounds[i].after.jobs, rounds[i].rows) :: (i, k)|
  }

  ghost function ClaimedOf(): (nat, Round) -> set<JobKey> {
    (i: nat, r: Round) => Keys(r.rows)
  }

  ghost function EmbeddedOf(up: nat -> bool): (nat, Round) -> set<JobKey> {
    (i: nat, r: Round) => if up(i) then Keys(r.rows) else {}
  }

  ghost function FailedOf(up: nat -> bool): (nat, Round) -> set<JobKey> {
    (i: nat, r: Round) => if up(i) then {} else Keys(r.rows)
  }

  ghost function DiedOf(up: nat -> bool): (nat, Round) -> set<JobKey> {
    (i: nat, r: Round) => if up(i) then {} else DeadAmong(r.after.jobs, r.rows)
  }

  lemma PicksAre(rounds: seq<Round>, up: nat -> bool)
    ensures Picks(rounds, ClaimedOf()) == set i: nat, k | i < |rounds| && k in rounds[i].rows :: (i, k)
    ensures Picks(rounds, EmbeddedOf(up)) == set i: nat, k | i < |rounds| && up(i) && k in rounds[i].rows :: (i, k)
    ensures Picks(rounds, FailedOf(up)) == set i: nat, k | i < |rounds| && !up(i) && k in rounds[i].rows :: (i, k)
    ensures Picks(rounds, DiedOf(up))
            == set i: nat, k | i < |rounds| && !up(i) && k in DeadAmong(rounds[i].after.jobs, rounds[i].rows) :: (i, k)
  {
    hide DeadAmong;
  }

  lemma NothingTallied(up: nat -> bool)
    ensures Tallied([], up, BatchOutcome(0, 0, 0, 0))
  {
    PicksAre([], up);
    assert Picks([], ClaimedOf()) == {} && Picks([], EmbeddedOf(up)) == {} && Picks([], FailedOf(up)) == {} && Picks([], DiedOf(up)) == {};
  }

  lemma TalliedNext(rounds: seq<Round>, r: Round, up: nat -> bool, totals: BatchOutcome)
    requires Tallied(rounds, up, totals) && forall i, j | 0 <= i < j < |r.rows| :: r.rows[i] != r.rows[j]
    ensures var dead := |DeadAmong(r.after.jobs, r.rows)|;
            Tallied(rounds + [r], up,
                    if up(|rounds|)
                    then BatchOutcome(totals.claimed + |r.rows|, totals.embedded + |r.rows|, totals.failed, totals.dead)
                    else BatchOutcome(totals.claimed + |r.rows|, totals.embedded, totals.failed + |r.rows|, totals.dead + dead))
  {
    hide Picks, DeadAmong, Keys;
    KeysCount(r.rows);
    PicksAre(rounds, up);
    PicksAre(rounds + [r], up);
    PicksNext(rounds, r, ClaimedOf());
    PicksNext(rounds, r, EmbeddedOf(up));
    PicksNext(rounds, r, FailedOf(up));
    PicksNext(rounds, r, DiedOf(up));
  }

  lemma TalliedMore(rounds: seq<Round>, r: Round, up: nat -> bool, totals: BatchOutcome, outcome: BatchOutcome)
    requires Tallied(rounds, up, totals) && RoundCounts(r, up(|rounds|), outcome)
    ensures Tallied(rounds + [r], up, BatchOutcome(totals.claimed + outcome.claimed, totals.embedded + outcome.embedded,
                                                   totals.failed + outcome.failed, totals.dead + outcome.dead))
  {
    hide Tallied, DeadAmong;
    TalliedNext(rounds, r, up, totals);
  }
}
