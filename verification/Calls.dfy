/** Each service call as one atomic step of the store.

    These are the meanings the imperative session and the interleaved transactions
    are proved against.  Effects are stated table by table, for all rows at once. */
module Calls {
  import opened Basics
  import opened Schema
  import Sorting

  datatype View = View(id: MemoryId, no: nat, content: string)

  datatype Error =
    | ValidationFailed | MemoryNotFound | KeyReused | KeyInconsistent | KeyVanished | ClaimExhausted

  datatype Call =
    | Remember(
        project: ProjectId, kind: MemoryType, text: string, digest: Digest, tags: seq<string>,
        importance: int, expiresAt: Option<Time>, supersedes: seq<MemoryId>,
        author: Client, key: Option<string>, model: Option<Model>, now: Time)
    | Revise(
        project: ProjectId, target: MemoryId, expected: int, text: string, digest: Digest,
        tags: seq<string>, author: Client, key: Option<string>, model: Option<Model>, now: Time)
    | Forget(project: ProjectId, target: MemoryId, now: Time)
    | Purge(project: ProjectId, target: MemoryId, now: Time)
    | Collect(keys: set<IdemKey>, dead: set<JobKey>, now: Time)
    | Embed(batch: set<JobKey>, ok: bool, now: Time)

  datatype Outcome =
    | Created(view: View, retired: seq<MemoryId>, skipped: seq<MemoryId>)
    | Deduplicated(view: View)
    | Replayed(view: View)
    | Revised(view: View, previous: nat)
    | Conflicted(current: View)
    | Forgotten(id: MemoryId)
    | AlreadyForgotten(id: MemoryId)
    | Purged
    | Collected
    | Embedded
    | Raised(error: Error)

  datatype Step = Step(db: Db, outcome: Outcome)

  // ---- arguments -------------------------------------------------------------

  predicate TextOk(text: string, tags: seq<string>) {
    1 <= |text| <= MAX_CONTENT_LENGTH && |tags| <= MAX_TAGS
  }

  predicate ArgumentsOk(c: Call)
    requires c.Remember? || c.Revise?
  {
    && TextOk(c.text, c.tags)
    && (c.Remember? ==> 0 <= c.importance <= 100 && (c.kind == TASK ==> c.expiresAt.Some?))
  }

  function Print(c: Call): Fingerprint
    requires c.Remember? || c.Revise?
  {
    if c.Remember? then RememberPrint(c.kind, c.text, c.tags, c.importance)
    else RevisePrint(c.target, c.expected, c.text, c.tags)
  }

  function OperationOf(c: Call): Operation
    requires c.Remember? || c.Revise?
  {
    if c.Remember? then REMEMBER else REVISE
  }

  // ---- idempotency -----------------------------------------------------------

  predicate Keyed(c: Call) {
    (c.Remember? || c.Revise?) && c.key.Some?
  }

  /** The key under which a call is stored: its request id, trimmed. */
  function KeyFor(c: Call): IdemKey
    requires Keyed(c)
  {
    IdemKey(c.project, Strip(c.key.value))
  }

  datatype Verdict = Unkeyed | Claimed | Replaying(id: MemoryId) | Refused(error: Error)

  function JudgeRow(row: IdemRow, c: Call): Verdict
    requires c.Remember? || c.Revise?
  {
    if row.fingerprint != Print(c) || row.operation != OperationOf(c) then Refused(KeyReused)
    else if row.state == COMPLETED && row.response.Some? then Replaying(row.response.value.id)
    else Refused(KeyInconsistent)
  }

  function Judge(db: Db, c: Call): Verdict
    requires c.Remember? || c.Revise?
  {
    if c.key.None? then Unkeyed
    else if !KeyLengthOk(Strip(c.key.value)) then Refused(ValidationFailed)
    else if KeyFor(c) !in db.idem then Claimed
    else JudgeRow(db.idem[KeyFor(c)], c)
  }

  /** A claim that was never completed. */
  function OpenRow(c: Call): IdemRow
    requires c.Remember? || c.Revise?
  {
    IdemRow(OperationOf(c), Print(c), IN_PROGRESS, None, c.now + KEY_LIFETIME)
  }

  function DoneRow(c: Call, r: Response): IdemRow
    requires c.Remember? || c.Revise?
  {
    IdemRow(OperationOf(c), Print(c), COMPLETED, Some(r), c.now + KEY_LIFETIME)
  }

  /** Completion looks the key up as the caller wrote it, untrimmed. */
  predicate Completable(c: Call)
    requires c.Remember? || c.Revise?
  {
    c.key.None? || Strip(c.key.value) == c.key.value
  }

  function WithOpenKey(db: Db, c: Call): Db
    requires c.Remember? || c.Revise?
  {
    if c.key.None? then db else db.(idem := db.idem[KeyFor(c) := OpenRow(c)])
  }

  function WithDoneKey(idem: map<IdemKey, IdemRow>, c: Call, r: Response): map<IdemKey, IdemRow>
    requires c.Remember? || c.Revise?
  {
    if c.key.None? then idem else idem[KeyFor(c) := DoneRow(c, r)]
  }

  // ---- rows ------------------------------------------------------------------

  function ViewOf(db: Db, x: MemoryId): View
    requires x in db.memories && RevKey(x, db.memories[x].current) in db.revisions
  {
    var n := db.memories[x].current;
    View(x, n, db.revisions[RevKey(x, n)].content)
  }

  /** What both retiring statements match: an active row of this project. */
  predicate Retirable(memories: map<MemoryId, Memory>, project: ProjectId, x: MemoryId) {
    x in memories && memories[x].project == project && memories[x].status == ACTIVE
  }

  /** What the revising statement matches. */
  predicate CasMatches(memories: map<MemoryId, Memory>, project: ProjectId, x: MemoryId, expected: int) {
    Retirable(memories, project, x) && memories[x].current == expected
  }

  function SupersededRow(m: Memory, winner: MemoryId, now: Time): Memory {
    m.(status := SUPERSEDED, supersededBy := Some(winner), supersededAt := Some(now))
  }

  function DeletedRow(m: Memory, now: Time): Memory {
    m.(status := DELETED, deletedAt := Some(now))
  }

  function NewRow(c: Call): Memory
    requires c.Remember?
  {
    Memory(c.project, c.kind, ACTIVE, 1, c.importance, c.expiresAt, None, None, None)
  }

  function NewRevision(c: Call): Revision
    requires c.Remember? || c.Revise?
  {
    Revision(c.project, c.text, c.digest, c.tags, true, c.author)
  }

  function DedupKeyFor(c: Call): DedupKey
    requires c.Remember?
  {
    DedupKey(c.project, HASH_VERSION, c.digest)
  }

  /** The dedup keys left after those of `gone` in this project are deleted. */
  function Release(dedup: map<DedupKey, MemoryId>, project: ProjectId, gone: set<MemoryId>): map<DedupKey, MemoryId> {
    map k | k in dedup && !(k.project == project && dedup[k] in gone) :: dedup[k]
  }

  function Enqueue(jobs: map<JobKey, Job>, c: Call, x: MemoryId, no: nat): map<JobKey, Job>
    requires c.Remember? || c.Revise?
  {
    if c.model.None? || JobKey(x, no, c.model.value) in jobs then jobs
    else jobs[JobKey(x, no, c.model.value) := Job(c.project, PENDING, 0, c.now, c.now)]
  }

  // ---- remember --------------------------------------------------------------

  /** The targets actually retired, in the order they are visited. */
  function Picked(memories: map<MemoryId, Memory>, project: ProjectId, winner: MemoryId, xs: seq<MemoryId>): seq<MemoryId> {
    if xs == [] then []
    else
      var init, x := xs[..|xs| - 1], xs[|xs| - 1];
      Picked(memories, project, winner, init)
      + (if x != winner && Retirable(memories, project, x) then [x] else [])
  }

  function Passed(memories: map<MemoryId, Memory>, project: ProjectId, winner: MemoryId, xs: seq<MemoryId>): seq<MemoryId> {
    if xs == [] then []
    else
      var init, x := xs[..|xs| - 1], xs[|xs| - 1];
      Passed(memories, project, winner, init)
      + (if x != winner && Retirable(memories, project, x) then [] else [x])
  }

  function Retire(memories: map<MemoryId, Memory>, gone: set<MemoryId>, winner: MemoryId, now: Time): map<MemoryId, Memory> {
    map x | x in memories :: if x in gone then SupersededRow(memories[x], winner, now) else memories[x]
  }

  function Losers(memories: map<MemoryId, Memory>, c: Call, id: MemoryId): set<MemoryId>
    requires c.Remember?
  {
    set x | x in c.supersedes && x != id && Retirable(memories, c.project, x)
  }

  function CreateWith(db: Db, c: Call, id: MemoryId, gone: set<MemoryId>): Db
    requires c.Remember?
  {
    db.(memories := Retire(db.memories, gone, id, c.now)[id := NewRow(c)],
        revisions := db.revisions[RevKey(id, 1) := NewRevision(c)],
        dedup := Release(db.dedup, c.project, gone)[DedupKeyFor(c) := id],
        idem := WithDoneKey(db.idem, c, Response(id, 1)),
        jobs := Enqueue(db.jobs, c, id, 1),
        birth := db.birth[id := |db.birth|])
  }

  function ExecRemember(db: Db, c: Call, id: MemoryId): Step
    requires c.Remember?
  {
    var k := DedupKeyFor(c);
    if k in db.dedup then
      if Visible(db, c.project, db.dedup[k], c.now)
      then Step(WithOpenKey(db, c), Deduplicated(ViewOf(db, db.dedup[k])))
      else Step(db, Raised(MemoryNotFound))
    else if !Completable(c) then Step(db, Raised(KeyVanished))
    else
      var order := Sorting.Ascending(c.supersedes);
      Step(CreateWith(db, c, id, Losers(db.memories, c, id)),
           Created(View(id, 1, c.text),
                   Picked(db.memories, c.project, id, order),
                   Passed(db.memories, c.project, id, order)))
  }

  // ---- revise ----------------------------------------------------------------

  function ReviseWith(db: Db, c: Call): Db
    requires c.Revise? && c.target in db.memories
  {
    var n := db.memories[c.target].current;
    db.(memories := db.memories[c.target := db.memories[c.target].(current := n + 1)],
        revisions := (map k | k in db.revisions ::
                        if k == RevKey(c.target, n) then db.revisions[k].(isCurrent := false)
                        else db.revisions[k])[RevKey(c.target, n + 1) := NewRevision(c)],
        idem := WithDoneKey(db.idem, c, Response(c.target, n + 1)),
        jobs := Enqueue(db.jobs, c, c.target, n + 1))
  }

  function ExecRevise(db: Db, c: Call): Step
    requires c.Revise?
  {
    if !Visible(db, c.project, c.target, c.now) then Step(db, Raised(MemoryNotFound))
    else if !CasMatches(db.memories, c.project, c.target, c.expected) then
      Step(WithOpenKey(db, c), Conflicted(ViewOf(db, c.target)))
    else if !Completable(c) then Step(db, Raised(KeyVanished))
    else
      var n := db.memories[c.target].current;
      Step(ReviseWith(db, c), Revised(View(c.target, n + 1, c.text), n))
  }

  function ExecBody(db: Db, c: Call, id: MemoryId): Step
    requires c.Remember? || c.Revise?
  {
    if c.Remember? then ExecRemember(db, c, id) else ExecRevise(db, c)
  }

  /** The stored response names a memory, which is read again. */
  function ExecReplay(db: Db, c: Call, x: MemoryId): Step
    requires c.Remember? || c.Revise?
  {
    if Visible(db, c.project, x, c.now) then Step(db, Replayed(ViewOf(db, x)))
    else Step(db, Raised(MemoryNotFound))
  }

  /** Both keyed operations: settle the key first, then run the body. */
  function ExecKeyed(db: Db, c: Call, id: MemoryId): Step
    requires c.Remember? || c.Revise?
  {
    if !ArgumentsOk(c) then Step(db, Raised(ValidationFailed))
    else
      match Judge(db, c)
      case Refused(e) => Step(db, Raised(e))
      case Replaying(x) => ExecReplay(db, c, x)
      case _ => ExecBody(db, c, id)
  }

  // ---- forget, purge, collect, embed -----------------------------------------

  function ForgetWith(db: Db, project: ProjectId, x: MemoryId, now: Time): Db
    requires x in db.memories
  {
    db.(memories := db.memories[x := DeletedRow(db.memories[x], now)],
        dedup := Release(db.dedup, project, {x}))
  }

  function ExecForget(db: Db, c: Call): Step
    requires c.Forget?
  {
    if c.target !in db.memories || db.memories[c.target].project != c.project then
      Step(db, Raised(MemoryNotFound))
    else if Retirable(db.memories, c.project, c.target) then
      Step(ForgetWith(db, c.project, c.target, c.now), Forgotten(c.target))
    else Step(db, AlreadyForgotten(c.target))
  }

  /** A memory that had been retired by the purged one keeps its retirement, as a deletion. */
  function Orphaned(m: Memory, gone: MemoryId, now: Time): Memory {
    if m.supersededBy != Some(gone) then m
    else m.(supersededBy := None, supersededAt := None, status := DELETED,
            deletedAt := if m.deletedAt.Some? then m.deletedAt else Some(now))
  }

  function PurgeWith(db: Db, x: MemoryId, now: Time): Db {
    db.(memories := (map y | y in db.memories && y != x :: Orphaned(db.memories[y], x, now)),
        revisions := (map k | k in db.revisions && k.id != x :: db.revisions[k]),
        dedup := (map k | k in db.dedup && db.dedup[k] != x :: db.dedup[k]),
        jobs := (map k | k in db.jobs && k.id != x :: db.jobs[k]),
        vectors := (map k | k in db.vectors && k.id != x :: db.vectors[k]))
  }

  function ExecPurge(db: Db, c: Call): Step
    requires c.Purge?
  {
    if c.target in db.memories && db.memories[c.target].project == c.project
    then Step(PurgeWith(db, c.target, c.now), Purged)
    else Step(db, Raised(MemoryNotFound))
  }

  predicate KeyExpired(row: IdemRow, now: Time) {
    row.expiresAt < now
  }

  predicate JobCollectable(j: Job, now: Time) {
    j.state == DEAD && j.createdAt < now - DEAD_JOB_RETENTION
  }

  function ExecCollect(db: Db, c: Call): Step
    requires c.Collect?
  {
    Step(db.(idem := (map k | k in db.idem && !(k in c.keys && KeyExpired(db.idem[k], c.now)) :: db.idem[k]),
             jobs := (map k | k in db.jobs && !(k in c.dead && JobCollectable(db.jobs[k], c.now)) :: db.jobs[k])),
         Collected)
  }

  function Backoff(attempts: nat): Time
    requires attempts >= 1
  {
    if attempts == 1 then BASE_BACKOFF else 2 * Backoff(attempts - 1)
  }

  /** One failed attempt: dead at the fifth, otherwise pushed back exponentially. */
  function Deferred(j: Job, now: Time): Job {
    if j.attempts + 1 >= MAX_ATTEMPTS then j.(state := DEAD, attempts := j.attempts + 1)
    else j.(attempts := j.attempts + 1, nextAttemptAt := now + Backoff(j.attempts + 1))
  }

  function AfterBatch(jobs: map<JobKey, Job>, batch: set<JobKey>, ok: bool, now: Time): map<JobKey, Job> {
    map k | k in jobs ::
      if k !in batch then jobs[k]
      else if ok then jobs[k].(state := DONE) else Deferred(jobs[k], now)
  }

  /** One vector per job of the batch, of the revision's text; existing vectors are left alone. */
  function StoredVectors(
    vectors: map<JobKey, string>, revisions: map<RevKey, Revision>, batch: set<JobKey>, ok: bool): map<JobKey, string>
  {
    if !ok then vectors
    else (map k | k in batch && RevKey(k.id, k.no) in revisions :: revisions[RevKey(k.id, k.no)].content) + vectors
  }

  function ExecEmbed(db: Db, c: Call): Step
    requires c.Embed?
  {
    Step(db.(jobs := AfterBatch(db.jobs, c.batch, c.ok, c.now),
             vectors := StoredVectors(db.vectors, db.revisions, c.batch, c.ok)),
         Embedded)
  }

  // ---- one step --------------------------------------------------------------

  /** What the environment guarantees of a step: ids are fresh, and a worker's batch was
      claimed, so its jobs are pending and due. */
  ghost predicate Admissible(db: Db, c: Call, id: MemoryId) {
    && (c.Remember? ==> id !in db.birth)
    && (c.Embed? ==> forall k | k in c.batch ::
          k in db.jobs && db.jobs[k].state == PENDING && db.jobs[k].nextAttemptAt <= c.now)
  }

  /** A call executed alone.  `id` is the identifier the database would issue. */
  function Exec(db: Db, c: Call, id: MemoryId): Step {
    match c
    case Remember(_,_,_,_,_,_,_,_,_,_,_,_) => ExecKeyed(db, c, id)
    case Revise(_,_,_,_,_,_,_,_,_,_) => ExecKeyed(db, c, id)
    case Forget(_,_,_) => ExecForget(db, c)
    case Purge(_,_,_) => ExecPurge(db, c)
    case Collect(_,_,_) => ExecCollect(db, c)
    case Embed(_,_,_) => ExecEmbed(db, c)
  }
}
