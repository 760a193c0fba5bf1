/** The tables of the store and the constraints every committed state satisfies. */
module Schema {
  import opened Basics

  type MemoryId = nat
  type ProjectId = nat
  type Client = string
  type Model = string
  /** Stands for SHA-256 of the normalised content; equal digests mean equal normalised content. */
  type Digest = nat
  /** Seconds on the database clock. */
  type Time = int

  const HASH_VERSION: nat := 1
  const MAX_CONTENT_LENGTH: nat := 8192
  const MAX_TAGS: nat := 16
  const MIN_KEY_LENGTH: nat := 8
  const MAX_KEY_LENGTH: nat := 128
  const MAX_CLAIM_ATTEMPTS: nat := 3
  const KEY_LIFETIME: Time := 604800
  const DEAD_JOB_RETENTION: Time := 2592000
  const MAX_ATTEMPTS: nat := 5
  const BASE_BACKOFF: Time := 2

  datatype MemoryType = DECISION | CONSTRAINT | FACT | TASK
  datatype Status = ACTIVE | SUPERSEDED | DELETED

  datatype Memory = Memory(
    project: ProjectId,
    kind: MemoryType,
    status: Status,
    current: nat,
    importance: int,
    expiresAt: Option<Time>,
    supersededBy: Option<MemoryId>,
    supersededAt: Option<Time>,
    deletedAt: Option<Time>)

  datatype RevKey = RevKey(id: MemoryId, no: nat)

  datatype Revision = Revision(
    project: ProjectId,
    content: string,
    digest: Digest,
    tags: seq<string>,
    isCurrent: bool,
    author: Client)

  datatype DedupKey = DedupKey(project: ProjectId, version: nat, digest: Digest)

  datatype Operation = REMEMBER | REVISE

  /** The arguments the request fingerprint is computed from; collisions are not modelled. */
  datatype Fingerprint =
    | RememberPrint(kind: MemoryType, text: string, tags: seq<string>, importance: int)
    | RevisePrint(target: MemoryId, expected: int, text: string, tags: seq<string>)

  datatype KeyState = IN_PROGRESS | COMPLETED
  datatype Response = Response(id: MemoryId, no: nat)
  datatype IdemKey = IdemKey(project: ProjectId, request: string)

  datatype IdemRow = IdemRow(
    operation: Operation,
    fingerprint: Fingerprint,
    state: KeyState,
    response: Option<Response>,
    expiresAt: Time)

  datatype JobState = PENDING | DONE | DEAD
  datatype JobKey = JobKey(id: MemoryId, no: nat, model: Model)

  datatype Job = Job(
    project: ProjectId,
    state: JobState,
    attempts: nat,
    nextAttemptAt: Time,
    createdAt: Time)

  /** `vectors` maps a key to the text whose vector is stored.  `birth` is the order in
      which memory ids were issued; it outlives a purge, as ids are never issued twice. */
  datatype Db = Db(
    memories: map<MemoryId, Memory>,
    revisions: map<RevKey, Revision>,
    dedup: map<DedupKey, MemoryId>,
    idem: map<IdemKey, IdemRow>,
    jobs: map<JobKey, Job>,
    vectors: map<JobKey, string>,
    birth: map<MemoryId, nat>)

  const EMPTY: Db := Db(map[], map[], map[], map[], map[], map[], map[])

  /** The CHECK constraints on one row of memories. */
  predicate RowChecks(x: MemoryId, m: Memory) {
    && m.current >= 1
    && 0 <= m.importance <= 100
    && m.supersededBy != Some(x)
    && (m.status == SUPERSEDED <==> m.supersededAt.Some?)
    && (m.status == SUPERSEDED ==> m.supersededBy.Some?)
    && (m.status == DELETED <==> m.deletedAt.Some?)
    && (m.kind == TASK ==> m.expiresAt.Some?)
  }

  /** Foreign key of superseded_by_id, and the order that makes it acyclic. */
  ghost predicate SuccessorOk(memories: map<MemoryId, Memory>, birth: map<MemoryId, nat>, x: MemoryId)
    requires x in memories
  {
    memories[x].supersededBy.Some? ==>
      var w := memories[x].supersededBy.value;
      && memories[x].status == SUPERSEDED
      && w in memories && memories[w].project == memories[x].project
      && x in birth && w in birth && birth[x] < birth[w]
  }

  ghost predicate MemoriesOk(memories: map<MemoryId, Memory>, birth: map<MemoryId, nat>) {
    && (forall x | x in memories :: RowChecks(x, memories[x]) && x in birth && SuccessorOk(memories, birth, x))
    && (forall x | x in birth :: birth[x] < |birth|)
  }

  /** A revision row agrees with its memory: same project, a number within 1..n, and
      it is flagged current exactly when the memory row names it as current. */
  ghost predicate RevisionOk(memories: map<MemoryId, Memory>, k: RevKey, r: Revision) {
    && k.id in memories && 1 <= k.no <= memories[k.id].current
    && r.project == memories[k.id].project
    && (r.isCurrent <==> k.no == memories[k.id].current)
    && 1 <= |r.content| <= MAX_CONTENT_LENGTH
    && |r.tags| <= MAX_TAGS
  }

  /** Revisions are numbered 1..n without a gap. */
  ghost predicate Gapless(revisions: map<RevKey, Revision>, x: MemoryId, n: nat) {
    forall i | 1 <= i <= n :: RevKey(x, i) in revisions
  }

  ghost predicate RevisionsOk(memories: map<MemoryId, Memory>, revisions: map<RevKey, Revision>) {
    && (forall k | k in revisions :: RevisionOk(memories, k, revisions[k]))
    && (forall x | x in memories :: Gapless(revisions, x, memories[x].current))
  }

  /** The key an active memory holds: it carries the digest of revision 1, whatever was revised since. */
  ghost predicate OwnKey(memories: map<MemoryId, Memory>, revisions: map<RevKey, Revision>, x: MemoryId, k: DedupKey) {
    && x in memories && memories[x].status == ACTIVE
    && RevKey(x, 1) in revisions
    && k == DedupKey(memories[x].project, HASH_VERSION, revisions[RevKey(x, 1)].digest)
  }

  /** Dedup keys and active memories correspond one to one. */
  ghost predicate DedupOk(
    memories: map<MemoryId, Memory>, revisions: map<RevKey, Revision>, dedup: map<DedupKey, MemoryId>)
  {
    && (forall k | k in dedup :: OwnKey(memories, revisions, dedup[k], k))
    && (forall x, k :: OwnKey(memories, revisions, x, k) ==> k in dedup && dedup[k] == x)
  }

  predicate KeyLengthOk(s: string) {
    MIN_KEY_LENGTH <= |s| <= MAX_KEY_LENGTH
  }

  ghost predicate IdemOk(idem: map<IdemKey, IdemRow>, birth: map<MemoryId, nat>) {
    forall k | k in idem ::
      && KeyLengthOk(k.request) && Strip(k.request) == k.request
      && (idem[k].state == COMPLETED <==> idem[k].response.Some?)
      && (idem[k].response.Some? ==> idem[k].response.value.id in birth)
  }

  /** DEAD means exactly five attempts, any other state fewer. */
  predicate JobChecks(j: Job) {
    if j.state == DEAD then j.attempts == MAX_ATTEMPTS else j.attempts < MAX_ATTEMPTS
  }

  ghost predicate JobOk(revisions: map<RevKey, Revision>, k: JobKey, j: Job) {
    && JobChecks(j)
    && RevKey(k.id, k.no) in revisions
    && j.project == revisions[RevKey(k.id, k.no)].project
  }

  ghost predicate VectorOk(revisions: map<RevKey, Revision>, k: JobKey, text: string) {
    RevKey(k.id, k.no) in revisions && text == revisions[RevKey(k.id, k.no)].content
  }

  /** A vector exists exactly for the jobs that are DONE, and is the vector of that revision's text. */
  ghost predicate JobsOk(
    revisions: map<RevKey, Revision>, jobs: map<JobKey, Job>, vectors: map<JobKey, string>)
  {
    && (forall k | k in jobs :: JobOk(revisions, k, jobs[k]))
    && (forall k :: k in vectors <==> k in jobs && jobs[k].state == DONE)
    && (forall k | k in vectors :: VectorOk(revisions, k, vectors[k]))
  }

  ghost predicate WellFormed(db: Db) {
    && MemoriesOk(db.memories, db.birth)
    && RevisionsOk(db.memories, db.revisions)
    && DedupOk(db.memories, db.revisions, db.dedup)
    && IdemOk(db.idem, db.birth)
    && JobsOk(db.revisions, db.jobs, db.vectors)
  }

  /** Stage 0: what a read of one memory by id may return. */
  predicate Visible(db: Db, project: ProjectId, x: MemoryId, now: Time) {
    && x in db.memories
    && db.memories[x].project == project
    && db.memories[x].status == ACTIVE
    && Unexpired(db.memories[x], now)
    && RevKey(x, db.memories[x].current) in db.revisions
    && db.revisions[RevKey(x, db.memories[x].current)].isCurrent
  }

  predicate Unexpired(m: Memory, now: Time) {
    m.expiresAt.None? || m.expiresAt.value > now
  }
}
