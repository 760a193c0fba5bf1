/** One session running one service call at a time: the statements each call issues, in order,
    with the savepoint of `remember` and the rollback of a call that raises. */
module Service {
  import opened Basics
  import opened Schema
  import opened Calls
  import opened Invariants
  import Effects
  import Sorting

  datatype Attestation = Attestation(id: MemoryId, client: Client)

  /** The clients that have asserted a memory. */
  function Asserters(attestations: map<Attestation, nat>, x: MemoryId): set<Client> {
    set a | a in attestations && a.id == x :: a.client
  }

  function Attested(attestations: map<Attestation, nat>, x: MemoryId, client: Client): map<Attestation, nat> {
    var a := Attestation(x, client);
    attestations[a := 1 + if a in attestations then attestations[a] else 0]
  }

  /** Corroboration counts clients: a client asserting again changes nothing, a new one adds one,
      and other memories are not affected. */
  lemma CorroborationCountsClients(attestations: map<Attestation, nat>, x: MemoryId, client: Client, y: MemoryId)
    ensures Asserters(Attested(attestations, x, client), x) == Asserters(attestations, x) + {client}
    ensures client in Asserters(attestations, x) ==>
              |Asserters(Attested(attestations, x, client), x)| == |Asserters(attestations, x)|
    ensures client !in Asserters(attestations, x) ==>
              |Asserters(Attested(attestations, x, client), x)| == |Asserters(attestations, x)| + 1
    ensures y != x ==> Asserters(Attested(attestations, x, client), y) == Asserters(attestations, y)
    ensures var a, after := Attestation(x, client), Attested(attestations, x, client);
            && after.Keys == attestations.Keys + {a}
            && after[a] == (if a in attestations then attestations[a] + 1 else 1)
            && (forall b | b in attestations && b != a :: after[b] == attestations[b])
  {
    var after := Attested(attestations, x, client);
    assert Attestation(x, client) in after;
    forall c
      ensures c in Asserters(after, x) <==> c in Asserters(attestations, x) || c == client
    {
      if c in Asserters(after, x) {
        assert Attestation(x, c) in after;
      }
      if c in Asserters(attestations, x) {
        assert Attestation(x, c) in after;
      }
    }
    assert Asserters(after, x) == Asserters(attestations, x) + {client};
    if client in Asserters(attestations, x) {
      assert Asserters(after, x) == Asserters(attestations, x);
    }
    if y != x {
      forall c
        ensures c in Asserters(after, y) <==> c in Asserters(attestations, y)
      {
        assert Attestation(y, c) in after <==> Attestation(y, c) in attestations;
      }
    }
  }

  // ---- supersession, one target at a time ------------------------------------

  /** The targets among the first ones that a winner retires. */
  function GoneAmong(ms: map<MemoryId, Memory>, project: ProjectId, winner: MemoryId, xs: seq<MemoryId>): set<MemoryId> {
    set x | x in xs && x != winner && Retirable(ms, project, x)
  }

  lemma GoneNext(ms: map<MemoryId, Memory>, project: ProjectId, winner: MemoryId, xs: seq<MemoryId>, x: MemoryId)
    ensures GoneAmong(ms, project, winner, xs + [x])
            == if x != winner && Retirable(ms, project, x) then GoneAmong(ms, project, winner, xs) + {x}
               else GoneAmong(ms, project, winner, xs)
  {
    var all := xs + [x];
    assert forall y :: y in all <==> y in xs || y == x;
  }

  /** Retiring one more row. */
  lemma RetireNext(ms: map<MemoryId, Memory>, gone: set<MemoryId>, x: MemoryId, winner: MemoryId, now: Time)
    requires x in ms && x !in gone
    ensures x in Retire(ms, gone, winner, now) && Retire(ms, gone, winner, now)[x] == ms[x]
    ensures Retire(ms, gone + {x}, winner, now)
            == Retire(ms, gone, winner, now)[x := SupersededRow(ms[x], winner, now)]
  {
  }

  lemma RetireOthers(ms: map<MemoryId, Memory>, gone: set<MemoryId>, winner: MemoryId, now: Time, project: ProjectId, x: MemoryId)
    requires x !in gone
    ensures Retirable(Retire(ms, gone, winner, now), project, x) <==> Retirable(ms, project, x)
  {
  }

  lemma ReleaseNext(dedup: map<DedupKey, MemoryId>, project: ProjectId, gone: set<MemoryId>, x: MemoryId)
    ensures Release(Release(dedup, project, gone), project, {x}) == Release(dedup, project, gone + {x})
  {
  }

  lemma NothingGone(ms: map<MemoryId, Memory>, dedup: map<DedupKey, MemoryId>, project: ProjectId, winner: MemoryId, now: Time)
    ensures GoneAmong(ms, project, winner, []) == {}
    ensures Retire(ms, {}, winner, now) == ms && Release(dedup, project, {}) == dedup
  {
  }

  /** Inserting the winner first, as the service does, retires the same rows. */
  lemma WinnerFirst(db: Db, c: Call, id: MemoryId, xs: seq<MemoryId>)
    requires c.Remember? && DedupKeyFor(c) !in db.dedup
    requires forall x :: x in xs <==> x in c.supersedes
    ensures var ms := db.memories[id := NewRow(c)];
            && GoneAmong(ms, c.project, id, xs) == Losers(db.memories, c, id)
            && Retire(ms, Losers(db.memories, c, id), id, c.now)
               == Retire(db.memories, Losers(db.memories, c, id), id, c.now)[id := NewRow(c)]
            && Release(db.dedup[DedupKeyFor(c) := id], c.project, Losers(db.memories, c, id))
               == Release(db.dedup, c.project, Losers(db.memories, c, id))[DedupKeyFor(c) := id]
  {
    var ms := db.memories[id := NewRow(c)];
    forall x | x != id
      ensures Retirable(ms, c.project, x) <==> Retirable(db.memories, c.project, x)
    {
    }
  }

  lemma {:induction false} WinnerPicks(ms: map<MemoryId, Memory>, project: ProjectId, id: MemoryId, row: Memory, xs: seq<MemoryId>)
    ensures Picked(ms[id := row], project, id, xs) == Picked(ms, project, id, xs)
    ensures Passed(ms[id := row], project, id, xs) == Passed(ms, project, id, xs)
  {
    if xs != [] {
      WinnerPicks(ms, project, id, row, xs[..|xs| - 1]);
    }
  }

  lemma UntrimmedIsUnknown(idem: map<IdemKey, IdemRow>, birth: map<MemoryId, nat>, c: Call)
    requires IdemOk(idem, birth) && Keyed(c) && !Completable(c)
    ensures IdemKey(c.project, c.key.value) !in idem
  {
  }

  /** Rows deleted, per table. */
  datatype Removed = Removed(
    embeddings: int, jobs: int, dedupKeys: int, attestations: int, revisions: int, memories: int)

  // ---- what is left of each table after a purge ------------------------------

  function RowsWithout<V>(rows: map<JobKey, V>, x: MemoryId): map<JobKey, V> {
    map k | k in rows && k.id != x :: rows[k]
  }

  function KeysWithout(dedup: map<DedupKey, MemoryId>, x: MemoryId): map<DedupKey, MemoryId> {
    map k | k in dedup && dedup[k] != x :: dedup[k]
  }

  function NotesWithout(attestations: map<Attestation, nat>, x: MemoryId): map<Attestation, nat> {
    map a | a in attestations && a.id != x :: attestations[a]
  }

  function RevisionsWithout(revisions: map<RevKey, Revision>, x: MemoryId): map<RevKey, Revision> {
    map k | k in revisions && k.id != x :: revisions[k]
  }

  function MemoriesWithout(memories: map<MemoryId, Memory>, x: MemoryId, now: Time): map<MemoryId, Memory> {
    map y | y in memories && y != x :: Orphaned(memories[y], x, now)
  }

  /** rival(n) says that at the n-th attempt to insert a key another session's uncommitted row was in
      the way and was rolled back while this one waited for it.  Here every attempt meets one. */
  ghost predicate Crowded(db: Db, c: Call, rival: nat -> bool)
    requires Keyed(c)
  {
    && KeyLengthOk(Strip(c.key.value)) && KeyFor(c) !in db.idem
    && forall n: nat | n < MAX_CLAIM_ATTEMPTS :: rival(n)
  }

  /** The atomic call, or giving up on the key. */
  ghost function ExecAmong(db: Db, c: Call, id: MemoryId, rival: nat -> bool): Step
    requires c.Remember? || c.Revise?
  {
    if Keyed(c) && ArgumentsOk(c) && Crowded(db, c, rival) then Step(db, Raised(ClaimExhausted)) else Exec(db, c, id)
  }

  class Session {
    var memories: map<MemoryId, Memory>
    var revisions: map<RevKey, Revision>
    var dedup: map<DedupKey, MemoryId>
    var idem: map<IdemKey, IdemRow>
    var jobs: map<JobKey, Job>
    var vectors: map<JobKey, string>
    var birth: map<MemoryId, nat>
    var attestations: map<Attestation, nat>

    constructor ()
      ensures Store() == EMPTY && attestations == map[] && Valid()
    {
      memories, revisions, dedup, idem, jobs, vectors, birth := map[], map[], map[], map[], map[], map[], map[];
      attestations := map[];
      new;
      EmptyWellFormed();
    }

    function Store(): Db
      reads this
    {
      Db(memories, revisions, dedup, idem, jobs, vectors, birth)
    }

    ghost predicate Valid()
      reads this
    {
      WellFormed(Store())
    }

    // -- idempotency keys --

    /** The claim: insert the key, or read the row that stands in the way; a row that is gone by
        then, as its owner rolled back, makes room for another attempt. */
    method Claim(c: Call, rival: nat -> bool) returns (v: Verdict)
      requires Keyed(c)
      modifies `idem
      ensures v == if Crowded(old(Store()), c, rival) then Refused(ClaimExhausted) else Judge(old(Store()), c)
      ensures v == Refused(ClaimExhausted) <==>
                && 8 <= |Strip(c.key.value)| <= 128 && IdemKey(c.project, Strip(c.key.value)) !in old(idem)
                && rival(0) && rival(1) && rival(2)
      ensures !v.Unkeyed?
      ensures Store() == if v.Claimed? then WithOpenKey(old(Store()), c) else old(Store())
    {
      var key := Strip(c.key.value);
      if !KeyLengthOk(key) {
        return Refused(ValidationFailed);
      }
      var k := IdemKey(c.project, key);
      for attempt := 0 to MAX_CLAIM_ATTEMPTS
        invariant Store() == old(Store())
        invariant attempt > 0 ==> k !in idem
        invariant forall n: nat | n < attempt :: rival(n)
      {
        if k !in idem && !rival(attempt) {
          idem := idem[k := OpenRow(c)];
          return Claimed;
        }
        if k in idem {
          v := JudgeRow(idem[k], c);
          return;
        }
      }
      v := Refused(ClaimExhausted);
    }

    /** The completion, which looks the key up as the caller wrote it. */
    method Complete(c: Call, response: Response) returns (ok: bool)
      requires Keyed(c) && IdemOk(idem, birth)
      requires Completable(c) ==> KeyFor(c) in idem && idem[KeyFor(c)] == OpenRow(c)
      modifies `idem
      ensures ok == Completable(c)
      ensures idem == if ok then old(idem)[KeyFor(c) := DoneRow(c, response)] else old(idem)
    {
      var k := IdemKey(c.project, c.key.value);
      if !Completable(c) {
        UntrimmedIsUnknown(idem, birth, c);
      }
      if k !in idem {
        return false;
      }
      idem := idem[k := idem[k].(state := COMPLETED, response := Some(response))];
      ok := true;
    }

    // -- rows --

    method Create(c: Call, id: MemoryId)
      requires c.Remember?
      modifies `memories, `revisions, `birth
      ensures memories == old(memories)[id := NewRow(c)]
      ensures revisions == old(revisions)[RevKey(id, 1) := NewRevision(c)]
      ensures birth == old(birth)[id := |old(birth)|]
    {
      memories := memories[id := Memory(c.project, c.kind, ACTIVE, 1, c.importance, c.expiresAt, None, None, None)];
      birth := birth[id := |birth|];
      revisions := revisions[RevKey(id, 1) := Revision(c.project, c.text, c.digest, c.tags, true, c.author)];
    }

    method ClaimDedupKey(k: DedupKey, id: MemoryId) returns (claimed: bool)
      modifies `dedup
      ensures claimed <==> k !in old(dedup)
      ensures dedup == if claimed then old(dedup)[k := id] else old(dedup)
    {
      claimed := k !in dedup;
      if claimed {
        dedup := dedup[k := id];
      }
    }

    method ReleaseDedupKeys(project: ProjectId, x: MemoryId)
      modifies `dedup
      ensures dedup == Release(old(dedup), project, {x})
    {
      dedup := map k | k in dedup && !(k.project == project && dedup[k] == x) :: dedup[k];
    }

    method Supersede(project: ProjectId, x: MemoryId, winner: MemoryId, now: Time) returns (retired: bool)
      modifies `memories, `dedup
      ensures retired == Retirable(old(memories), project, x)
      ensures memories == if retired then old(memories)[x := SupersededRow(old(memories)[x], winner, now)] else old(memories)
      ensures dedup == if retired then Release(old(dedup), project, {x}) else old(dedup)
    {
      if !(x in memories && memories[x].project == project && memories[x].status == ACTIVE) {
        return false;
      }
      memories := memories[x := memories[x].(status := SUPERSEDED, supersededAt := Some(now), supersededBy := Some(winner))];
      ReleaseDedupKeys(project, x);
      retired := true;
    }

    method ForgetRow(project: ProjectId, x: MemoryId, now: Time) returns (forgotten: bool)
      modifies `memories, `dedup
      ensures forgotten == Retirable(old(memories), project, x)
      ensures memories == if forgotten then old(memories)[x := DeletedRow(old(memories)[x], now)] else old(memories)
      ensures dedup == if forgotten then Release(old(dedup), project, {x}) else old(dedup)
    {
      if !(x in memories && memories[x].project == project && memories[x].status == ACTIVE) {
        return false;
      }
      memories := memories[x := memories[x].(status := DELETED, deletedAt := Some(now))];
      ReleaseDedupKeys(project, x);
      forgotten := true;
    }

    /** Three statements: the conditional update, the demotion, the append. */
    method CompareAndSet(c: Call) returns (revised: Option<nat>)
      requires c.Revise?
      modifies `memories, `revisions
      ensures revised.Some? == CasMatches(old(memories), c.project, c.target, c.expected)
      ensures revised.None? ==> memories == old(memories) && revisions == old(revisions)
      ensures revised.Some? ==>
                var n := old(memories)[c.target].current;
                && revised.value == n + 1
                && memories == old(memories)[c.target := old(memories)[c.target].(current := n + 1)]
                && revisions == (map k | k in old(revisions) ::
                                   if k == RevKey(c.target, n) then old(revisions)[k].(isCurrent := false)
                                   else old(revisions)[k])[RevKey(c.target, n + 1) := NewRevision(c)]
    {
      if !(c.target in memories && memories[c.target].project == c.project
           && memories[c.target].current == c.expected && memories[c.target].status == ACTIVE) {
        return None;
      }
      var next := memories[c.target].current + 1;
      memories := memories[c.target := memories[c.target].(current := next)];
      var outgoing := RevKey(c.target, next - 1);
      if outgoing in revisions {
        revisions := revisions[outgoing := revisions[outgoing].(isCurrent := false)];
      }
      revisions := revisions[RevKey(c.target, next) := Revision(c.project, c.text, c.digest, c.tags, true, c.author)];
      revised := Some(next);
    }

    method EnqueueEmbedding(c: Call, x: MemoryId, no: nat)
      requires c.Remember? || c.Revise?
      modifies `jobs
      ensures jobs == Enqueue(old(jobs), c, x, no)
      ensures c.model == None ==> jobs == old(jobs)
      ensures c.model.Some? && JobKey(x, no, c.model.value) in old(jobs) ==> jobs == old(jobs)
      ensures c.model.Some? && JobKey(x, no, c.model.value) !in old(jobs) ==>
                jobs == old(jobs)[JobKey(x, no, c.model.value) := Job(c.project, PENDING, 0, c.now, c.now)]
    {
      if c.model.Some? && JobKey(x, no, c.model.value) !in jobs {
        jobs := jobs[JobKey(x, no, c.model.value) := Job(c.project, PENDING, 0, c.now, c.now)];
      }
    }

    method Attest(x: MemoryId, client: Client) returns (count: nat)
      modifies `attestations
      ensures attestations == Attested(old(attestations), x, client)
      ensures count == |Asserters(attestations, x)|
    {
      var a := Attestation(x, client);
      if a in attestations {
        attestations := attestations[a := attestations[a] + 1];
      } else {
        attestations := attestations[a := 1];
      }
      count := |Asserters(attestations, x)|;
    }

    /** The targets in ascending order, each either retired or reported as skipped. */
    method ApplySupersession(project: ProjectId, winner: MemoryId, targets: seq<MemoryId>, now: Time)
      returns (retired: seq<MemoryId>, skipped: seq<MemoryId>)
      modifies `memories, `dedup
      ensures var order := Sorting.Ascending(targets);
              var gone := GoneAmong(old(memories), project, winner, order);
              && retired == Picked(old(memories), project, winner, order)
              && skipped == Passed(old(memories), project, winner, order)
              && memories == Retire(old(memories), gone, winner, now)
              && dedup == Release(old(dedup), project, gone)
    {
      hide Retire, Release, Retirable, GoneAmong, Sorting.Ascending;
      retired, skipped := [], [];
      var order := Sorting.Ascending(targets);
      Sorting.AscendingSorts(targets);
      ghost var ms, keys := memories, dedup;
      NothingGone(ms, keys, project, winner, now);
      for i := 0 to |order|
        invariant memories == Retire(ms, GoneAmong(ms, project, winner, order[..i]), winner, now)
        invariant dedup == Release(keys, project, GoneAmong(ms, project, winner, order[..i]))
        invariant retired == Picked(ms, project, winner, order[..i])
        invariant skipped == Passed(ms, project, winner, order[..i])
      {
        var target := order[i];
        assert order[..i + 1] == order[..i] + [target];
        GoneNext(ms, project, winner, order[..i], target);
        NotYetGone(ms, project, winner, order, i);
        if target == winner {
          skipped := skipped + [target];
        } else {
          ghost var gone := GoneAmong(ms, project, winner, order[..i]);
          RetireOthers(ms, gone, winner, now, project, target);
          if Retirable(ms, project, target) {
            InTable(ms, project, target);
            RetireNext(ms, gone, target, winner, now);
            ReleaseNext(keys, project, gone, target);
          }
          var done := Supersede(project, target, winner, now);
          if done {
            retired := retired + [target];
          } else {
            skipped := skipped + [target];
          }
        }
      }
      assert order[..|order|] == order;
    }

    // -- the calls --

    /** Restores every table: what a raised error does to its transaction. */
    method Rollback(db: Db, seen: map<Attestation, nat>)
      modifies this
      ensures Store() == db && attestations == seen
    {
      memories, revisions, dedup, idem, jobs, vectors, birth :=
        db.memories, db.revisions, db.dedup, db.idem, db.jobs, db.vectors, db.birth;
      attestations := seen;
    }

    /** The memory a stored response names, read again. */
    method Replay(c: Call, x: MemoryId) returns (o: Outcome)
      requires c.Remember? || c.Revise?
      ensures Step(Store(), o) == ExecReplay(Store(), c, x)
    {
      if !Visible(Store(), c.project, x, c.now) {
        return Raised(MemoryNotFound);
      }
      o := Replayed(ViewOf(Store(), x));
    }

    /** One remember in a transaction of its own, which an error rolls back. */
    method Remember(c: Call, id: MemoryId, rival: nat -> bool) returns (o: Outcome)
      requires Valid() && c.Remember? && id !in birth
      modifies this
      ensures Step(Store(), o) == ExecAmong(old(Store()), c, id, rival)
      ensures !(rival(0) && rival(1) && rival(2)) ==> Step(Store(), o) == Exec(old(Store()), c, id)
      ensures Valid()
      ensures o.Created? && c.model.Some? ==>
                var k := JobKey(id, 1, c.model.value);
                k !in old(jobs) && jobs == old(jobs)[k := Job(c.project, PENDING, 0, c.now, c.now)]
      ensures !(o.Created? && c.model.Some?) ==> jobs == old(jobs)
      ensures attestations == if o.Created? || o.Deduplicated? then Attested(old(attestations), o.view.id, c.author) else old(attestations)
    {
      hide WellFormed, Attested, Exec;
      var db, seen := Store(), attestations;
      StepWellFormed(db, c, id);
      RememberedJobs(db, c, id);
      RaisedIsNothing(db, c, id);
      o := RememberStatements(c, id, rival);
      if o.Raised? {
        Rollback(db, seen);
      }
    }

    method RememberStatements(c: Call, id: MemoryId, rival: nat -> bool) returns (o: Outcome)
      requires Valid() && c.Remember? && id !in birth
      modifies this
      ensures o == ExecAmong(old(Store()), c, id, rival).outcome
      ensures !o.Raised? ==> Store() == ExecAmong(old(Store()), c, id, rival).db
      ensures !o.Raised? ==>
                attestations == if o.Created? || o.Deduplicated? then Attested(old(attestations), o.view.id, c.author) else old(attestations)
    {
      hide WellFormed, ExecRemember, Visible, JudgeRow, Attested;
      ghost var db := Store();
      if !ArgumentsOk(c) {
        return Raised(ValidationFailed);
      }
      if c.key.Some? {
        var v := Claim(c, rival);
        match v {
          case Refused(e) => return Raised(e);
          case Replaying(x) =>
            o := Replay(c, x);
            return;
          case _ =>
        }
      }
      o := Record(c, id, db);
    }

    /** The speculative insert: under a savepoint, undone when the content is already held. */
    method Speculate(c: Call, id: MemoryId) returns (claimed: bool)
      requires c.Remember?
      modifies `memories, `revisions, `birth, `dedup
      ensures claimed <==> DedupKeyFor(c) !in old(dedup)
      ensures !claimed ==> Store() == old(Store())
      ensures claimed ==>
                && memories == old(memories)[id := NewRow(c)]
                && revisions == old(revisions)[RevKey(id, 1) := NewRevision(c)]
                && birth == old(birth)[id := |old(birth)|]
                && dedup == old(dedup)[DedupKeyFor(c) := id]
    {
      var savepoint := (memories, revisions, birth);
      Create(c, id);
      claimed := ClaimDedupKey(DedupKeyFor(c), id);
      if !claimed {
        memories, revisions, birth := savepoint.0, savepoint.1, savepoint.2;
      }
    }

    /** The content is held by another memory: report it, and count this client for it. */
    method Deduplicate(c: Call, holder: MemoryId) returns (o: Outcome)
      requires c.Remember?
      modifies `attestations
      ensures o == if Visible(Store(), c.project, holder, c.now) then Deduplicated(ViewOf(Store(), holder)) else Raised(MemoryNotFound)
      ensures !o.Raised? ==> attestations == Attested(old(attestations), holder, c.author)
    {
      if !Visible(Store(), c.project, holder, c.now) {
        return Raised(MemoryNotFound);
      }
      var corroboration := Attest(holder, c.author);
      o := Deduplicated(ViewOf(Store(), holder));
    }

    /** Whatever follows the insert of a new memory. */
    method Establish(c: Call, id: MemoryId, ghost db: Db) returns (o: Outcome)
      requires c.Remember? && WellFormed(db) && Granted(db, c) && DedupKeyFor(c) !in db.dedup
      requires memories == db.memories[id := NewRow(c)] && dedup == db.dedup[DedupKeyFor(c) := id]
      requires idem == WithOpenKey(db, c).idem && jobs == db.jobs && birth == db.birth[id := |db.birth|]
      modifies `memories, `dedup, `idem, `jobs, `attestations
      ensures o.Raised? <==> !Completable(c)
      ensures o.Raised? ==> o == Raised(KeyVanished)
      ensures !o.Raised? ==>
                var d, order := CreateWith(db, c, id, Losers(db.memories, c, id)), Sorting.Ascending(c.supersedes);
                && memories == d.memories && dedup == d.dedup && idem == d.idem && jobs == d.jobs
                && o == Created(View(id, 1, c.text),
                                Picked(db.memories, c.project, id, order), Passed(db.memories, c.project, id, order))
                && attestations == Attested(old(attestations), id, c.author)
    {
      hide WellFormed, Retire, Release, GoneAmong, Picked, Passed, Sorting.Ascending, Enqueue, Losers, Judge, IdemOk, Attested, WithOpenKey, WithDoneKey, Completable, Granted;
      var retired, skipped := ApplySupersession(c.project, id, c.supersedes, c.now);
      Sorting.AscendingSorts(c.supersedes);
      WinnerFirst(db, c, id, Sorting.Ascending(c.supersedes));
      WinnerPicks(db.memories, c.project, id, NewRow(c), Sorting.Ascending(c.supersedes));
      EnqueueEmbedding(c, id, 1);
      var corroboration := Attest(id, c.author);
      var ok := Settle(c, Response(id, 1), db);
      if !ok {
        return Raised(KeyVanished);
      }
      o := Created(View(id, 1, c.text), retired, skipped);
    }

    /** A keyed call records its response; any other has nothing to record. */
    method Settle(c: Call, response: Response, ghost db: Db) returns (ok: bool)
      requires (c.Remember? || c.Revise?) && WellFormed(db) && Granted(db, c)
      requires idem == WithOpenKey(db, c).idem && (birth == db.birth || birth == db.birth[response.id := |db.birth|])
      modifies `idem
      ensures ok == Completable(c)
      ensures ok ==> idem == WithDoneKey(db.idem, c, response)
      ensures !ok ==> idem == old(idem)
    {
      hide WellFormed, Judge, IdemOk;
      if c.key.None? {
        return true;
      }
      OpenIsOk(db, c, response.id);
      ok := Complete(c, response);
    }

    /** The body of remember, once its key is claimed. */
    method Record(c: Call, id: MemoryId, ghost db: Db) returns (o: Outcome)
      requires c.Remember? && WellFormed(db) && Granted(db, c) && Store() == WithOpenKey(db, c)
      modifies this
      ensures o == ExecRemember(db, c, id).outcome
      ensures !o.Raised? ==> Store() == ExecRemember(db, c, id).db
      ensures !o.Raised? ==> attestations == Attested(old(attestations), o.view.id, c.author)
      ensures o.Created? || o.Deduplicated? || o.Raised?
    {
      hide WellFormed, Picked, Passed, Sorting.Ascending, Losers, Judge, Attested, Visible, ViewOf, CreateWith, WithOpenKey, Completable;
      SameTables(db, c);
      var claimed := Speculate(c, id);
      if claimed {
        o := Establish(c, id, db);
        CreateTables(db, c, id);
      } else {
        SameSight(db, c, dedup[DedupKeyFor(c)]);
        o := Deduplicate(c, dedup[DedupKeyFor(c)]);
      }
    }

    /** One revise in a transaction of its own, which an error rolls back. */
    method Revise(c: Call, rival: nat -> bool) returns (o: Outcome)
      requires Valid() && c.Revise?
      modifies this
      ensures Step(Store(), o) == ExecAmong(old(Store()), c, 0, rival)
      ensures !(rival(0) && rival(1) && rival(2)) ==> Step(Store(), o) == Exec(old(Store()), c, 0)
      ensures Valid()
      ensures o.Revised? && c.model.Some? ==>
                var k := JobKey(c.target, o.view.no, c.model.value);
                k !in old(jobs) && jobs == old(jobs)[k := Job(c.project, PENDING, 0, c.now, c.now)]
      ensures !(o.Revised? && c.model.Some?) ==> jobs == old(jobs)
      ensures attestations == old(attestations)
    {
      hide WellFormed, Exec;
      var db, seen := Store(), attestations;
      StepWellFormed(db, c, 0);
      RevisedJobs(db, c);
      RaisedIsNothing(db, c, 0);
      o := ReviseStatements(c, rival);
      if o.Raised? {
        Rollback(db, seen);
      }
    }

    method ReviseStatements(c: Call, rival: nat -> bool) returns (o: Outcome)
      requires Valid() && c.Revise?
      modifies this
      ensures o == ExecAmong(old(Store()), c, 0, rival).outcome
      ensures !o.Raised? ==> Store() == ExecAmong(old(Store()), c, 0, rival).db
      ensures attestations == old(attestations)
    {
      hide WellFormed, ExecRevise, Visible, JudgeRow;
      ghost var db := Store();
      if !ArgumentsOk(c) {
        return Raised(ValidationFailed);
      }
      if c.key.Some? {
        var v := Claim(c, rival);
        match v {
          case Refused(e) => return Raised(e);
          case Replaying(x) =>
            o := Replay(c, x);
            return;
          case _ =>
        }
      }
      o := Refine(c, db);
    }

    /** The body of revise, once its key is claimed. */
    method Refine(c: Call, ghost db: Db) returns (o: Outcome)
      requires c.Revise? && WellFormed(db) && Granted(db, c) && Store() == WithOpenKey(db, c)
      modifies this
      ensures o == ExecRevise(db, c).outcome
      ensures !o.Raised? ==> Store() == ExecRevise(db, c).db
      ensures attestations == old(attestations)
    {
      hide WellFormed, Visible, ViewOf, Enqueue, Judge, CasMatches, WithOpenKey, WithDoneKey, Completable, ReviseWith, Granted;
      SameSight(db, c, c.target);
      SameTables(db, c);
      if !Visible(Store(), c.project, c.target, c.now) {
        return Raised(MemoryNotFound);
      }
      InRows(db, c);
      var revised := CompareAndSet(c);
      if revised.None? {
        // Read again, to report what won.
        if !Visible(Store(), c.project, c.target, c.now) {
          return Raised(MemoryNotFound);
        }
        return Conflicted(ViewOf(Store(), c.target));
      }
      ReviseTables(db, c);
      o := Conclude(c, revised.value, db);
    }

    /** Whatever follows a won compare-and-set. */
    method Conclude(c: Call, no: nat, ghost db: Db) returns (o: Outcome)
      requires c.Revise? && WellFormed(db) && Granted(db, c) && Visible(db, c.project, c.target, c.now)
      requires c.target in db.memories && no == db.memories[c.target].current + 1
      requires memories == ReviseWith(db, c).memories && revisions == ReviseWith(db, c).revisions
      requires idem == WithOpenKey(db, c).idem && birth == db.birth
      requires dedup == db.dedup && jobs == db.jobs && vectors == db.vectors
      modifies `idem, `jobs
      ensures o == if Completable(c) then Revised(View(c.target, no, c.text), no - 1) else Raised(KeyVanished)
      ensures Completable(c) ==> Store() == ReviseWith(db, c)
    {
      hide WellFormed, Visible, ViewOf, Enqueue, Judge, WithOpenKey, WithDoneKey, Completable, ReviseWith, Granted;
      ReviseTables(db, c);
      EnqueueEmbedding(c, c.target, no);
      var ok := Settle(c, Response(c.target, no), db);
      if !ok {
        return Raised(KeyVanished);
      }
      RevisedIsVisible(db, c);
      if !Visible(Store(), c.project, c.target, c.now) {
        return Raised(MemoryNotFound);
      }
      o := Revised(ViewOf(Store(), c.target), no - 1);
    }

    method Forget(c: Call) returns (o: Outcome)
      requires Valid() && c.Forget?
      modifies `memories, `dedup
      ensures Step(Store(), o) == Exec(old(Store()), c, 0)
      ensures Valid()
    {
      hide WellFormed, Release;
      StepWellFormed(Store(), c, 0);
      if !(c.target in memories && memories[c.target].project == c.project) {
        return Raised(MemoryNotFound);
      }
      var forgotten := ForgetRow(c.project, c.target, c.now);
      o := if forgotten then Forgotten(c.target) else AlreadyForgotten(c.target);
    }

    method DeleteVectors(x: MemoryId) returns (n: nat)
      modifies `vectors
      ensures vectors == RowsWithout(old(vectors), x)
      ensures n == |old(vectors)| - |vectors|
    {
      var gone := set k | k in vectors && k.id == x;
      vectors := map k | k in vectors && k.id != x :: vectors[k];
      Deleted(old(vectors), vectors, gone);
      n := |gone|;
    }

    method DeleteJobs(x: MemoryId) returns (n: nat)
      modifies `jobs
      ensures jobs == RowsWithout(old(jobs), x)
      ensures n == |old(jobs)| - |jobs|
    {
      var gone := set k | k in jobs && k.id == x;
      jobs := map k | k in jobs && k.id != x :: jobs[k];
      Deleted(old(jobs), jobs, gone);
      n := |gone|;
    }

    method DeleteDedupKeys(x: MemoryId) returns (n: nat)
      modifies `dedup
      ensures dedup == KeysWithout(old(dedup), x)
      ensures n == |old(dedup)| - |dedup|
    {
      var gone := set k | k in dedup && dedup[k] == x;
      dedup := map k | k in dedup && dedup[k] != x :: dedup[k];
      Deleted(old(dedup), dedup, gone);
      n := |gone|;
    }

    method DeleteAttestations(x: MemoryId) returns (n: nat)
      modifies `attestations
      ensures attestations == NotesWithout(old(attestations), x)
      ensures n == |old(attestations)| - |attestations|
    {
      var gone := set a | a in attestations && a.id == x;
      attestations := map a | a in attestations && a.id != x :: attestations[a];
      Deleted(old(attestations), attestations, gone);
      n := |gone|;
    }

    method DeleteRevisions(x: MemoryId) returns (n: nat)
      modifies `revisions
      ensures revisions == RevisionsWithout(old(revisions), x)
      ensures n == |old(revisions)| - |revisions|
    {
      var gone := set k | k in revisions && k.id == x;
      revisions := map k | k in revisions && k.id != x :: revisions[k];
      Deleted(old(revisions), revisions, gone);
      n := |gone|;
    }

    /** Memories the purged one had retired stay retired, as deletions. */
    method ReleaseReferences(x: MemoryId, now: Time)
      modifies `memories
      ensures memories == (map y | y in old(memories) :: Orphaned(old(memories)[y], x, now))
    {
      memories := map y | y in memories ::
        if memories[y].supersededBy != Some(x) then memories[y]
        else memories[y].(supersededBy := None, supersededAt := None, status := DELETED,
                          deletedAt := if memories[y].deletedAt.Some? then memories[y].deletedAt else Some(now));
    }

    method DeleteMemory(x: MemoryId)
      modifies `memories
      ensures memories == (map y | y in old(memories) && y != x :: old(memories)[y])
    {
      memories := map y | y in memories && y != x :: memories[y];
    }

    /** In the order that no foreign key refuses: what is derived, then the references, then the memory. */
    method PurgeRows(x: MemoryId, now: Time) returns (removed: Removed)
      modifies `memories, `revisions, `dedup, `jobs, `vectors, `attestations
      ensures memories == MemoriesWithout(old(memories), x, now)
      ensures revisions == RevisionsWithout(old(revisions), x)
      ensures dedup == KeysWithout(old(dedup), x)
      ensures jobs == RowsWithout(old(jobs), x)
      ensures vectors == RowsWithout(old(vectors), x)
      ensures attestations == NotesWithout(old(attestations), x)
      ensures removed == Removed(|old(vectors)| - |vectors|, |old(jobs)| - |jobs|, |old(dedup)| - |dedup|,
                                 |old(attestations)| - |attestations|, |old(revisions)| - |revisions|, 1)
    {
      hide Orphaned, RowsWithout, KeysWithout, NotesWithout, RevisionsWithout, MemoriesWithout;
      var embeddings := DeleteVectors(x);
      var queued := DeleteJobs(x);
      var keys := DeleteDedupKeys(x);
      var notes := DeleteAttestations(x);
      var history := DeleteRevisions(x);
      ReleaseReferences(x, now);
      DeleteMemory(x);
      OrphanThenDelete(old(memories), x, now);
      removed := Removed(embeddings, queued, keys, notes, history, 1);
    }

    /** The operator's purge.  `removed` counts the rows deleted per table. */
    method Purge(c: Call) returns (o: Outcome, removed: Option<Removed>)
      requires Valid() && c.Purge?
      modifies this
      ensures Step(Store(), o) == Exec(old(Store()), c, 0)
      ensures Valid()
      ensures removed.Some? <==> o.Purged?
      ensures o.Purged? ==>
                && (forall a :: a in attestations <==> a in old(attestations) && a.id != c.target)
                && (forall a | a in attestations :: attestations[a] == old(attestations)[a])
      ensures o.Purged? ==>
                removed.value == Removed(|old(vectors)| - |vectors|, |old(jobs)| - |jobs|, |old(dedup)| - |dedup|,
                                         |old(attestations)| - |attestations|, |old(revisions)| - |revisions|, 1)
    {
      hide WellFormed, Exec, PurgeWith, RowsWithout, KeysWithout, NotesWithout, RevisionsWithout, MemoriesWithout;
      StepWellFormed(Store(), c, 0);
      PurgeIs(Store(), c);
      if !(c.target in memories && memories[c.target].project == c.project) {
        return Raised(MemoryNotFound), None;
      }
      NotesLeft(attestations, c.target);
      var rows := PurgeRows(c.target, c.now);
      return Purged, Some(rows);
    }

    /** At most so many spent keys, all of them if they fit. */
    method PurgeExpired(limit: nat, now: Time) returns (n: nat, ghost doomed: set<IdemKey>)
      modifies `idem
      ensures doomed <= old(idem).Keys && idem == old(idem) - doomed && n == |doomed| == |old(idem)| - |idem| && n <= limit
      ensures forall k | k in doomed :: old(idem)[k].expiresAt < now
      ensures n < limit ==> forall k | k in idem :: idem[k].expiresAt >= now
    {
      var spent := set k | k in idem && idem[k].expiresAt < now;
      var picked := Limited(spent, limit);
      doomed := picked;
      Deleted(idem, idem - picked, picked);
      idem := idem - picked;
      n := |picked|;
    }

    /** At most so many dead jobs older than thirty days, all of them if they fit. */
    method DeleteDeadJobs(limit: nat, now: Time) returns (n: nat, ghost dead: set<JobKey>)
      modifies `jobs
      ensures dead <= old(jobs).Keys && jobs == old(jobs) - dead && n == |dead| == |old(jobs)| - |jobs| && n <= limit
      ensures forall k | k in dead :: old(jobs)[k].state == DEAD && old(jobs)[k].createdAt < now - 2592000
      ensures n < limit ==> forall k | k in jobs :: !(jobs[k].state == DEAD && jobs[k].createdAt < now - 2592000)
    {
      var settled := set k | k in jobs && jobs[k].state == DEAD && jobs[k].createdAt < now - DEAD_JOB_RETENTION;
      var picked := Limited(settled, limit);
      dead := picked;
      Deleted(jobs, jobs - picked, picked);
      jobs := jobs - picked;
      n := |picked|;
    }

    method CollectGarbage(batch: nat, now: Time) returns (keys: nat, deadJobs: nat, ghost c: Call)
      requires Valid()
      modifies `idem, `jobs
      ensures c.Collect? && c.now == now && Step(Store(), Collected) == Exec(old(Store()), c, 0)
      ensures Valid()
      ensures keys == |old(idem)| - |idem| && deadJobs == |old(jobs)| - |jobs| && keys <= batch && deadJobs <= batch
      ensures forall k | k in old(idem) && k !in idem :: old(idem)[k].expiresAt < now
      ensures forall k | k in old(jobs) && k !in jobs :: old(jobs)[k].state == DEAD && old(jobs)[k].createdAt < now - 2592000
      ensures keys < batch ==> forall k | k in idem :: idem[k].expiresAt >= now
      ensures deadJobs < batch ==> forall k | k in jobs :: !(jobs[k].state == DEAD && jobs[k].createdAt < now - 2592000)
    {
      hide WellFormed, Exec, ExecCollect, Admissible;
      ghost var db := Store();
      ghost var doomed, dead;
      keys, doomed := PurgeExpired(batch, now);
      deadJobs, dead := DeleteDeadJobs(batch, now);
      c := Collect(doomed, dead, now);
      CollectsThese(db, c);
    }
  }

  lemma CollectsThese(db: Db, c: Call)
    requires WellFormed(db) && c.Collect? && forall k | k in c.keys :: k in db.idem && db.idem[k].expiresAt < c.now
    requires forall k | k in c.dead :: k in db.jobs && db.jobs[k].state == DEAD && db.jobs[k].createdAt < c.now - 2592000
    ensures Exec(db, c, 0) == Step(db.(idem := db.idem - c.keys, jobs := db.jobs - c.dead), Collected)
    ensures WellFormed(Exec(db, c, 0).db)
  {
    hide WellFormed;
    StepWellFormed(db, c, 0);
    var d := ExecCollect(db, c).db;
    assert d.idem == db.idem - c.keys;
    assert d.jobs == db.jobs - c.dead;
  }

  lemma NotesLeft(attestations: map<Attestation, nat>, x: MemoryId)
    ensures var left := NotesWithout(attestations, x);
            && (forall a :: a in left <==> a in attestations && a.id != x)
            && (forall a | a in left :: left[a] == attestations[a])
  {
  }

  lemma PurgeIs(db: Db, c: Call)
    requires c.Purge?
    ensures Exec(db, c, 0) == if c.target in db.memories && db.memories[c.target].project == c.project
                              then Step(PurgeWith(db, c.target, c.now), Purged) else Step(db, Raised(MemoryNotFound))
    ensures var d, x := PurgeWith(db, c.target, c.now), c.target;
            && d.memories == MemoriesWithout(db.memories, x, c.now)
            && d.revisions == RevisionsWithout(db.revisions, x)
            && d.dedup == KeysWithout(db.dedup, x)
            && d.jobs == RowsWithout(db.jobs, x)
            && d.vectors == RowsWithout(db.vectors, x)
            && d.idem == db.idem && d.birth == db.birth
  {
    hide Orphaned;
  }

  lemma OrphanThenDelete(ms: map<MemoryId, Memory>, x: MemoryId, now: Time)
    ensures var released := map y | y in ms :: Orphaned(ms[y], x, now);
            (map y | y in released && y != x :: released[y]) == MemoriesWithout(ms, x, now)
  {
  }

  lemma SameTables(db: Db, c: Call)
    requires c.Remember? || c.Revise?
    ensures var d := WithOpenKey(db, c);
            d.memories == db.memories && d.revisions == db.revisions && d.dedup == db.dedup
            && d.jobs == db.jobs && d.vectors == db.vectors && d.birth == db.birth
  {
  }

  lemma CreateTables(db: Db, c: Call, id: MemoryId)
    requires c.Remember?
    ensures var d := CreateWith(db, c, id, Losers(db.memories, c, id));
            && d.revisions == db.revisions[RevKey(id, 1) := NewRevision(c)]
            && d.vectors == db.vectors && d.birth == db.birth[id := |db.birth|]
  {
  }

  lemma ReviseTables(db: Db, c: Call)
    requires c.Revise? && c.target in db.memories
    ensures var d, n := ReviseWith(db, c), db.memories[c.target].current;
            && d.memories == db.memories[c.target := db.memories[c.target].(current := n + 1)]
            && d.revisions == (map k | k in db.revisions ::
                                 if k == RevKey(c.target, n) then db.revisions[k].(isCurrent := false)
                                 else db.revisions[k])[RevKey(c.target, n + 1) := NewRevision(c)]
            && d.idem == WithDoneKey(db.idem, c, Response(c.target, n + 1))
            && d.jobs == Enqueue(db.jobs, c, c.target, n + 1)
            && d.dedup == db.dedup && d.vectors == db.vectors && d.birth == db.birth
  {
  }

  /** An open key changes nothing a reader of memories sees. */
  lemma SameSight(db: Db, c: Call, x: MemoryId)
    requires c.Remember? || c.Revise?
    ensures Visible(WithOpenKey(db, c), c.project, x, c.now) <==> Visible(db, c.project, x, c.now)
    ensures Visible(db, c.project, x, c.now) ==> ViewOf(WithOpenKey(db, c), x) == ViewOf(db, x) && ViewOf(db, x).id == x
  {
  }

  lemma InRows(db: Db, c: Call)
    requires c.Revise? && Visible(db, c.project, c.target, c.now)
    ensures c.target in db.memories && RevKey(c.target, db.memories[c.target].current) in db.revisions
    ensures CasMatches(db.memories, c.project, c.target, c.expected) ==> db.memories[c.target].current == c.expected
  {
  }

  lemma RevisedIsVisible(db: Db, c: Call)
    requires c.Revise? && Visible(db, c.project, c.target, c.now)
    ensures var d, n := ReviseWith(db, c), db.memories[c.target].current;
            Visible(d, c.project, c.target, c.now) && ViewOf(d, c.target) == View(c.target, n + 1, c.text)
  {
  }

  /** The jobs a remember leaves: one more if it created a memory for a model, else the same. */
  lemma RememberedJobs(db: Db, c: Call, id: MemoryId)
    requires WellFormed(db) && c.Remember? && id !in db.birth
    ensures var s := Exec(db, c, id);
            && (s.outcome.Created? && c.model.Some? ==>
                  var k := JobKey(id, 1, c.model.value);
                  k !in db.jobs && s.db.jobs == db.jobs[k := Job(c.project, PENDING, 0, c.now, c.now)])
            && (!(s.outcome.Created? && c.model.Some?) ==> s.db.jobs == db.jobs)
  {
    hide Exec, WellFormed;
    var s := Exec(db, c, id);
    if s.outcome.Created? {
      Effects.EmbeddingQueued(db, c, id);
      Effects.CreatedAsAsked(db, c, id);
      OneMoreJob(db.jobs, s.db.jobs, c, id, 1);
    } else {
      NotRevised(db, c, id);
      Effects.QuietKeepsJobs(db, c, id);
    }
  }

  lemma OneMoreJob(before: map<JobKey, Job>, after: map<JobKey, Job>, c: Call, x: MemoryId, no: nat)
    requires c.Remember? || c.Revise?
    requires forall j | j in before :: j in after && after[j] == before[j]
    requires c.model.Some? ==> after.Keys == before.Keys + {JobKey(x, no, c.model.value)}
    ensures c.model.Some? && JobKey(x, no, c.model.value) !in before ==>
              after == before[JobKey(x, no, c.model.value) := after[JobKey(x, no, c.model.value)]]
  {
  }

  lemma NotRevised(db: Db, c: Call, id: MemoryId)
    requires c.Remember?
    ensures !Exec(db, c, id).outcome.Revised?
  {
  }

  /** The jobs a revise leaves: one more if it appended a revision for a model, else the same. */
  lemma RevisedJobs(db: Db, c: Call)
    requires WellFormed(db) && c.Revise?
    ensures var s := Exec(db, c, 0);
            && (s.outcome.Revised? && c.model.Some? ==>
                  var k := JobKey(c.target, s.outcome.view.no, c.model.value);
                  k !in db.jobs && s.db.jobs == db.jobs[k := Job(c.project, PENDING, 0, c.now, c.now)])
            && (!(s.outcome.Revised? && c.model.Some?) ==> s.db.jobs == db.jobs)
  {
    hide Exec, WellFormed;
    var s := Exec(db, c, 0);
    if s.outcome.Revised? {
      Effects.EmbeddingQueued(db, c, 0);
      Effects.RevisedAsAsked(db, c, 0);
      OneMoreJob(db.jobs, s.db.jobs, c, c.target, s.outcome.view.no);
    } else {
      NotCreated(db, c);
      Effects.QuietKeepsJobs(db, c, 0);
    }
  }

  lemma NotCreated(db: Db, c: Call)
    requires c.Revise?
    ensures !Exec(db, c, 0).outcome.Created?
  {
  }

  /** A limited selection: all of the set, or some of the size asked for. */
  method Limited<T(==)>(s: set<T>, limit: nat) returns (r: set<T>)
    ensures r <= s && |r| <= limit && (|r| < limit ==> r == s)
  {
    r := {};
    var left := s;
    while |r| < limit && left != {}
      invariant r + left == s && r !! left && |r| <= limit
      decreases |left|
    {
      var x :| x in left;
      r, left := r + {x}, left - {x};
    }
  }

  lemma Deleted<K, V>(before: map<K, V>, after: map<K, V>, gone: set<K>)
    requires gone <= before.Keys && after.Keys == before.Keys - gone
    ensures |after| + |gone| == |before|
  {
    assert before.Keys == after.Keys + gone;
    assert |before.Keys| == |after.Keys| + |gone|;
  }

  /** A call that raises leaves the tables alone. */
  lemma RaisedIsNothing(db: Db, c: Call, id: MemoryId)
    requires c.Remember? || c.Revise?
    ensures Exec(db, c, id).outcome.Raised? ==> Exec(db, c, id).db == db
  {
    Effects.RefusedExactly(db, c, id);
  }

  lemma OpenIsOk(db: Db, c: Call, id: MemoryId)
    requires WellFormed(db) && Keyed(c) && Granted(db, c)
    ensures IdemOk(WithOpenKey(db, c).idem, db.birth)
    ensures IdemOk(WithOpenKey(db, c).idem, db.birth[id := |db.birth|])
  {
    OpenKeyOk(db, c);
  }

  lemma InTable(ms: map<MemoryId, Memory>, project: ProjectId, x: MemoryId)
    requires Retirable(ms, project, x)
    ensures x in ms
  {
  }

  lemma NotYetGone(ms: map<MemoryId, Memory>, project: ProjectId, winner: MemoryId, order: seq<MemoryId>, i: nat)
    requires Sorting.Increasing(order) && i < |order|
    ensures order[i] !in GoneAmong(ms, project, winner, order[..i])
  {
    assert order[i] !in order[..i];
  }
}
