/** Which facts are currently true: one winner per revision, one retirement per memory,
    one key per active memory, and what that does and does not say about content. */
module Truth {
  import opened Basics
  import opened Schema
  import opened Calls
  import opened Invariants
  import opened History
  import Sorting

  // ---- one winner ------------------------------------------------------------

  /** The part of a run after event i leads from the state after it to any later state. */
  lemma Between(db: Db, log: seq<Event>, i: nat, j: nat)
    requires WellFormed(db) && Faithful(db, log) && i < j < |log|
    ensures WellFormed(Replay(db, log[..i])) && WellFormed(Replay(db, log[..j]))
    ensures Grows(Replay(db, log[..i]), Replay(db, log[..i + 1]))
    ensures Grows(Replay(db, log[..i + 1]), Replay(db, log[..j]))
  {
    hide WellFormed, Grows, Faithful, Exec;
    FaithfulAt(db, log, i);
    FaithfulPrefix(db, log, i);
    FaithfulPrefix(db, log, j);
    FaithfulPrefix(db, log, i + 1);
    RunWellFormed(db, log[..i]);
    RunWellFormed(db, log[..i + 1]);
    RunWellFormed(db, log[..j]);
    StepGrows(Replay(db, log[..i]), log[i].call, log[i].id);
    Onward(db, log[..i + 1], log[i + 1..j], log[..j]);
  }

  lemma Onward(db: Db, before: seq<Event>, rest: seq<Event>, all: seq<Event>)
    requires WellFormed(db) && all == before + rest && Faithful(db, all) && WellFormed(Replay(db, before))
    ensures Grows(Replay(db, before), Replay(db, all))
  {
    hide WellFormed, Grows, Faithful, Exec;
    ReplaySplit(db, before, rest);
    RunGrows(Replay(db, before), rest);
  }

  lemma RevisedStep(db: Db, c: Call, id: MemoryId)
    requires Exec(db, c, id).outcome.Revised?
    ensures var o, d := Exec(db, c, id).outcome, Exec(db, c, id).db;
            && o.view.id in db.memories && db.memories[o.view.id].current == o.previous
            && o.view.id in d.memories && d.memories[o.view.id].current == o.previous + 1
            && o.view.no == o.previous + 1
  {
    KeyedEffect(db, c, id);
  }

  /** Of all the revises that expected one revision of one memory, at most one ever commits. */
  lemma OneWinnerPerRevision(db: Db, log: seq<Event>, i: nat, j: nat)
    requires WellFormed(db) && Faithful(db, log) && i < j < |log|
    requires log[i].outcome.Revised? && log[j].outcome.Revised?
    ensures !(log[i].outcome.view.id == log[j].outcome.view.id && log[i].outcome.previous == log[j].outcome.previous)
  {
    hide WellFormed, Faithful, Exec;
    FaithfulAt(db, log, i);
    FaithfulAt(db, log, j);
    Between(db, log, i, j);
    RevisedStep(Replay(db, log[..i]), log[i].call, log[i].id);
    RevisedStep(Replay(db, log[..j]), log[j].call, log[j].id);
  }

  /** The outcome reports that it retired x. */
  predicate Retires(o: Outcome, x: MemoryId) {
    (o.Created? && x in o.retired) || o == Forgotten(x)
  }

  lemma {:induction false} PickedRetirable(ms: map<MemoryId, Memory>, p: ProjectId, w: MemoryId, xs: seq<MemoryId>, x: MemoryId)
    requires x in Picked(ms, p, w, xs)
    ensures Retirable(ms, p, x) && x in xs && x != w
  {
    if x !in Picked(ms, p, w, xs[..|xs| - 1]) {
    } else {
      PickedRetirable(ms, p, w, xs[..|xs| - 1], x);
    }
  }

  lemma RetiresStep(db: Db, c: Call, id: MemoryId, x: MemoryId)
    requires Retires(Exec(db, c, id).outcome, x)
    ensures x in db.memories && db.memories[x].status == ACTIVE
    ensures var d := Exec(db, c, id).db; x in d.memories && d.memories[x].status != ACTIVE
    ensures Exec(db, c, id).outcome.Created? ==> Exec(db, c, id).db.memories[x].supersededBy == Some(id)
  {
    if c.Remember? {
      KeyedEffect(db, c, id);
      Sorting.AscendingSorts(c.supersedes);
      PickedRetirable(db.memories, c.project, id, Sorting.Ascending(c.supersedes), x);
    } else if c.Revise? {
      KeyedEffect(db, c, id);
    }
  }

  /** A memory is retired at most once, whatever retires it. */
  lemma RetiredAtMostOnce(db: Db, log: seq<Event>, i: nat, j: nat, x: MemoryId)
    requires WellFormed(db) && Faithful(db, log) && i < j < |log|
    requires Retires(log[i].outcome, x)
    ensures !Retires(log[j].outcome, x)
  {
    hide WellFormed, Faithful, Exec, Retires;
    FaithfulAt(db, log, i);
    FaithfulAt(db, log, j);
    Between(db, log, i, j);
    RetiresStep(Replay(db, log[..i]), log[i].call, log[i].id, x);
    if Retires(log[j].outcome, x) {
      RetiresStep(Replay(db, log[..j]), log[j].call, log[j].id, x);
    }
  }

  // ---- what a conflict reports -----------------------------------------------

  /** The lost compare-and-set saw `db`; the report is read after any further run. */
  ghost predicate ReportAlwaysNewer(db: Db, c: Call)
    requires c.Revise?
  {
    forall log | Faithful(db, log) && Retirable(Replay(db, log).memories, c.project, c.target) ::
      Replay(db, log).memories[c.target].current > c.expected
  }

  /** A conflict is sure to name a newer revision exactly when the caller did not
      expect a revision that does not exist yet. */
  lemma ConflictReport(db: Db, c: Call)
    requires WellFormed(db) && c.Revise? && Retirable(db.memories, c.project, c.target)
    requires !CasMatches(db.memories, c.project, c.target, c.expected)
    ensures ReportAlwaysNewer(db, c) <==> c.expected < db.memories[c.target].current
  {
    if c.expected < db.memories[c.target].current {
      forall log | Faithful(db, log) && Retirable(Replay(db, log).memories, c.project, c.target)
        ensures Replay(db, log).memories[c.target].current > c.expected
      {
        RunGrows(db, log);
        assert RowChecks(c.target, db.memories[c.target]);
      }
    } else {
      assert Faithful(db, []) && Replay(db, []) == db;
    }
  }

  // ---- deduplication ---------------------------------------------------------

  /** Some memory of the project is active and was created with this content. */
  ghost predicate HeldBy(db: Db, c: Call, x: MemoryId)
    requires c.Remember?
  {
    OwnKey(db.memories, db.revisions, x, DedupKeyFor(c))
  }

  /** What a remember does, without a key or under one it can claim, is decided by who was created
      with this content and is still active: nobody, somebody unexpired, or somebody expired. */
  lemma RememberDecides(db: Db, c: Call, id: MemoryId)
    requires WellFormed(db) && c.Remember? && ArgumentsOk(c) && Granted(db, c)
    ensures var o := Exec(db, c, id).outcome;
            && (o.Created? <==> !(exists x :: HeldBy(db, c, x)) && Completable(c))
            && (o == Raised(KeyVanished) <==> !(exists x :: HeldBy(db, c, x)) && !Completable(c))
            && (o.Deduplicated? <==> exists x :: HeldBy(db, c, x) && Unexpired(db.memories[x], c.now))
            && (o == Raised(MemoryNotFound) <==> exists x :: HeldBy(db, c, x) && !Unexpired(db.memories[x], c.now))
            && (forall x | HeldBy(db, c, x) && o.Deduplicated? :: o.view.id == x && x in db.memories && o.view.no == db.memories[x].current)
  {
    var k := DedupKeyFor(c);
    assert Exec(db, c, id) == ExecRemember(db, c, id);
    if k in db.dedup {
      var h := db.dedup[k];
      assert HeldBy(db, c, h);
      assert forall x | HeldBy(db, c, x) :: x == h;
      assert RowChecks(h, db.memories[h]) && Gapless(db.revisions, h, db.memories[h].current);
      var r := RevKey(h, db.memories[h].current);
      assert RevisionOk(db.memories, r, db.revisions[r]);
    }
  }

  /** What a revise does, without a key or under one it can claim, is decided by what a read of the
      memory shows: nothing, the expected revision, or another one, which is then reported. */
  lemma ReviseDecides(db: Db, c: Call, id: MemoryId)
    requires WellFormed(db) && c.Revise? && ArgumentsOk(c) && Granted(db, c)
    ensures var o, seen := Exec(db, c, id).outcome, Visible(db, c.project, c.target, c.now);
            && (o == Raised(MemoryNotFound) <==> !seen)
            && (o.Revised? <==> seen && db.memories[c.target].current == c.expected && Completable(c))
            && (o == Raised(KeyVanished) <==> seen && db.memories[c.target].current == c.expected && !Completable(c))
            && (o.Conflicted? <==> seen && db.memories[c.target].current != c.expected)
            && (o.Conflicted? ==>
                  var n := db.memories[c.target].current;
                  o.current == View(c.target, n, db.revisions[RevKey(c.target, n)].content))
  {
    assert Exec(db, c, id) == ExecRevise(db, c);
  }

  /** As soon as a memory is retired, its content can be stored again. */
  lemma StorableAfterRetirement(db: Db, c: Call, id: MemoryId, x: MemoryId, again: Call, id': MemoryId)
    requires WellFormed(db) && Admissible(db, c, id) && Retires(Exec(db, c, id).outcome, x)
    requires again.Remember? && ArgumentsOk(again) && Granted(Exec(db, c, id).db, again) && Completable(again)
    requires HeldBy(db, again, x)
    ensures Exec(Exec(db, c, id).db, again, id').outcome.Created?
  {
    hide Exec, WellFormed;
    var d := Exec(db, c, id).db;
    StepWellFormed(db, c, id);
    StepGrows(db, c, id);
    RetiresStep(db, c, id, x);
    RememberDecides(d, again, id');
    forall y
      ensures !HeldBy(d, again, y)
    {
      if HeldBy(d, again, y) {
        StillHeld(db, c, id, x, again, y);
      }
    }
  }

  /** Whoever holds this content after the step held it before, or is the new memory,
      which was stored only because nobody did. */
  lemma StillHeld(db: Db, c: Call, id: MemoryId, x: MemoryId, again: Call, y: MemoryId)
    requires WellFormed(db) && Admissible(db, c, id) && again.Remember? && HeldBy(db, again, x)
    requires HeldBy(Exec(db, c, id).db, again, y) && Retires(Exec(db, c, id).outcome, x)
    ensures y == x
  {
    var d := Exec(db, c, id).db;
    StepGrows(db, c, id);
    assert DedupKeyFor(again) in db.dedup;
    if y in db.memories {
      assert RowChecks(y, db.memories[y]) && Gapless(db.revisions, y, db.memories[y].current);
      assert HeldBy(db, again, y);
    } else {
      NewHolder(db, c, id, y);
    }
  }

  lemma NewHolder(db: Db, c: Call, id: MemoryId, y: MemoryId)
    requires y !in db.memories && y in Exec(db, c, id).db.memories
    ensures c.Remember? && y == id && DedupKeyFor(c) !in db.dedup
    ensures Exec(db, c, id).db.revisions[RevKey(y, 1)].digest == c.digest
    ensures Exec(db, c, id).db.memories[y].project == c.project
  {
    if c.Remember? || c.Revise? {
      KeyedEffect(db, c, id);
    }
  }

  // ---- content ---------------------------------------------------------------

  /** An active memory of the project whose current text normalises to this digest. */
  ghost predicate Says(db: Db, p: ProjectId, x: MemoryId, g: Digest) {
    && Retirable(db.memories, p, x)
    && RevKey(x, db.memories[x].current) in db.revisions
    && db.revisions[RevKey(x, db.memories[x].current)].digest == g
  }

  /** No two active memories of a project say the same thing now. */
  ghost predicate ContentDistinct(db: Db) {
    forall p, g, x, y | Says(db, p, x, g) && Says(db, p, y, g) :: x == y
  }

  lemma ReviseSays(db: Db, c: Call, id: MemoryId, p: ProjectId, x: MemoryId, g: Digest)
    requires WellFormed(db) && Exec(db, c, id).outcome.Revised?
    ensures c.Revise?
    ensures Says(Exec(db, c, id).db, p, x, g) <==>
            if x == c.target then p == c.project && g == c.digest else Says(db, p, x, g)
  {
    KeyedEffect(db, c, id);
    NextIsNew(db, c.target);
  }

  /** A revise keeps content distinct exactly when nobody else already says the new text:
      the dedup key still carries the digest of revision 1, so nothing else checks it. */
  lemma ReviseMayDuplicate(db: Db, c: Call, id: MemoryId)
    requires WellFormed(db) && ContentDistinct(db) && Exec(db, c, id).outcome.Revised?
    ensures c.Revise?
    ensures ContentDistinct(Exec(db, c, id).db) <==> !(exists x :: x != c.target && Says(db, c.project, x, c.digest))
  {
    hide Exec, WellFormed, Says;
    var d := Exec(db, c, id).db;
    ReviseSays(db, c, id, 0, 0, 0);
    forall p, x, g
      ensures Says(d, p, x, g) <==> if x == c.target then p == c.project && g == c.digest else Says(db, p, x, g)
    {
      ReviseSays(db, c, id, p, x, g);
    }
    assert Says(d, c.project, c.target, c.digest);
    if x :| x != c.target && Says(db, c.project, x, c.digest) {
      assert Says(d, c.project, x, c.digest);
    }
  }

  /** The digest of a call is that of its text, whatever the hash. */
  predicate Hashed(h: string -> Digest, c: Call) {
    c.Remember? || c.Revise? ==> c.digest == h(c.text)
  }

  function Note(h: string -> Digest, text: string): Call {
    Remember(0, FACT, text, h(text), [], 50, None, [], "client", None, None, 0)
  }

  lemma NoteStep(db: Db, h: string -> Digest, text: string, id: MemoryId)
    requires 1 <= |text| <= MAX_CONTENT_LENGTH && DedupKeyFor(Note(h, text)) !in db.dedup
    ensures Exec(db, Note(h, text), id)
            == Step(CreateWith(db, Note(h, text), id, {}), Created(View(id, 1, text), [], []))
  {
    hide CreateWith;
    assert Losers(db.memories, Note(h, text), id) == {};
    assert Exec(db, Note(h, text), id) == ExecRemember(db, Note(h, text), id);
  }

  lemma CreatedTables(db: Db, c: Call, id: MemoryId)
    requires c.Remember?
    ensures var d := CreateWith(db, c, id, {});
            && d.memories == db.memories[id := NewRow(c)] && d.revisions == db.revisions[RevKey(id, 1) := NewRevision(c)]
            && d.dedup == db.dedup[DedupKeyFor(c) := id] && d.birth == db.birth[id := |db.birth|]
  {
    assert Retire(db.memories, {}, id, c.now) == db.memories;
    assert Release(db.dedup, c.project, {}) == db.dedup;
  }

  lemma NoteCreates(db: Db, h: string -> Digest, text: string, id: MemoryId)
    requires 1 <= |text| <= MAX_CONTENT_LENGTH && id !in db.memories && DedupKeyFor(Note(h, text)) !in db.dedup
    ensures Exec(db, Note(h, text), id).outcome == Created(View(id, 1, text), [], [])
    ensures var d, c := Exec(db, Note(h, text), id).db, Note(h, text);
            && Says(d, 0, id, h(text))
            && d.memories == db.memories[id := NewRow(c)]
            && d.revisions == db.revisions[RevKey(id, 1) := NewRevision(c)]
            && d.dedup == db.dedup[DedupKeyFor(c) := id] && d.birth == db.birth[id := |db.birth|]
  {
    NoteStep(db, h, text, id);
    CreatedTables(db, Note(h, text), id);
    hide Exec, CreateWith;
  }

  function Rewrite(h: string -> Digest, x: MemoryId, text: string): Call {
    Revise(0, x, 1, text, h(text), [], "client", None, None, 0)
  }

  lemma RewriteRevises(db: Db, h: string -> Digest, x: MemoryId, text: string, id: MemoryId)
    requires 1 <= |text| <= MAX_CONTENT_LENGTH
    requires Retirable(db.memories, 0, x) && db.memories[x].current == 1 && db.memories[x].expiresAt.None?
    requires RevKey(x, 1) in db.revisions && db.revisions[RevKey(x, 1)].isCurrent
    ensures Exec(db, Rewrite(h, x, text), id).outcome == Revised(View(x, 2, text), 1)
    ensures Says(Exec(db, Rewrite(h, x, text), id).db, 0, x, h(text))
    ensures forall y, g | y != x && Says(db, 0, y, g) :: Says(Exec(db, Rewrite(h, x, text), id).db, 0, y, g)
  {
    assert Exec(db, Rewrite(h, x, text), id) == ExecRevise(db, Rewrite(h, x, text));
  }

  /** Remember x, remember y, revise the second into x. */
  ghost function RestatedRun(h: string -> Digest, x: string, y: string): seq<Event> {
    [Event(0, Note(h, x), 1, Created(View(1, 1, x), [], [])),
     Event(1, Note(h, y), 2, Created(View(2, 1, y), [], [])),
     Event(2, Rewrite(h, 2, x), 3, Revised(View(2, 2, x), 1))]
  }

  /** For any hash and any two texts it tells apart, a run in which every digest is the digest of its
      text leaves two active memories with one content. */
  lemma DuplicateContentHappens(h: string -> Digest, x: string, y: string)
    requires 1 <= |x| <= MAX_CONTENT_LENGTH && 1 <= |y| <= MAX_CONTENT_LENGTH && h(x) != h(y)
    ensures var log := RestatedRun(h, x, y);
            && (forall e | e in log :: Hashed(h, e.call))
            && Faithful(EMPTY, log) && !ContentDistinct(Replay(EMPTY, log))
  {
    hide Exec, Faithful, Replay, ContentDistinct, Says;
    var log := RestatedRun(h, x, y);
    TwoNotes(h, x, y);
    var two := [log[0], log[1]];
    RewriteRevises(Replay(EMPTY, two), h, 2, x, 3);
    FaithfulAppend(EMPTY, two, log[2]);
    assert log == two + [log[2]];
    NotDistinct(Replay(EMPTY, log), h(x));
  }

  lemma NotDistinct(d: Db, g: Digest)
    requires Says(d, 0, 1, g) && Says(d, 0, 2, g)
    ensures !ContentDistinct(d)
  {
    hide Says;
  }

  /** The store after the two remembers, as far as the revise looks at it. */
  lemma TwoNotes(h: string -> Digest, x: string, y: string)
    requires 1 <= |x| <= MAX_CONTENT_LENGTH && 1 <= |y| <= MAX_CONTENT_LENGTH && h(x) != h(y)
    ensures var two := RestatedRun(h, x, y)[..2];
            var d := Replay(EMPTY, two);
            && two == [RestatedRun(h, x, y)[0], RestatedRun(h, x, y)[1]]
            && Faithful(EMPTY, two) && Says(d, 0, 1, h(x))
            && Retirable(d.memories, 0, 2) && d.memories[2].current == 1 && d.memories[2].expiresAt.None?
            && RevKey(2, 1) in d.revisions && d.revisions[RevKey(2, 1)].isCurrent
  {
    hide Exec, Faithful, Replay;
    var e1, e2 := RestatedRun(h, x, y)[0], RestatedRun(h, x, y)[1];
    NothingYet();
    NoteCreates(EMPTY, h, x, 1);
    FaithfulAppend(EMPTY, [], e1);
    assert [] + [e1] == [e1];
    NoteCreates(Replay(EMPTY, [e1]), h, y, 2);
    FaithfulAppend(EMPTY, [e1], e2);
    assert [e1] + [e2] == RestatedRun(h, x, y)[..2];
  }

  lemma NothingYet()
    ensures Faithful(EMPTY, []) && Replay(EMPTY, []) == EMPTY
  {
  }

  // ---- purge -----------------------------------------------------------------

  /** A memory that survives the purge of x: its row changes only if x had retired it, and then
      its retirement becomes a deletion as of the purge. */
  ghost predicate Survives(a: Memory, b: Memory, x: MemoryId, now: Time) {
    b == if a.supersededBy == Some(x)
         then a.(supersededBy := None, supersededAt := None, status := DELETED, deletedAt := Some(now))
         else a
  }

  /** A purge takes out every row of the memory in five tables and all references to it among
      memories; every row of another memory stays, up to a retirement becoming a deletion. */
  lemma PurgeErases(db: Db, c: Call, id: MemoryId)
    requires WellFormed(db) && c.Purge? && Exec(db, c, id).outcome == Purged
    ensures var d, x := Exec(db, c, id).db, c.target;
            && x in db.memories && d.memories.Keys == db.memories.Keys - {x}
            && (forall y | y in d.memories :: d.memories[y].supersededBy != Some(x) && Survives(db.memories[y], d.memories[y], x, c.now))
            && (forall k :: k in d.revisions <==> k in db.revisions && k.id != x)
            && (forall k | k in d.revisions :: d.revisions[k] == db.revisions[k])
            && (forall k :: k in d.dedup <==> k in db.dedup && db.dedup[k] != x)
            && (forall k | k in d.dedup :: d.dedup[k] == db.dedup[k])
            && (forall k :: k in d.jobs <==> k in db.jobs && k.id != x)
            && (forall k | k in d.jobs :: d.jobs[k] == db.jobs[k])
            && (forall k :: k in d.vectors <==> k in db.vectors && k.id != x)
            && (forall k | k in d.vectors :: d.vectors[k] == db.vectors[k])
            && d.idem == db.idem && d.birth == db.birth && x in d.birth
  {
    hide Orphaned;
    forall y | y in db.memories && y != c.target
      ensures Orphaned(db.memories[y], c.target, c.now).supersededBy != Some(c.target)
      ensures Survives(db.memories[y], Orphaned(db.memories[y], c.target, c.now), c.target, c.now)
    {
      assert RowChecks(y, db.memories[y]) && SuccessorOk(db.memories, db.birth, y);
      OrphanSurvives(db.memories[y], c.target, c.now);
    }
    assert RowChecks(c.target, db.memories[c.target]) && c.target in db.birth;
  }

  lemma OrphanSurvives(m: Memory, x: MemoryId, now: Time)
    requires m.supersededBy == Some(x) ==> m.deletedAt == None
    ensures Orphaned(m, x, now).supersededBy != Some(x) && Survives(m, Orphaned(m, x, now), x, now)
  {
  }

  /** A finished request whose stored response names the memory. */
  predicate Answers(row: IdemRow, x: MemoryId) {
    row.response.Some? && row.response.value.id == x
  }

  /** Some row of some table still names the memory.  That its id was once issued is not a row. */
  ghost predicate Refers(db: Db, x: MemoryId) {
    || x in db.memories
    || (exists y :: y in db.memories && db.memories[y].supersededBy == Some(x))
    || (exists k :: k in db.revisions && k.id == x)
    || (exists k :: k in db.dedup && db.dedup[k] == x)
    || (exists k :: k in db.jobs && k.id == x)
    || (exists k :: k in db.vectors && k.id == x)
    || (exists k :: k in db.idem && Answers(db.idem[k], x))
  }

  /** The one table a purge does not clear: something still refers to the memory if and only if a
      stored response did. */
  lemma PurgeResidue(db: Db, c: Call, id: MemoryId)
    requires WellFormed(db) && c.Purge? && Exec(db, c, id).outcome == Purged
    ensures Refers(Exec(db, c, id).db, c.target)
            <==> exists k :: k in db.idem && db.idem[k].response.Some? && db.idem[k].response.value.id == c.target
  {
    hide Exec, WellFormed, Survives;
    PurgeErases(db, c, id);
  }
}
