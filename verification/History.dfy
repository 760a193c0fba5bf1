/** Runs: sequences of calls, executed one after another. */
module History {
  import opened Basics
  import opened Schema
  import opened Calls
  import opened Invariants

  /** A call that was executed, by whom, with the id it was issued and what it answered. */
  datatype Event = Event(txn: nat, call: Call, id: MemoryId, outcome: Outcome)

  function Replay(db: Db, log: seq<Event>): Db {
    if log == [] then db
    else
      var e := log[|log| - 1];
      Exec(Replay(db, log[..|log| - 1]), e.call, e.id).db
  }

  /** Every event of the log answers what its call answers at that point. */
  ghost predicate Faithful(db: Db, log: seq<Event>) {
    log == []
    || var init, e := log[..|log| - 1], log[|log| - 1];
       && Faithful(db, init)
       && Admissible(Replay(db, init), e.call, e.id)
       && Exec(Replay(db, init), e.call, e.id).outcome == e.outcome
  }

  lemma FaithfulAppend(db: Db, log: seq<Event>, e: Event)
    requires Faithful(db, log) && Admissible(Replay(db, log), e.call, e.id)
    requires Exec(Replay(db, log), e.call, e.id).outcome == e.outcome
    ensures Faithful(db, log + [e])
    ensures Replay(db, log + [e]) == Exec(Replay(db, log), e.call, e.id).db
  {
    assert (log + [e])[..|log|] == log;
  }

  lemma {:induction false} FaithfulPrefix(db: Db, log: seq<Event>, n: nat)
    requires Faithful(db, log) && n <= |log|
    ensures Faithful(db, log[..n])
  {
    if n < |log| {
      FaithfulPrefix(db, log[..|log| - 1], n);
      assert log[..|log| - 1][..n] == log[..n];
    } else {
      assert log[..n] == log;
    }
  }

  /** The state before event i, and that event's step. */
  lemma {:induction false} FaithfulAt(db: Db, log: seq<Event>, i: nat)
    requires Faithful(db, log) && i < |log|
    ensures Faithful(db, log[..i]) && Admissible(Replay(db, log[..i]), log[i].call, log[i].id)
    ensures Exec(Replay(db, log[..i]), log[i].call, log[i].id) == Step(Replay(db, log[..i + 1]), log[i].outcome)
  {
    FaithfulPrefix(db, log, i + 1);
    assert log[..i + 1][..i] == log[..i];
  }

  /** A later part of a run is a run from the state in between. */
  lemma {:induction false} ReplaySplit(db: Db, a: seq<Event>, b: seq<Event>)
    ensures Replay(db, a + b) == Replay(Replay(db, a), b)
    ensures Faithful(db, a + b) <==> Faithful(db, a) && Faithful(Replay(db, a), b)
  {
    if b == [] {
      assert a + b == a;
    } else {
      var init := b[..|b| - 1];
      ReplaySplit(db, a, init);
      assert (a + b)[..|a + b| - 1] == a + init;
    }
  }

  /** Any run from a well-formed store, purges and collections included, ends well formed. */
  lemma {:induction false} RunWellFormed(db: Db, log: seq<Event>)
    requires WellFormed(db) && Faithful(db, log)
    ensures WellFormed(Replay(db, log))
  {
    if log != [] {
      var init, e := log[..|log| - 1], log[|log| - 1];
      RunWellFormed(db, init);
      StepWellFormed(Replay(db, init), e.call, e.id);
    }
  }

  // ---- what never comes back -------------------------------------------------

  /** How one memory row may evolve: identity and expiry fixed, the current number only
      advances, and a retired row stays retired. */
  ghost predicate RowGrows(a: Memory, b: Memory) {
    && b.project == a.project && b.kind == a.kind && b.expiresAt == a.expiresAt
    && a.current <= b.current
    && (a.status != ACTIVE ==> b.status != ACTIVE && b.current == a.current)
  }

  /** Content is immutable and a replaced revision never becomes current again. */
  ghost predicate RevisionGrows(a: Revision, b: Revision) {
    && b.content == a.content && b.digest == a.digest && b.tags == a.tags
    && b.author == a.author && b.project == a.project
    && (!a.isCurrent ==> !b.isCurrent)
  }

  ghost predicate MemoriesGrow(a: Db, b: Db) {
    forall x | x in b.memories ::
      if x in a.memories then RowGrows(a.memories[x], b.memories[x]) else x !in a.birth
  }

  ghost predicate RevisionsGrow(a: Db, b: Db) {
    forall k | k in b.revisions ::
      if k in a.revisions then RevisionGrows(a.revisions[k], b.revisions[k])
      else k.id in a.memories ==> k.no > a.memories[k.id].current
  }

  ghost predicate BirthGrows(a: Db, b: Db) {
    forall x | x in a.birth :: x in b.birth && b.birth[x] == a.birth[x]
  }

  ghost predicate Grows(a: Db, b: Db) {
    MemoriesGrow(a, b) && RevisionsGrow(a, b) && BirthGrows(a, b)
  }

  lemma ReviseGrowsRows(db: Db, c: Call)
    requires c.Revise? && Retirable(db.memories, c.project, c.target)
    requires RevKey(c.target, db.memories[c.target].current + 1) !in db.revisions
    ensures MemoriesGrow(db, ReviseWith(db, c)) && RevisionsGrow(db, ReviseWith(db, c))
  {
    hide WithDoneKey, Enqueue;
  }

  lemma ReviseGrows(db: Db, c: Call)
    requires WellFormed(db) && c.Revise? && Retirable(db.memories, c.project, c.target)
    ensures Grows(db, ReviseWith(db, c))
  {
    NextIsNew(db, c.target);
    ReviseGrowsRows(db, c);
  }

  lemma NextIsNew(db: Db, x: MemoryId)
    requires WellFormed(db) && x in db.memories
    ensures RevKey(x, db.memories[x].current + 1) !in db.revisions
  {
    var k := RevKey(x, db.memories[x].current + 1);
    assert k in db.revisions ==> RevisionOk(db.memories, k, db.revisions[k]);
  }

  lemma CreateGrows(db: Db, c: Call, id: MemoryId)
    requires WellFormed(db) && c.Remember? && id !in db.birth
    ensures Grows(db, CreateWith(db, c, id, Losers(db.memories, c, id)))
  {
    FreshHasNoRevisions(db, id);
    var d := CreateWith(db, c, id, Losers(db.memories, c, id));
    assert RevisionsGrow(db, d);
  }

  lemma UnchangedGrows(a: Db, b: Db)
    requires a.memories == b.memories && a.revisions == b.revisions && a.birth == b.birth
    ensures Grows(a, b)
  {
  }

  /** The three effects a keyed call can have, by its outcome. */
  lemma KeyedEffect(db: Db, c: Call, id: MemoryId)
    requires c.Remember? || c.Revise?
    ensures var s := ExecKeyed(db, c, id);
            match s.outcome
            case Created(_, _, _) =>
              && c.Remember? && ArgumentsOk(c) && Granted(db, c) && Completable(c)
              && DedupKeyFor(c) !in db.dedup && s.db == CreateWith(db, c, id, Losers(db.memories, c, id))
            case Revised(_, _) =>
              && c.Revise? && ArgumentsOk(c) && Granted(db, c) && Completable(c)
              && CasMatches(db.memories, c.project, c.target, c.expected) && s.db == ReviseWith(db, c)
            case Deduplicated(_) =>
              && c.Remember? && Granted(db, c) && DedupKeyFor(c) in db.dedup && s.db == WithOpenKey(db, c)
            case Conflicted(_) =>
              && c.Revise? && Granted(db, c) && s.db == WithOpenKey(db, c)
              && Visible(db, c.project, c.target, c.now)
              && !CasMatches(db.memories, c.project, c.target, c.expected)
            case Replayed(_) => Judge(db, c).Replaying? && s.db == db
            case Raised(_) => s.db == db
            case _ => false
  {
  }

  lemma KeyedGrows(db: Db, c: Call, id: MemoryId)
    requires WellFormed(db) && Admissible(db, c, id) && (c.Remember? || c.Revise?)
    ensures Grows(db, ExecKeyed(db, c, id).db)
  {
    KeyedEffect(db, c, id);
    var o := ExecKeyed(db, c, id).outcome;
    if o.Created? {
      CreateGrows(db, c, id);
    } else if o.Revised? {
      ReviseGrows(db, c);
    } else {
      UnchangedGrows(db, ExecKeyed(db, c, id).db);
    }
  }

  lemma ForgetGrows(db: Db, project: ProjectId, x: MemoryId, now: Time)
    requires Retirable(db.memories, project, x)
    ensures Grows(db, ForgetWith(db, project, x, now))
  {
  }

  lemma PurgeGrows(db: Db, x: MemoryId, now: Time)
    requires WellFormed(db)
    ensures Grows(db, PurgeWith(db, x, now))
  {
    var d := PurgeWith(db, x, now);
    forall y | y in d.memories
      ensures y in db.memories && RowGrows(db.memories[y], d.memories[y])
    {
      assert SuccessorOk(db.memories, db.birth, y);
    }
  }

  lemma StepGrows(db: Db, c: Call, id: MemoryId)
    requires WellFormed(db) && Admissible(db, c, id)
    ensures Grows(db, Exec(db, c, id).db)
  {
    var d := Exec(db, c, id).db;
    if c.Remember? || c.Revise? {
      KeyedGrows(db, c, id);
    } else if c.Purge? && d != db {
      PurgeGrows(db, c.target, c.now);
    } else if c.Forget? && d != db {
      ForgetGrows(db, c.project, c.target, c.now);
    } else {
      UnchangedGrows(db, d);
    }
  }

  lemma GrowsTransitive(a: Db, b: Db, c: Db)
    requires WellFormed(a) && WellFormed(b) && WellFormed(c) && Grows(a, b) && Grows(b, c)
    ensures Grows(a, c)
  {
    forall x | x in c.memories
      ensures if x in a.memories then RowGrows(a.memories[x], c.memories[x]) else x !in a.birth
    {
      assert x in a.memories ==> RowChecks(x, a.memories[x]);
    }
    forall k | k in c.revisions
      ensures if k in a.revisions then RevisionGrows(a.revisions[k], c.revisions[k])
              else k.id in a.memories ==> k.no > a.memories[k.id].current
    {
      assert RevisionOk(c.memories, k, c.revisions[k]);
      assert k in a.revisions ==> RevisionOk(a.memories, k, a.revisions[k]);
      assert k.id in a.memories ==> RowChecks(k.id, a.memories[k.id]);
      assert k.id in c.memories && (k.id in a.memories ==> k.id in b.memories);
      assert k in b.revisions ==> (k !in a.revisions ==> (k.id in a.memories ==> k.no > a.memories[k.id].current));
    }
  }

  /** Along any run nothing once retired, replaced or destroyed comes back, and no
      recorded content is rewritten. */
  lemma {:induction false} RunGrows(db: Db, log: seq<Event>)
    requires WellFormed(db) && Faithful(db, log)
    ensures Grows(db, Replay(db, log))
  {
    if log != [] {
      var init, e := log[..|log| - 1], log[|log| - 1];
      RunGrows(db, init);
      RunWellFormed(db, init);
      RunWellFormed(db, log);
      StepGrows(Replay(db, init), e.call, e.id);
      GrowsTransitive(db, Replay(db, init), Replay(db, log));
    }
  }

  // ---- the log of revisions --------------------------------------------------

  lemma StepKeepsRevision(db: Db, c: Call, id: MemoryId, k: RevKey)
    requires k in db.revisions && !(c.Purge? && c.target == k.id)
    ensures k in Exec(db, c, id).db.revisions
  {
    if c.Remember? || c.Revise? {
      hide ExecKeyed;
      KeyedEffect(db, c, id);
    }
  }

  /** Without a purge of its memory, a revision stays in the log. */
  lemma {:induction false} RevisionStays(db: Db, log: seq<Event>, k: RevKey)
    requires Faithful(db, log) && k in db.revisions
    requires forall e | e in log :: !(e.call.Purge? && e.call.target == k.id)
    ensures k in Replay(db, log).revisions
  {
    if log != [] {
      hide Exec;
      var init, e := log[..|log| - 1], log[|log| - 1];
      RevisionStays(db, init, k);
      assert e in log;
      StepKeepsRevision(Replay(db, init), e.call, e.id, k);
    }
  }

  /** ... and keeps its content. */
  lemma RevisionsAppendOnly(db: Db, log: seq<Event>, k: RevKey)
    requires WellFormed(db) && Faithful(db, log) && k in db.revisions
    requires forall e | e in log :: !(e.call.Purge? && e.call.target == k.id)
    ensures k in Replay(db, log).revisions
    ensures var a, b := db.revisions[k], Replay(db, log).revisions[k];
            && b.content == a.content && b.digest == a.digest && b.tags == a.tags && b.author == a.author && b.project == a.project
            && (!a.isCurrent ==> !b.isCurrent)
  {
    hide WellFormed, Faithful, Replay;
    RunGrows(db, log);
    RevisionStays(db, log, k);
  }

  /** The contents of a memory, oldest first. */
  ghost function Contents(db: Db, x: MemoryId, n: nat): seq<string>
    requires Gapless(db.revisions, x, n)
  {
    if n == 0 then [] else Contents(db, x, n - 1) + [db.revisions[RevKey(x, n)].content]
  }

  lemma {:induction false} ContentsPrefix(a: Db, b: Db, x: MemoryId, n: nat, m: nat)
    requires n <= m && Gapless(a.revisions, x, n) && Gapless(b.revisions, x, m)
    requires forall i | 1 <= i <= n :: b.revisions[RevKey(x, i)].content == a.revisions[RevKey(x, i)].content
    ensures Contents(a, x, n) <= Contents(b, x, m)
    decreases m
  {
    if n < m {
      ContentsPrefix(a, b, x, n, m - 1);
    } else if n > 0 {
      ContentsPrefix(a, b, x, n - 1, n - 1);
      assert RevKey(x, n) in b.revisions;
      PrefixLength(a, b, x, n - 1);
    }
  }

  lemma {:induction false} PrefixLength(a: Db, b: Db, x: MemoryId, n: nat)
    requires Gapless(a.revisions, x, n) && Gapless(b.revisions, x, n)
    ensures |Contents(a, x, n)| == |Contents(b, x, n)| == n
  {
    if n > 0 {
      PrefixLength(a, b, x, n - 1);
    }
  }

  /** As long as it is not purged, a memory's history only gets longer: the old
      contents are a prefix of the new. */
  lemma HistoryIsAPrefix(db: Db, log: seq<Event>, x: MemoryId)
    requires WellFormed(db) && Faithful(db, log) && x in db.memories
    requires forall e | e in log :: !(e.call.Purge? && e.call.target == x)
    ensures var d := Replay(db, log);
            && x in d.memories
            && Gapless(db.revisions, x, db.memories[x].current)
            && Gapless(d.revisions, x, d.memories[x].current)
            && Contents(db, x, db.memories[x].current) <= Contents(d, x, d.memories[x].current)
  {
    var d := Replay(db, log);
    RunWellFormed(db, log);
    RunGrows(db, log);
    assert RowChecks(x, db.memories[x]) && Gapless(db.revisions, x, db.memories[x].current);
    forall i | 1 <= i <= db.memories[x].current
      ensures RevKey(x, i) in d.revisions
      ensures d.revisions[RevKey(x, i)].content == db.revisions[RevKey(x, i)].content
    {
      RevisionsAppendOnly(db, log, RevKey(x, i));
    }
    assert RevKey(x, 1) in d.revisions;
    assert RevisionOk(d.memories, RevKey(x, 1), d.revisions[RevKey(x, 1)]);
    ContentsPrefix(db, d, x, db.memories[x].current, d.memories[x].current);
  }
}
