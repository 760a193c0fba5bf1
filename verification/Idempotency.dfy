/** What a client request id guarantees over a whole run. */
module Idempotency {
  import opened Basics
  import opened Schema
  import opened Calls
  import opened Invariants
  import opened History
  import opened Truth

  predicate Effective(o: Outcome) {
    o.Created? || o.Revised?
  }

  predicate LeftOpen(o: Outcome) {
    o.Deduplicated? || o.Conflicted?
  }

  predicate Under(e: Event, k: IdemKey) {
    Keyed(e.call) && KeyFor(e.call) == k
  }

  predicate Collects(e: Event, k: IdemKey) {
    e.call.Collect? && k in e.call.keys
  }

  /** The memory a stored response points at. */
  function Landed(o: Outcome): Response
    requires Effective(o)
  {
    Response(o.view.id, o.view.no)
  }

  // ---- one step --------------------------------------------------------------

  lemma RowStays(db: Db, c: Call, id: MemoryId, k: IdemKey)
    requires k in db.idem && !(c.Collect? && k in c.keys)
    ensures k in Exec(db, c, id).db.idem && Exec(db, c, id).db.idem[k] == db.idem[k]
  {
    if c.Remember? || c.Revise? {
      hide ExecKeyed;
      KeyedEffect(db, c, id);
    }
  }

  /** The row a call leaves under its own key tells how it ended. */
  lemma RowWritten(db: Db, c: Call, id: MemoryId)
    requires Keyed(c)
    ensures var s := Exec(db, c, id);
            && (Effective(s.outcome) ==> KeyFor(c) !in db.idem && KeyFor(c) in s.db.idem
                                         && s.db.idem[KeyFor(c)] == DoneRow(c, Landed(s.outcome)))
            && (LeftOpen(s.outcome) ==> KeyFor(c) !in db.idem && KeyFor(c) in s.db.idem
                                        && s.db.idem[KeyFor(c)] == OpenRow(c))
            && (!Effective(s.outcome) && !LeftOpen(s.outcome) ==> s.db.idem == db.idem)
  {
    KeyedEffect(db, c, id);
  }

  /** Meeting an existing row: replay its memory if it is the same finished request, else refuse. */
  lemma RowMet(db: Db, c: Call, id: MemoryId)
    requires Keyed(c) && KeyFor(c) in db.idem
    ensures var row, s := db.idem[KeyFor(c)], Exec(db, c, id);
            && s.db == db && (s.outcome.Replayed? || s.outcome.Raised?)
            && (s.outcome.Replayed? ==>
                  && row.fingerprint == Print(c) && row.operation == OperationOf(c) && row.state == COMPLETED
                  && row.response.Some? && s.outcome.view.id == row.response.value.id)
            && (ArgumentsOk(c) && KeyLengthOk(KeyFor(c).request) && row.fingerprint != Print(c) ==>
                  s.outcome == Raised(KeyReused))
  {
    KeyedEffect(db, c, id);
  }

  // ---- a run -----------------------------------------------------------------

  /** Until it is collected, a row stays exactly as its owner committed it. */
  lemma {:induction false} RowPersists(db: Db, log: seq<Event>, k: IdemKey)
    requires Faithful(db, log) && k in db.idem && forall e | e in log :: !Collects(e, k)
    ensures k in Replay(db, log).idem && Replay(db, log).idem[k] == db.idem[k]
  {
    if log != [] {
      hide Exec;
      var init, e := log[..|log| - 1], log[|log| - 1];
      RowPersists(db, init, k);
      assert e in log;
      RowStays(Replay(db, init), e.call, e.id, k);
    }
  }

  /** The row is alive from the end of event i to the start of event j. */
  ghost predicate Alive(log: seq<Event>, i: nat, j: nat, k: IdemKey) {
    i < j < |log| && forall m | i < m < j :: !Collects(log[m], k)
  }

  lemma QuietBetween(log: seq<Event>, i: nat, j: nat, k: IdemKey)
    requires Alive(log, i, j, k)
    ensures log[..j] == log[..i + 1] + log[i + 1..j]
    ensures forall e | e in log[i + 1..j] :: !Collects(e, k)
  {
    var mid := log[i + 1..j];
    forall e | e in mid
      ensures !Collects(e, k)
    {
      var n :| 0 <= n < |mid| && mid[n] == e;
      assert e == log[i + 1 + n];
    }
  }

  lemma RowCarried(db: Db, log: seq<Event>, i: nat, j: nat, k: IdemKey)
    requires Faithful(db, log) && Alive(log, i, j, k) && k in Replay(db, log[..i + 1]).idem
    ensures k in Replay(db, log[..j]).idem && Replay(db, log[..j]).idem[k] == Replay(db, log[..i + 1]).idem[k]
  {
    hide Exec, Faithful, Replay;
    QuietBetween(log, i, j, k);
    FaithfulPrefix(db, log, j);
    ReplaySplit(db, log[..i + 1], log[i + 1..j]);
    RowPersists(Replay(db, log[..i + 1]), log[i + 1..j], k);
  }

  /** Under one key at most one call creates or revises anything; every later one replays
      that same memory or is refused, and only a call with the same fingerprint replays. */
  lemma AtMostOneEffect(db: Db, log: seq<Event>, i: nat, j: nat, k: IdemKey)
    requires Faithful(db, log) && Alive(log, i, j, k) && Under(log[i], k) && Under(log[j], k)
    requires Effective(log[i].outcome)
    ensures log[j].outcome.Replayed? || log[j].outcome.Raised?
    ensures log[j].outcome.Replayed? ==> log[j].outcome.view.id == log[i].outcome.view.id
    ensures log[j].outcome.Replayed? ==> Print(log[j].call) == Print(log[i].call)
  {
    hide Exec, Faithful;
    FaithfulAt(db, log, i);
    FaithfulAt(db, log, j);
    RowWritten(Replay(db, log[..i]), log[i].call, log[i].id);
    RowCarried(db, log, i, j, k);
    RowMet(Replay(db, log[..j]), log[j].call, log[j].id);
  }

  /** The same fingerprint is not the same request: it leaves out what a remember supersedes, when it
      expires, who asks and which model embeds it.  A retry that differs in any of these is told
      the first memory, and nothing it asked for besides is done. */
  lemma FingerprintForgives(db: Db, c: Call, id: MemoryId, retry: Call, id': MemoryId)
    requires WellFormed(db) && Keyed(c) && c.Remember? && Admissible(db, c, id) && Exec(db, c, id).outcome.Created?
    requires retry.Remember?
    requires retry == c.(supersedes := retry.supersedes, expiresAt := retry.expiresAt, author := retry.author,
                         model := retry.model, now := retry.now)
    requires retry.kind == TASK ==> retry.expiresAt.Some?
    requires c.expiresAt.Some? ==> retry.now < c.expiresAt.value
    ensures Exec(Exec(db, c, id).db, retry, id') == Step(Exec(db, c, id).db, Replayed(View(id, 1, c.text)))
  {
    hide Exec, WellFormed;
    var d := Exec(db, c, id).db;
    RowWritten(db, c, id);
    CreatedIsVisible(db, c, id, retry.now);
    ReplayFound(d, retry, id', id);
  }

  lemma CreatedIsVisible(db: Db, c: Call, id: MemoryId, now: Time)
    requires c.Remember? && Exec(db, c, id).outcome.Created? && (c.expiresAt.Some? ==> now < c.expiresAt.value)
    ensures Exec(db, c, id).outcome.view == View(id, 1, c.text) && ArgumentsOk(c)
    ensures Keyed(c) ==> KeyLengthOk(KeyFor(c).request)
    ensures var d := Exec(db, c, id).db; Visible(d, c.project, id, now) && ViewOf(d, id) == View(id, 1, c.text)
  {
    hide Retire, Release, Enqueue, WithDoneKey;
    KeyedEffect(db, c, id);
  }

  lemma ReplayFound(d: Db, c: Call, id: MemoryId, x: MemoryId)
    requires Keyed(c) && KeyFor(c) in d.idem && ArgumentsOk(c) && KeyLengthOk(KeyFor(c).request)
    requires JudgeRow(d.idem[KeyFor(c)], c) == Replaying(x) && Visible(d, c.project, x, c.now)
    ensures Exec(d, c, id) == Step(d, Replayed(ViewOf(d, x)))
  {
  }

  /** After a deduplicated or conflicted owner the key can only be refused: that commit left it in progress. */
  lemma OpenKeyRefuses(db: Db, log: seq<Event>, i: nat, j: nat, k: IdemKey)
    requires Faithful(db, log) && Alive(log, i, j, k) && Under(log[i], k) && Under(log[j], k)
    requires LeftOpen(log[i].outcome)
    ensures log[j].outcome.Raised?
  {
    hide Exec, Faithful;
    FaithfulAt(db, log, i);
    FaithfulAt(db, log, j);
    RowWritten(Replay(db, log[..i]), log[i].call, log[i].id);
    RowCarried(db, log, i, j, k);
    RowMet(Replay(db, log[..j]), log[j].call, log[j].id);
  }

  /** Event i wrote the row that now stands under k. */
  ghost predicate Owns(log: seq<Event>, i: nat, k: IdemKey, row: IdemRow) {
    && i < |log| && Under(log[i], k)
    && row.fingerprint == Print(log[i].call) && row.operation == OperationOf(log[i].call)
    && (row.state == IN_PROGRESS <==> LeftOpen(log[i].outcome))
    && (row.state == COMPLETED <==> Effective(log[i].outcome))
    && (Effective(log[i].outcome) ==> row.response == Some(Landed(log[i].outcome)))
    && (forall m | i < m < |log| :: !Writes(log[m], k))
  }

  predicate Writes(e: Event, k: IdemKey) {
    Under(e, k) && (Effective(e.outcome) || LeftOpen(e.outcome))
  }

  /** No call rewrites a committed row; it can only be collected. */
  lemma NeverRewritten(db: Db, e: Event, d: Db, k: IdemKey)
    requires Exec(db, e.call, e.id) == Step(d, e.outcome) && k in db.idem && k in d.idem
    ensures d.idem[k] == db.idem[k] && !Writes(e, k)
  {
    if e.call.Remember? || e.call.Revise? {
      hide ExecKeyed;
      KeyedEffect(db, e.call, e.id);
      if Keyed(e.call) {
        RowWritten(db, e.call, e.id);
      }
    }
  }

  /** Every committed key row has its owner in the run, and is in progress exactly when
      that owner ended deduplicated or conflicted. */
  lemma {:induction false} EveryRowHasAnOwner(db: Db, log: seq<Event>, k: IdemKey)
    requires Faithful(db, log) && k in Replay(db, log).idem && k !in db.idem
    ensures exists i :: Owns(log, i, k, Replay(db, log).idem[k])
  {
    hide Exec;
    var init, e := log[..|log| - 1], log[|log| - 1];
    var before, after := Replay(db, init), Replay(db, log);
    FaithfulAt(db, log, |init|);
    assert log[..|init|] == init && log[..|init| + 1] == log;
    if k in before.idem {
      NeverRewritten(before, e, after, k);
      EveryRowHasAnOwner(db, init, k);
      var i :| Owns(init, i, k, before.idem[k]);
      assert Owns(log, i, k, after.idem[k]);
    } else {
      RowAppears(before, e, after, k);
      assert Owns(log, |init|, k, after.idem[k]);
    }
  }

  lemma RowAppears(db: Db, e: Event, d: Db, k: IdemKey)
    requires Exec(db, e.call, e.id) == Step(d, e.outcome) && k !in db.idem && k in d.idem
    ensures Under(e, k)
    ensures Effective(e.outcome) <==> d.idem[k].state == COMPLETED
    ensures LeftOpen(e.outcome) <==> d.idem[k].state == IN_PROGRESS
    ensures d.idem[k].fingerprint == Print(e.call) && d.idem[k].operation == OperationOf(e.call)
    ensures Effective(e.outcome) ==> d.idem[k].response == Some(Landed(e.outcome))
  {
    hide Exec;
    OthersAddNoRow(db, e.call, e.id);
    if Keyed(e.call) {
      RowWritten(db, e.call, e.id);
      UnderOwnKey(db, e.call, e.id, k);
    }
  }

  /** Only a keyed call adds a row. */
  lemma OthersAddNoRow(db: Db, c: Call, id: MemoryId)
    ensures !Keyed(c) ==> forall k | k in Exec(db, c, id).db.idem :: k in db.idem
  {
    if c.Remember? || c.Revise? {
      hide ExecKeyed;
      KeyedEffect(db, c, id);
    }
  }

  lemma UnderOwnKey(db: Db, c: Call, id: MemoryId, k: IdemKey)
    requires Keyed(c) && k in Exec(db, c, id).db.idem && k !in db.idem
    ensures k == KeyFor(c)
  {
    hide ExecKeyed;
    KeyedEffect(db, c, id);
  }

  // ---- after a purge ---------------------------------------------------------

  /** What a retry under a key whose memory has been purged meets, until the row is collected:
      the request is neither replayed nor done again. */
  lemma RetryAfterPurge(db: Db, log: seq<Event>, x: MemoryId, k: IdemKey, c: Call, id: MemoryId)
    requires WellFormed(db) && Faithful(db, log) && x in db.birth && x !in db.memories
    requires k in db.idem && db.idem[k].state == COMPLETED && Answers(db.idem[k], x)
    requires forall e | e in log :: !Collects(e, k)
    requires Keyed(c) && KeyFor(c) == k && ArgumentsOk(c)
    requires Print(c) == db.idem[k].fingerprint && OperationOf(c) == db.idem[k].operation
    ensures Exec(Replay(db, log), c, id) == Step(Replay(db, log), Raised(MemoryNotFound))
  {
    hide Exec, WellFormed;
    RunWellFormed(db, log);
    RunGrows(db, log);
    RowPersists(db, log, k);
    var d := Replay(db, log);
    KeyRowLength(d, k);
    assert x !in d.memories;
    ReplayMissing(d, c, id, x);
  }

  lemma KeyRowLength(db: Db, k: IdemKey)
    requires WellFormed(db) && k in db.idem
    ensures KeyLengthOk(k.request)
  {
  }

  lemma ReplayMissing(d: Db, c: Call, id: MemoryId, x: MemoryId)
    requires Keyed(c) && KeyFor(c) in d.idem && ArgumentsOk(c) && KeyLengthOk(KeyFor(c).request)
    requires JudgeRow(d.idem[KeyFor(c)], c) == Replaying(x) && x !in d.memories
    ensures Exec(d, c, id) == Step(d, Raised(MemoryNotFound))
  {
  }

  // ---- untrimmed keys --------------------------------------------------------

  /** The key is stored trimmed and completed as written: a request that would have created
      or revised something lands exactly when its key carries no surrounding white space. */
  lemma UntrimmedKeyNeverLands(db: Db, c: Call, id: MemoryId)
    requires Keyed(c) && Judge(db, c) == Claimed && Effective(Exec(db, c.(key := None), id).outcome)
    ensures var o := Exec(db, c, id).outcome;
            && (o == Exec(db, c.(key := None), id).outcome <==> Strip(c.key.value) == c.key.value)
            && (Strip(c.key.value) != c.key.value ==> o == Raised(KeyVanished) && Exec(db, c, id).db == db)
  {
    var u := c.(key := None);
    KeyedEffect(db, u, id);
    assert Exec(db, u, id) == ExecBody(db, u, id);
    assert Exec(db, c, id) == ExecBody(db, c, id);
    if c.Remember? {
      assert DedupKeyFor(u) == DedupKeyFor(c);
      assert DedupKeyFor(u) !in db.dedup;
    }
  }
}
