/** What is true of a transaction between two of its statements, and why a commit by
    somebody else does not falsify it. */
module Transactions {
  import opened Basics
  import opened Schema
  import opened Calls
  import opened Invariants
  import opened History
  import opened ReadCommitted
  import Sorting

  // ---- one transaction against the committed store ---------------------------

  ghost predicate HoldOk(db: Db, x: Txn) {
    && (x.hold != NotHeld ==> Keyed(x.call))
    && (x.hold == Owned ==> KeyFor(x.call) !in db.idem && KeyLengthOk(Strip(x.call.key.value)))
  }

  /** In the body of a keyed call the key is owned. */
  predicate KeySettled(x: Txn) {
    if Keyed(x.call) then x.hold == Owned else x.hold == NotHeld
  }

  ghost predicate RowsOk(db: Db, x: Txn) {
    forall m | m in x.rows :: IsWrite(x.call) && Retirable(db.memories, x.call.project, m) && m in Mentions(x.call)
  }

  ghost predicate DedupOwned(db: Db, x: Txn) {
    x.claimed ==> x.call.Remember? && DedupKeyFor(x.call) !in db.dedup
  }

  ghost predicate TargetsOk(db: Db, x: Txn, i: nat)
    requires x.call.Remember?
  {
    && i <= |Order(x.call)|
    && x.rows == Picked(db.memories, x.call.project, x.id, Order(x.call)[..i])
    && x.skipped == Passed(db.memories, x.call.project, x.id, Order(x.call)[..i])
  }

  /** A memory that was visible once: it still exists and has not expired for this reader. */
  ghost predicate Seen(db: Db, c: Call)
    requires c.Revise?
  {
    c.target in db.memories && db.memories[c.target].project == c.project
    && Unexpired(db.memories[c.target], c.now)
  }

  /** A lost compare-and-set stays lost: the row is retired, or has moved past the expected revision. */
  ghost predicate Lost(db: Db, c: Call)
    requires c.Revise? && c.target in db.memories
  {
    db.memories[c.target].status != ACTIVE || db.memories[c.target].current > c.expected
  }

  ghost predicate HolderKnown(db: Db, c: Call, m: MemoryId)
    requires c.Remember?
  {
    m in db.memories && db.memories[m].project == c.project
    && RevKey(m, 1) in db.revisions && db.revisions[RevKey(m, 1)].digest == c.digest
  }

  /** The stored response a replaying transaction has locked in share mode. */
  ghost predicate ReplayKnown(db: Db, x: Txn, m: MemoryId) {
    && Keyed(x.call) && x.hold == Shared && KeyFor(x.call) in db.idem
    && KeyLengthOk(Strip(x.call.key.value))
    && JudgeRow(db.idem[KeyFor(x.call)], x.call) == Replaying(m)
  }

  ghost predicate ReadyOk(db: Db, x: Txn, o: Outcome) {
    var c := x.call;
    if c.Remember? then
      && x.claimed && Completable(c) && TargetsOk(db, x, |Order(c)|)
      && o == Created(View(x.id, 1, c.text), x.rows, x.skipped)
    else if c.Revise? then
      && x.rows == [c.target] && Completable(c) && Seen(db, c)
      && CasMatches(db.memories, c.project, c.target, c.expected)
      && o == Revised(View(c.target, db.memories[c.target].current + 1, c.text), db.memories[c.target].current)
    else c.Forget? && x.rows == [c.target] && o == Forgotten(c.target)
  }

  /** The answers that write no rows; two of them leave the key behind, in progress. */
  ghost predicate ReadOk(x: Txn, o: Outcome) {
    match o
    case Deduplicated(_) => x.call.Remember? && KeySettled(x)
    case Conflicted(_) => x.call.Revise? && KeySettled(x)
    case Replayed(_) => Keyed(x.call) && x.hold == Shared
    case AlreadyForgotten(_) => x.call.Forget?
    case _ => false
  }

  /** What is known at each program point. */
  ghost predicate PointOk(db: Db, x: Txn) {
    var c := x.call;
    match x.pc
    case AtKey(_) => Keyed(c) && x.hold == NotHeld && !x.claimed && x.rows == [] && x.skipped == [] && KeyLengthOk(Strip(c.key.value))
    case AtWait(_) => Keyed(c) && x.hold == NotHeld && !x.claimed && x.rows == [] && x.skipped == [] && KeyLengthOk(Strip(c.key.value))
    case AtReplay(m) => ReplayKnown(db, x, m) && !x.claimed && x.rows == []
    case AtClaim => c.Remember? && KeySettled(x) && !x.claimed && x.rows == [] && x.skipped == []
    case AtHolder => c.Remember? && KeySettled(x) && !x.claimed && x.rows == []
    case AtExisting(m) => c.Remember? && KeySettled(x) && HolderKnown(db, c, m) && !x.claimed && x.rows == []
    case AtTarget(i, _) => c.Remember? && KeySettled(x) && x.claimed && TargetsOk(db, x, i)
    case AtGet => c.Revise? && KeySettled(x) && !x.claimed && x.rows == []
    case AtCas(_) => c.Revise? && KeySettled(x) && Seen(db, c) && !x.claimed && x.rows == []
    case AtReread => c.Revise? && KeySettled(x) && Seen(db, c) && !x.claimed && x.rows == []
    case AtExists => c.Forget? && KeySettled(x) && !x.claimed && x.rows == []
    case AtForget(_) =>
      && c.Forget? && KeySettled(x) && !x.claimed && x.rows == []
      && c.target in db.memories && db.memories[c.target].project == c.project
    case Ready(o) => KeySettled(x) && ReadyOk(db, x, o)
    case Read(o) => !x.claimed && x.rows == [] && ReadOk(x, o) && (o.Replayed? ==> ReplayKnown(db, x, o.view.id))
    case Failing(_) => true
  }

  ghost predicate TxnOk(db: Db, x: Txn) {
    && IsWrite(x.call)
    && x.id !in db.birth && x.id !in Mentions(x.call)
    && (!x.call.Forget? && !x.pc.Failing? ==> ArgumentsOk(x.call))
    && HoldOk(db, x) && RowsOk(db, x) && DedupOwned(db, x)
    && PointOk(db, x)
  }

  /** What is known besides of a caller who expects a revision it has read: a lost
      compare-and-set stays lost, and the report names a newer revision. */
  ghost predicate Honest(db: Db, x: Txn) {
    && (IsWrite(x.call) ==> HasRead(db, x.call))
    && (x.pc.AtReread? && x.call.Revise? ==> Seen(db, x.call) && Lost(db, x.call))
    && (x.pc.Read? && x.pc.outcome.Conflicted? && x.call.Revise? ==> x.pc.outcome.current.no > x.call.expected)
  }

  /** What two live transactions never share. */
  ghost predicate Apart(x: Txn, y: Txn) {
    && IsWrite(x.call) && IsWrite(y.call)
    && x.id != y.id && x.id !in Mentions(y.call) && y.id !in Mentions(x.call)
    && (x.hold == Owned && y.hold == Owned && Keyed(x.call) && Keyed(y.call) ==> KeyFor(x.call) != KeyFor(y.call))
    && (x.claimed && y.claimed && x.call.Remember? && y.call.Remember? ==> DedupKeyFor(x.call) != DedupKeyFor(y.call))
    && (forall m | m in x.rows :: m !in y.rows)
  }

  // ---- somebody else's commit ------------------------------------------------

  /** All a step can do to others: rows it had locked, one new id, keys it owned. */
  datatype Footprint = Footprint(
    rows: set<MemoryId>, born: set<MemoryId>, keys: set<IdemKey>, lost: set<IdemKey>, dedup: set<DedupKey>)

  ghost predicate MemoriesWithin(a: Db, b: Db, f: Footprint) {
    && (forall m | m in a.memories :: m in b.memories && RowGrows(a.memories[m], b.memories[m])
                                      && (m !in f.rows ==> b.memories[m] == a.memories[m]))
    && (forall m | m in b.memories :: m in a.memories || m in f.born)
    && (forall m | m in b.birth :: m in a.birth || m in f.born)
  }

  ghost predicate RevisionsWithin(a: Db, b: Db, f: Footprint) {
    forall k | k in a.revisions :: k in b.revisions && RevisionGrows(a.revisions[k], b.revisions[k])
                                   && (k.id !in f.rows ==> b.revisions[k] == a.revisions[k])
  }

  ghost predicate KeysWithin(a: Db, b: Db, f: Footprint) {
    && (forall k | k in b.idem :: k in a.idem || k in f.keys)
    && (forall k | k in a.idem && k !in f.lost :: k in b.idem && b.idem[k] == a.idem[k])
    && (forall k | k in b.dedup :: k in a.dedup || k in f.dedup)
  }

  ghost predicate Within(a: Db, b: Db, f: Footprint) {
    MemoriesWithin(a, b, f) && RevisionsWithin(a, b, f) && KeysWithin(a, b, f)
  }

  /** The footprint stays clear of everything this transaction relies on. */
  ghost predicate Clear(x: Txn, f: Footprint) {
    && IsWrite(x.call)
    && (forall m | m in x.rows :: m !in f.rows)
    && x.id !in f.born && Mentions(x.call) !! f.born
    && (x.hold == Owned && Keyed(x.call) ==> KeyFor(x.call) !in f.keys)
    && (x.hold == Shared && Keyed(x.call) ==> KeyFor(x.call) !in f.lost)
    && (x.claimed && x.call.Remember? ==> DedupKeyFor(x.call) !in f.dedup)
  }

  lemma {:induction false} PickedMembers(ms: map<MemoryId, Memory>, p: ProjectId, w: MemoryId, xs: seq<MemoryId>)
    ensures forall m :: m in Picked(ms, p, w, xs) <==> m in xs && m != w && Retirable(ms, p, m)
    ensures forall m :: m in Passed(ms, p, w, xs) <==> m in xs && !(m != w && Retirable(ms, p, m))
  {
    if xs != [] {
      PickedMembers(ms, p, w, xs[..|xs| - 1]);
      assert xs == xs[..|xs| - 1] + [xs[|xs| - 1]];
    }
  }

  lemma {:induction false} PickedStable(a: map<MemoryId, Memory>, b: map<MemoryId, Memory>, p: ProjectId, w: MemoryId, xs: seq<MemoryId>)
    requires forall m | m in xs :: Retirable(a, p, m) <==> Retirable(b, p, m)
    ensures Picked(a, p, w, xs) == Picked(b, p, w, xs) && Passed(a, p, w, xs) == Passed(b, p, w, xs)
  {
    if xs != [] {
      PickedStable(a, b, p, w, xs[..|xs| - 1]);
    }
  }

  lemma OrderMembers(c: Call)
    requires c.Remember?
    ensures forall m :: m in Order(c) <==> m in Mentions(c)
    ensures Sorting.Increasing(Order(c))
  {
    Sorting.AscendingSorts(c.supersedes);
  }

  /** Targets already visited: the retired ones are locked, the skipped ones cannot become active. */
  lemma TargetsStable(a: Db, b: Db, x: Txn, i: nat, f: Footprint)
    requires x.call.Remember? && TargetsOk(a, x, i) && Clear(x, f) && MemoriesWithin(a, b, f)
    requires x.id !in Mentions(x.call)
    ensures TargetsOk(b, x, i)
  {
    var xs := Order(x.call)[..i];
    var p := x.call.project;
    OrderMembers(x.call);
    PickedMembers(a.memories, p, x.id, xs);
    forall m | m in xs
      ensures Retirable(a.memories, p, m) <==> Retirable(b.memories, p, m)
    {
      assert m in Order(x.call);
      assert m in a.memories && m !in f.rows ==> b.memories[m] == a.memories[m];
      if m in a.memories && m in f.rows {
        assert m !in x.rows;
        assert RowGrows(a.memories[m], b.memories[m]);
      }
    }
    PickedStable(a.memories, b.memories, p, x.id, xs);
  }

  lemma ReadyStable(a: Db, b: Db, x: Txn, f: Footprint)
    requires x.pc.Ready? && TxnOk(a, x) && Clear(x, f) && Within(a, b, f)
    ensures ReadyOk(b, x, x.pc.outcome)
  {
    if x.call.Remember? {
      TargetsStable(a, b, x, |Order(x.call)|, f);
    } else {
      assert x.call.target in x.rows;
    }
  }

  lemma PointStable(a: Db, b: Db, x: Txn, f: Footprint)
    requires TxnOk(a, x) && Clear(x, f) && Within(a, b, f)
    ensures PointOk(b, x)
  {
    match x.pc
    case AtTarget(i, _) => TargetsStable(a, b, x, i, f);
    case Ready(_) => ReadyStable(a, b, x, f);
    case AtExisting(m) => assert RevisionGrows(a.revisions[RevKey(m, 1)], b.revisions[RevKey(m, 1)]);
    case _ =>
  }

  /** A transaction's knowledge survives every step that stays clear of it. */
  lemma TxnStable(a: Db, b: Db, x: Txn, f: Footprint)
    requires TxnOk(a, x) && Clear(x, f) && Within(a, b, f)
    ensures TxnOk(b, x)
  {
    PointStable(a, b, x, f);
    assert RowsOk(b, x) by {
      forall m | m in x.rows
        ensures Retirable(b.memories, x.call.project, m)
      {
        assert b.memories[m] == a.memories[m];
      }
    }
  }

  lemma HonestStable(a: Db, b: Db, x: Txn, f: Footprint)
    requires TxnOk(a, x) && Honest(a, x) && Clear(x, f) && Within(a, b, f)
    ensures Honest(b, x)
  {
    hide KeysWithin, RevisionsWithin, HoldOk, RowsOk, DedupOwned, ReadyOk;
    if x.call.Revise? && x.call.target in b.memories {
      assert x.call.target in Mentions(x.call);
      assert x.call.target in a.memories && RowGrows(a.memories[x.call.target], b.memories[x.call.target]);
    }
  }

  // ---- one statement of one's own --------------------------------------------

  lemma KeyStepOk(db: Db, x: Txn)
    requires TxnOk(db, x) && Fits(x) && (x.pc.AtKey? || x.pc.AtWait? || x.pc.AtReplay?)
    ensures TxnOk(db, StepTxn(db, x))
  {
  }

  lemma TargetsNext(db: Db, x: Txn, y: Txn, i: nat)
    requires x.call.Remember? && TargetsOk(db, x, i) && i < |Order(x.call)|
    requires y.call == x.call && y.id == x.id
    requires var m := Order(x.call)[i];
             if m != x.id && Retirable(db.memories, x.call.project, m)
             then y.rows == x.rows + [m] && y.skipped == x.skipped
             else y.rows == x.rows && y.skipped == x.skipped + [m]
    ensures TargetsOk(db, y, i + 1)
  {
    var order := Order(x.call);
    assert order[..i + 1][..i] == order[..i] && order[..i + 1][i] == order[i];
  }

  /** Targets are visited in ascending order, each once. */
  lemma TargetStepOk(db: Db, x: Txn)
    requires TxnOk(db, x) && x.pc.AtTarget?
    ensures TxnOk(db, StepTxn(db, x))
  {
    hide Picked, Passed;
    var i := x.pc.i;
    var order := Order(x.call);
    var y := StepTxn(db, x);
    if i >= |order| {
      assert order[..i] == order;
    } else {
      OrderMembers(x.call);
      assert order[i] in order;
      if y.pc == AtTarget(i + 1, false) {
        TargetsNext(db, x, y, i);
      }
    }
  }

  lemma HolderFound(db: Db, c: Call)
    requires WellFormed(db) && c.Remember? && DedupKeyFor(c) in db.dedup
    ensures HolderKnown(db, c, db.dedup[DedupKeyFor(c)])
  {
    var k := DedupKeyFor(c);
    assert OwnKey(db.memories, db.revisions, db.dedup[k], k);
  }

  lemma NoTargetsYet(db: Db, x: Txn)
    requires x.call.Remember? && x.rows == [] && x.skipped == []
    ensures TargetsOk(db, x, 0)
  {
    assert Order(x.call)[..0] == [];
  }

  lemma RememberStepOk(db: Db, x: Txn)
    requires TxnOk(db, x) && WellFormed(db) && x.call.Remember? && (x.pc.AtClaim? || x.pc.AtHolder? || x.pc.AtExisting?)
    ensures TxnOk(db, StepTxn(db, x))
  {
    hide WellFormed, TargetsOk, HolderKnown, ReadyOk;
    if DedupKeyFor(x.call) in db.dedup {
      HolderFound(db, x.call);
    }
    if x.pc.AtClaim? {
      NoTargetsYet(db, StepTxn(db, x));
    }
  }

  lemma ReviseStepOk(db: Db, x: Txn)
    requires TxnOk(db, x) && x.call.Revise? && Fits(x) && !x.pc.AtKey? && !x.pc.AtWait? && !x.pc.AtReplay?
    ensures TxnOk(db, StepTxn(db, x))
  {
  }

  lemma ForgetStepOk(db: Db, x: Txn)
    requires TxnOk(db, x) && x.call.Forget? && Fits(x)
    ensures TxnOk(db, StepTxn(db, x))
  {
  }

  lemma StepKeepsCall(db: Db, x: Txn)
    requires Fits(x)
    ensures StepTxn(db, x).call == x.call && StepTxn(db, x).id == x.id
  {
  }

  lemma IsWriteTxn(db: Db, x: Txn)
    requires TxnOk(db, x)
    ensures IsWrite(x.call)
  {
  }

  lemma StepTxnOk(db: Db, x: Txn)
    requires TxnOk(db, x) && WellFormed(db) && Fits(x)
    ensures TxnOk(db, StepTxn(db, x))
    ensures StepTxn(db, x).call == x.call && StepTxn(db, x).id == x.id
  {
    hide TxnOk, StepTxn, WellFormed;
    StepKeepsCall(db, x);
    IsWriteTxn(db, x);
    if x.pc.AtKey? || x.pc.AtWait? || x.pc.AtReplay? {
      KeyStepOk(db, x);
    } else if x.call.Remember? {
      if x.pc.AtTarget? {
        TargetStepOk(db, x);
      } else {
        RememberStepOk(db, x);
      }
    } else if x.call.Revise? {
      ReviseStepOk(db, x);
    } else {
      ForgetStepOk(db, x);
    }
  }

  lemma HonestStep(db: Db, x: Txn)
    requires TxnOk(db, x) && Honest(db, x) && Fits(x)
    ensures Honest(db, StepTxn(db, x))
  {
    StepKeepsCall(db, x);
    if x.call.Revise? && (x.pc.AtCas? || x.pc.AtReread? || x.pc.AtGet?) {
      HonestRevise(db, x);
    } else {
      NoRereadElsewhere(db, x);
    }
  }

  lemma HonestRevise(db: Db, x: Txn)
    requires TxnOk(db, x) && Honest(db, x) && Fits(x) && x.call.Revise? && (x.pc.AtCas? || x.pc.AtReread? || x.pc.AtGet?)
    ensures Honest(db, StepTxn(db, x))
  {
    hide HoldOk, RowsOk, DedupOwned;
  }

  lemma NoRereadElsewhere(db: Db, x: Txn)
    requires Fits(x) && !x.pc.AtCas? && !x.pc.AtReread?
    ensures !StepTxn(db, x).pc.AtReread?
    ensures StepTxn(db, x).pc.Read? ==> !StepTxn(db, x).pc.outcome.Conflicted?
  {
  }

  // ---- what an answer means --------------------------------------------------

  lemma JudgeSettled(db: Db, x: Txn)
    requires (x.call.Remember? || x.call.Revise?) && HoldOk(db, x) && KeySettled(x)
    ensures Granted(db, x.call)
  {
  }

  lemma SettledRunsBody(db: Db, x: Txn)
    requires (x.call.Remember? || x.call.Revise?) && ArgumentsOk(x.call) && HoldOk(db, x) && KeySettled(x)
    ensures Granted(db, x.call) && Exec(db, x.call, x.id) == ExecBody(db, x.call, x.id)
  {
    JudgeSettled(db, x);
    assert Exec(db, x.call, x.id) == ExecKeyed(db, x.call, x.id);
  }

  lemma DedupMeansExec(db: Db, x: Txn)
    requires TxnOk(db, x) && WellFormed(db) && x.pc.AtExisting? && StepTxn(db, x).pc.Read?
    ensures Exec(db, x.call, x.id) == Step(WithOpenKey(db, x.call), StepTxn(db, x).pc.outcome)
  {
    hide ExecKeyed;
    SettledRunsBody(db, x);
    var k := DedupKeyFor(x.call);
    assert OwnKey(db.memories, db.revisions, x.pc.found, k);
    assert k in db.dedup && db.dedup[k] == x.pc.found;
    assert ExecBody(db, x.call, x.id) == ExecRemember(db, x.call, x.id);
  }

  lemma ConflictMeansExec(db: Db, x: Txn)
    requires TxnOk(db, x) && Honest(db, x) && WellFormed(db) && x.pc.AtReread? && StepTxn(db, x).pc.Read?
    ensures Exec(db, x.call, x.id) == Step(WithOpenKey(db, x.call), StepTxn(db, x).pc.outcome)
  {
    hide ExecKeyed;
    SettledRunsBody(db, x);
    assert ExecBody(db, x.call, x.id) == ExecRevise(db, x.call);
  }

  lemma ReplayMeansExec(db: Db, x: Txn)
    requires TxnOk(db, x) && x.pc.AtReplay? && StepTxn(db, x).pc.Read?
    ensures Exec(db, x.call, x.id) == Step(db, StepTxn(db, x).pc.outcome)
  {
    assert Judge(db, x.call) == Replaying(x.pc.found);
    assert Exec(db, x.call, x.id) == ExecReplay(db, x.call, x.pc.found);
  }

  lemma ForgottenMeansExec(db: Db, x: Txn)
    requires TxnOk(db, x) && x.pc.AtForget? && StepTxn(db, x).pc.Read?
    ensures Exec(db, x.call, x.id) == Step(db, StepTxn(db, x).pc.outcome)
  {
    hide HoldOk, RowsOk, DedupOwned;
  }

  lemma ReadPoints(db: Db, x: Txn)
    requires Fits(x) && StepTxn(db, x).pc.Read?
    ensures x.pc.AtExisting? || x.pc.AtReread? || x.pc.AtReplay? || x.pc.AtForget?
    ensures StepTxn(db, x).hold == x.hold && StepTxn(db, x).call == x.call
  {
  }

  lemma AdmissibleTxn(db: Db, x: Txn)
    requires TxnOk(db, x)
    ensures Admissible(db, x.call, x.id)
  {
  }

  /** Who answers from a re-read or a holder owns its key; who replays or forgets owns none. */
  lemma KeyLeft(db: Db, x: Txn)
    requires TxnOk(db, x) && (x.pc.AtExisting? || x.pc.AtReread? || x.pc.AtReplay? || x.pc.AtForget?)
    ensures x.pc.AtExisting? || x.pc.AtReread? ==>
              (x.call.Remember? || x.call.Revise?) && (Keyed(x.call) <==> x.hold == Owned && Keyed(x.call))
              && (!Keyed(x.call) ==> WithOpenKey(db, x.call) == db)
    ensures x.pc.AtReplay? || x.pc.AtForget? ==> !(x.hold == Owned && Keyed(x.call))
  {
  }

  /** The moment an answer that writes no rows is read off, the atomic call gives that answer. */
  lemma ReadMeansExec(db: Db, x: Txn)
    requires TxnOk(db, x) && Honest(db, x) && WellFormed(db) && Fits(x) && StepTxn(db, x).pc.Read?
    ensures var y := StepTxn(db, x);
            Exec(db, x.call, x.id) == Step(if LeavesOpenKey(y) then WithOpenKey(db, x.call) else db, y.pc.outcome)
    ensures Admissible(db, x.call, x.id)
  {
    hide TxnOk, Honest, WellFormed, StepTxn, Exec, Admissible, WithOpenKey, Fits;
    ReadPoints(db, x);
    KeyLeft(db, x);
    AdmissibleTxn(db, x);
    if x.pc.AtExisting? {
      DedupMeansExec(db, x);
    } else if x.pc.AtReread? {
      ConflictMeansExec(db, x);
    } else if x.pc.AtReplay? {
      ReplayMeansExec(db, x);
    } else {
      ForgottenMeansExec(db, x);
    }
  }

  lemma CreatedMeansExec(db: Db, x: Txn)
    requires TxnOk(db, x) && x.pc.Ready? && x.call.Remember?
    ensures Exec(db, x.call, x.id) == Step(Install(db, x), x.pc.outcome)
  {
    hide ExecKeyed, CreateWith;
    SettledRunsBody(db, x);
    var order := Order(x.call);
    OrderMembers(x.call);
    assert order[..|order|] == order;
    PickedMembers(db.memories, x.call.project, x.id, order);
    assert Locked(x) == Losers(db.memories, x.call, x.id);
    assert DedupKeyFor(x.call) !in db.dedup;
    assert ExecBody(db, x.call, x.id) == ExecRemember(db, x.call, x.id);
    assert x.rows == Picked(db.memories, x.call.project, x.id, order);
    assert x.skipped == Passed(db.memories, x.call.project, x.id, order);
    assert Install(db, x) == CreateWith(db, x.call, x.id, Losers(db.memories, x.call, x.id));
  }

  lemma RevisedMeansExec(db: Db, x: Txn)
    requires TxnOk(db, x) && WellFormed(db) && x.pc.Ready? && x.call.Revise?
    ensures Exec(db, x.call, x.id) == Step(Install(db, x), x.pc.outcome)
  {
    hide ExecKeyed, ReviseWith;
    SettledRunsBody(db, x);
    ReviseVisible(db, x.call);
    assert ExecBody(db, x.call, x.id) == ExecRevise(db, x.call);
  }

  /** The write set of a transaction about to commit is exactly the effect of the atomic
      call on the store as it is now. */
  lemma ReadyMeansExec(db: Db, x: Txn)
    requires TxnOk(db, x) && WellFormed(db) && x.pc.Ready?
    ensures Exec(db, x.call, x.id) == Step(Install(db, x), x.pc.outcome)
    ensures Admissible(db, x.call, x.id)
  {
    if x.call.Remember? {
      CreatedMeansExec(db, x);
    } else if x.call.Revise? {
      RevisedMeansExec(db, x);
    } else {
      assert x.call.target in x.rows;
    }
  }

  lemma ReviseVisible(db: Db, c: Call)
    requires WellFormed(db) && c.Revise? && Seen(db, c) && CasMatches(db.memories, c.project, c.target, c.expected)
    ensures Visible(db, c.project, c.target, c.now)
  {
    assert RowChecks(c.target, db.memories[c.target]);
    assert Gapless(db.revisions, c.target, db.memories[c.target].current);
    var k := RevKey(c.target, db.memories[c.target].current);
    assert RevisionOk(db.memories, k, db.revisions[k]);
  }

  // ---- one's own commit, seen by others --------------------------------------

  ghost function FootprintOf(x: Txn): Footprint
    requires IsWrite(x.call)
  {
    Footprint(
      Locked(x),
      if x.call.Remember? then {x.id} else {},
      if Keyed(x.call) then {KeyFor(x.call)} else {},
      {},
      if x.call.Remember? then {DedupKeyFor(x.call)} else {})
  }

  lemma ApartClear(x: Txn, y: Txn)
    requires Apart(x, y) && x.pc.Ready? && KeySettled(x) && (x.call.Remember? ==> x.claimed)
    ensures Clear(y, FootprintOf(x))
  {
  }

  lemma CreateWithin(db: Db, x: Txn)
    requires TxnOk(db, x) && WellFormed(db) && x.pc.Ready? && x.call.Remember?
    ensures Within(db, Install(db, x), FootprintOf(x))
  {
    var gone := Locked(x);
    FreshHasNoRevisions(db, x.id);
    CreateWithinAny(db, x.call, x.id, gone, FootprintOf(x));
  }

  lemma CreateKeysWithin(db: Db, c: Call, id: MemoryId, gone: set<MemoryId>, f: Footprint)
    requires c.Remember? && f.dedup == {DedupKeyFor(c)}
    requires f.keys == if Keyed(c) then {KeyFor(c)} else {}
    requires Keyed(c) ==> KeyFor(c) !in db.idem
    ensures KeysWithin(db, CreateWith(db, c, id, gone), f)
  {
  }

  lemma CreateWithinAny(db: Db, c: Call, id: MemoryId, gone: set<MemoryId>, f: Footprint)
    requires c.Remember? && id !in db.memories && (forall n :: RevKey(id, n) !in db.revisions)
    requires f.rows == gone && f.born == {id} && f.dedup == {DedupKeyFor(c)}
    requires f.keys == if Keyed(c) then {KeyFor(c)} else {}
    requires Keyed(c) ==> KeyFor(c) !in db.idem
    requires forall m | m in gone :: m in db.memories && db.memories[m].status == ACTIVE
    ensures Within(db, CreateWith(db, c, id, gone), f)
  {
    CreateKeysWithin(db, c, id, gone, f);
    CreateRowsWithin(db, c, id, gone, f);
  }

  lemma CreateRowsWithin(db: Db, c: Call, id: MemoryId, gone: set<MemoryId>, f: Footprint)
    requires c.Remember? && id !in db.memories && (forall n :: RevKey(id, n) !in db.revisions)
    requires f.rows == gone && f.born == {id}
    requires forall m | m in gone :: m in db.memories && db.memories[m].status == ACTIVE
    ensures MemoriesWithin(db, CreateWith(db, c, id, gone), f)
    ensures RevisionsWithin(db, CreateWith(db, c, id, gone), f)
  {
    hide WithDoneKey, Release, Enqueue;
  }

  lemma ReviseWithin(db: Db, x: Txn)
    requires TxnOk(db, x) && WellFormed(db) && x.pc.Ready? && x.call.Revise?
    ensures Within(db, Install(db, x), FootprintOf(x))
  {
    assert x.call.target in x.rows;
    var n := db.memories[x.call.target].current;
    assert RevKey(x.call.target, n + 1) !in db.revisions by {
      assert RevKey(x.call.target, n + 1) in db.revisions ==>
          RevisionOk(db.memories, RevKey(x.call.target, n + 1), db.revisions[RevKey(x.call.target, n + 1)]);
    }
    ReviseWithinAny(db, x.call, FootprintOf(x));
  }

  lemma ReviseKeysWithin(db: Db, c: Call, f: Footprint)
    requires c.Revise? && c.target in db.memories
    requires f.keys == if Keyed(c) then {KeyFor(c)} else {}
    requires Keyed(c) ==> KeyFor(c) !in db.idem
    ensures KeysWithin(db, ReviseWith(db, c), f)
  {
  }

  lemma ReviseWithinAny(db: Db, c: Call, f: Footprint)
    requires c.Revise? && Retirable(db.memories, c.project, c.target)
    requires RevKey(c.target, db.memories[c.target].current + 1) !in db.revisions
    requires f.rows == {c.target} && f.keys == if Keyed(c) then {KeyFor(c)} else {}
    requires Keyed(c) ==> KeyFor(c) !in db.idem
    ensures Within(db, ReviseWith(db, c), f)
  {
    hide WithDoneKey, Enqueue;
    ReviseKeysWithin(db, c, f);
    var b := ReviseWith(db, c);
    assert MemoriesWithin(db, b, f);
    assert RevisionsWithin(db, b, f);
  }

  lemma InstallWithin(db: Db, x: Txn)
    requires TxnOk(db, x) && WellFormed(db) && x.pc.Ready?
    ensures Within(db, Install(db, x), FootprintOf(x))
  {
    if x.call.Remember? {
      CreateWithin(db, x);
    } else if x.call.Revise? {
      ReviseWithin(db, x);
    } else {
      assert x.call.target in x.rows;
    }
  }
}
