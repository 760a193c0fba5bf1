/** What the committed transactions of every interleaving exclude, whatever their callers expect:
    two winners of one revision, two retirements of one memory, two effects under one key. */
module Winners {
  import opened Basics
  import opened Schema
  import opened Calls
  import opened Invariants
  import opened History
  import opened ReadCommitted
  import opened Transactions
  import opened Serializable
  import opened Interleaving
  import opened Truth
  import opened Idempotency

  // ---- revisions and retirements ---------------------------------------------

  /** The committed store shows what the answer reported. */
  ghost predicate Shows(ms: map<MemoryId, Memory>, o: Outcome) {
    && (o.Revised? ==> o.view.id in ms && ms[o.view.id].current > o.previous)
    && (forall x | Retires(o, x) :: x in ms && ms[x].status != ACTIVE)
  }

  ghost predicate Exclusive(a: Outcome, b: Outcome) {
    && !(a.Revised? && b.Revised? && a.view.id == b.view.id && a.previous == b.previous)
    && (forall x | Retires(a, x) :: !Retires(b, x))
  }

  ghost predicate WinnersOk(ms: map<MemoryId, Memory>, done: map<nat, Event>) {
    && (forall t | t in done :: Shows(ms, done[t].outcome))
    && (forall t, u | t in done && u in done && t != u :: Exclusive(done[t].outcome, done[u].outcome))
  }

  ghost predicate RowsGrow(a: map<MemoryId, Memory>, b: map<MemoryId, Memory>) {
    forall m | m in a :: m in b && RowGrows(a[m], b[m])
  }

  lemma ShowsStill(a: map<MemoryId, Memory>, b: map<MemoryId, Memory>, o: Outcome)
    requires RowsGrow(a, b) && Shows(a, o)
    ensures Shows(b, o)
  {
  }

  /** The answer won against rows of `a` that nobody had won before. */
  ghost predicate WinsIn(a: map<MemoryId, Memory>, o: Outcome) {
    && (o.Revised? ==> o.view.id in a && a[o.view.id].current == o.previous)
    && (forall x | Retires(o, x) :: x in a && a[x].status == ACTIVE)
  }

  lemma WinsExcludes(a: map<MemoryId, Memory>, o: Outcome, earlier: Outcome)
    requires WinsIn(a, o) && Shows(a, earlier)
    ensures Exclusive(o, earlier) && Exclusive(earlier, o)
  {
  }

  lemma WinnersAdd(a: map<MemoryId, Memory>, b: map<MemoryId, Memory>, done: map<nat, Event>, t: nat, e: Event)
    requires WinnersOk(a, done) && RowsGrow(a, b) && WinsIn(a, e.outcome) && Shows(b, e.outcome)
    ensures WinnersOk(b, done[t := e])
  {
    hide Shows, Exclusive, WinsIn, RowsGrow;
    forall u | u in done && u != t
      ensures Shows(b, done[u].outcome)
      ensures Exclusive(e.outcome, done[u].outcome) && Exclusive(done[u].outcome, e.outcome)
    {
      ShowsStill(a, b, done[u].outcome);
      WinsExcludes(a, e.outcome, done[u].outcome);
    }
  }

  lemma ReadyWins(db: Db, x: Txn)
    requires TxnOk(db, x) && x.pc.Ready?
    ensures IsWrite(x.call) && WinsIn(db.memories, x.pc.outcome) && Shows(Install(db, x).memories, x.pc.outcome)
  {
    assert RowsOk(db, x);
    if x.call.Remember? {
      assert forall m | m in x.rows :: m in db.memories && db.memories[m].status == ACTIVE;
      RetiredRows(db, x);
    } else {
      assert x.call.target in x.rows;
    }
  }

  lemma RetiredRows(db: Db, x: Txn)
    requires x.call.Remember? && forall m | m in x.rows :: m in db.memories
    requires x.id !in x.rows
    ensures forall m | m in x.rows :: m in Install(db, x).memories && Install(db, x).memories[m].status != ACTIVE
  {
  }

  lemma ReadWinsNothing(db: Db, x: Txn, ms: map<MemoryId, Memory>)
    requires TxnOk(db, x) && x.pc.Read?
    ensures WinsIn(ms, x.pc.outcome) && Shows(ms, x.pc.outcome)
  {
  }

  lemma MoveWinners(s: Sys, m: Move)
    requires Sound(s) && Enabled(s, m) && WinnersOk(s.db.memories, s.done)
    ensures WinnersOk(Apply(s, m).db.memories, Apply(s, m).done)
  {
    hide WellFormed, TxnOk, WinnersOk, Separate, TrailOk, NamesOk, Install;
    if m.Commit? && s.live[m.t].pc.Ready? {
      var x := s.live[m.t];
      OneOk(s.db, s.live, m.t);
      ReadyWins(s.db, x);
      InstallGrows(s.db, x);
      WinnersAdd(s.db.memories, Install(s.db, x).memories, s.done, m.t, EventOf(m.t, x, x.pc.outcome));
    } else if m.Commit? {
      var x := s.live[m.t];
      OneOk(s.db, s.live, m.t);
      ReadWinsNothing(s.db, x, s.db.memories);
      WinnersAdd(s.db.memories, s.db.memories, s.done, m.t, EventOf(m.t, x, x.pc.outcome));
    } else if m.Background? {
      var r := Exec(s.db, m.call, 0);
      assert r.db.memories == s.db.memories;
      WinnersAdd(s.db.memories, s.db.memories, s.done, m.t, Event(m.t, m.call, 0, r.outcome));
    }
  }

  lemma InstallGrows(db: Db, x: Txn)
    requires WellFormed(db) && TxnOk(db, x) && x.pc.Ready?
    ensures IsWrite(x.call) && RowsGrow(db.memories, Install(db, x).memories)
  {
    hide WellFormed, TxnOk, Install, RevisionsWithin, KeysWithin;
    ReadyFacts(db, x);
    InstallWithin(db, x);
  }

  lemma {:induction false} RunWinners(s: Sys, moves: seq<Move>)
    requires Sound(s) && ValidRun(s, moves) && WinnersOk(s.db.memories, s.done)
    ensures WinnersOk(Run(s, moves).db.memories, Run(s, moves).done)
    decreases |moves|
  {
    hide Sound, Apply, Enabled, WinnersOk;
    if moves != [] {
      MoveWinners(s, moves[0]);
      MoveSound(s, moves[0]);
      RunWinners(Apply(s, moves[0]), moves[1..]);
    }
  }

  lemma EveryRunHasWinners(start: Db, moves: seq<Move>)
    requires WellFormed(start) && ValidRun(Initial(start), moves)
    ensures WinnersOk(Run(Initial(start), moves).db.memories, Run(Initial(start), moves).done)
  {
    hide WellFormed, Sound;
    InitialSound(start);
    RunWinners(Initial(start), moves);
  }

  /** Under any interleaving two committed revises never win the same revision of one memory. */
  lemma {:induction false} OneCommitPerRevision(start: Db, moves: seq<Move>, t: nat, u: nat)
    requires WellFormed(start) && ValidRun(Initial(start), moves)
    requires var done := Run(Initial(start), moves).done;
             t in done && u in done && t != u && done[t].outcome.Revised? && done[u].outcome.Revised?
    ensures var done := Run(Initial(start), moves).done;
            !(done[t].outcome.view.id == done[u].outcome.view.id && done[t].outcome.previous == done[u].outcome.previous)
  {
    hide WellFormed, ValidRun, Run, Shows;
    EveryRunHasWinners(start, moves);
    var done := Run(Initial(start), moves).done;
    assert Exclusive(done[t].outcome, done[u].outcome);
  }

  /** ... and two committed transactions never retire the same memory. */
  lemma {:induction false} OneCommitRetires(start: Db, moves: seq<Move>, t: nat, u: nat, x: MemoryId)
    requires WellFormed(start) && ValidRun(Initial(start), moves)
    requires var done := Run(Initial(start), moves).done; t in done && u in done && t != u && Retires(done[t].outcome, x)
    ensures !Retires(Run(Initial(start), moves).done[u].outcome, x)
  {
    hide WellFormed, ValidRun, Run, Shows, Retires;
    EveryRunHasWinners(start, moves);
    var done := Run(Initial(start), moves).done;
    assert Exclusive(done[t].outcome, done[u].outcome);
  }

  // ---- request keys ----------------------------------------------------------

  /** What the row of a committed call still says, until it is collected. */
  ghost predicate RowTells(idem: map<IdemKey, IdemRow>, e: Event) {
    Keyed(e.call) ==>
      && (Effective(e.outcome) ==> KeyFor(e.call) in idem && idem[KeyFor(e.call)] == DoneRow(e.call, Landed(e.outcome)))
      && (LeftOpen(e.outcome) ==> KeyFor(e.call) in idem && idem[KeyFor(e.call)] == OpenRow(e.call))
  }

  ghost predicate Uncollected(trail: seq<Event>, i: nat, k: IdemKey) {
    i < |trail| && forall m | i < m < |trail| :: !Collects(trail[m], k)
  }

  ghost predicate KeysTell(idem: map<IdemKey, IdemRow>, trail: seq<Event>) {
    forall i: nat, k | Uncollected(trail, i, k) && Under(trail[i], k) :: RowTells(idem, trail[i])
  }

  /** After a caller that changed something every other replays that very memory under the same
      fingerprint, and after one left open nobody commits anything. */
  ghost predicate Follows(first: Event, e: Event) {
    && (Effective(first.outcome) ==>
          e.outcome.Replayed? && e.outcome.view.id == first.outcome.view.id && Keyed(e.call) && Keyed(first.call)
          && Print(e.call) == Print(first.call))
    && !LeftOpen(first.outcome)
  }

  /** While a row is alive, in the order of the commits. */
  ghost predicate OneEffectPerKey(trail: seq<Event>) {
    forall i: nat, j: nat, k | Alive(trail, i, j, k) && Under(trail[i], k) && Under(trail[j], k) :: Follows(trail[i], trail[j])
  }

  ghost predicate KeysOk(idem: map<IdemKey, IdemRow>, trail: seq<Event>) {
    KeysTell(idem, trail) && OneEffectPerKey(trail)
  }

  lemma UncollectedBefore(trail: seq<Event>, e: Event, i: nat, k: IdemKey)
    requires i < |trail|
    ensures Uncollected(trail + [e], i, k) <==> Uncollected(trail, i, k) && !Collects(e, k)
    ensures Alive(trail + [e], i, |trail|, k) <==> Uncollected(trail, i, k)
  {
    var all := trail + [e];
    assert all[|trail|] == e;
    assert forall m | i < m < |trail| :: all[m] == trail[m];
    if Uncollected(all, i, k) {
      forall m | i < m < |trail|
        ensures !Collects(trail[m], k)
      {
        assert !Collects(all[m], k);
      }
    }
    if Alive(all, i, |trail|, k) {
      forall m | i < m < |trail|
        ensures !Collects(trail[m], k)
      {
        assert !Collects(all[m], k);
      }
    }
  }

  lemma AliveBefore(trail: seq<Event>, e: Event, i: nat, j: nat, k: IdemKey)
    requires j < |trail| && Alive(trail + [e], i, j, k)
    ensures Alive(trail, i, j, k)
  {
    var all := trail + [e];
    forall m | i < m < j
      ensures !Collects(trail[m], k)
    {
      assert all[m] == trail[m] && !Collects(all[m], k);
    }
  }

  /** One more commit: rows it did not collect are kept, its own row tells, and it follows whoever
      came before it under its key. */
  lemma KeysAdd(a: map<IdemKey, IdemRow>, b: map<IdemKey, IdemRow>, trail: seq<Event>, e: Event)
    requires KeysOk(a, trail) && RowTells(b, e)
    requires forall k | k in a && !Collects(e, k) :: k in b && b[k] == a[k]
    requires forall f: Event | Keyed(f.call) && Keyed(e.call) && KeyFor(f.call) == KeyFor(e.call) && RowTells(a, f) :: Follows(f, e)
    ensures KeysOk(b, trail + [e])
  {
    hide RowTells, Follows, Alive, Uncollected;
    KeysTellAdd(a, b, trail, e);
    var all := trail + [e];
    forall i: nat, j: nat, k | Alive(all, i, j, k)
      ensures i < j < |all|
    {
      AliveBounds(all, i, j, k);
    }
    forall i: nat, j: nat, k | i < j < |all| && Alive(all, i, j, k) && Under(all[i], k) && Under(all[j], k)
      ensures Follows(all[i], all[j])
    {
      if j < |trail| {
        AliveBefore(trail, e, i, j, k);
        assert all[i] == trail[i] && all[j] == trail[j];
      } else {
        UncollectedBefore(trail, e, i, k);
        assert all[i] == trail[i] && all[j] == e;
        assert RowTells(a, trail[i]);
      }
    }
  }

  lemma AliveBounds(log: seq<Event>, i: nat, j: nat, k: IdemKey)
    requires Alive(log, i, j, k)
    ensures i < j < |log|
  {
  }

  lemma KeysTellAdd(a: map<IdemKey, IdemRow>, b: map<IdemKey, IdemRow>, trail: seq<Event>, e: Event)
    requires KeysTell(a, trail) && RowTells(b, e)
    requires forall k | k in a && !Collects(e, k) :: k in b && b[k] == a[k]
    ensures KeysTell(b, trail + [e])
  {
    hide Uncollected, Alive;
    var all := trail + [e];
    forall i: nat, k | i < |all| && Uncollected(all, i, k) && Under(all[i], k)
      ensures RowTells(b, all[i])
    {
      if i < |trail| {
        UncollectedBefore(trail, e, i, k);
        assert all[i] == trail[i];
        assert RowTells(a, trail[i]);
      } else {
        assert all[i] == e;
      }
    }
    forall i: nat, k | Uncollected(all, i, k)
      ensures i < |all|
    {
      UncollectedBounds(all, i, k);
    }
  }

  lemma UncollectedBounds(trail: seq<Event>, i: nat, k: IdemKey)
    requires Uncollected(trail, i, k)
    ensures i < |trail|
  {
  }

  /** A call that owns its key meets no row; one that replays meets the row it has locked. */
  lemma OwnerFollows(db: Db, x: Txn, e: Event, f: Event)
    requires TxnOk(db, x) && (x.pc.Ready? || x.pc.Read?) && e.call == x.call && e.outcome == x.pc.outcome
    requires Keyed(f.call) && Keyed(e.call) && KeyFor(f.call) == KeyFor(e.call) && RowTells(db.idem, f)
    ensures Follows(f, e)
  {
    hide ReadyOk, RowsOk, DedupOwned;
  }

  lemma ReadyTells(db: Db, x: Txn, e: Event)
    requires TxnOk(db, x) && x.pc.Ready? && e.call == x.call && e.outcome == x.pc.outcome
    ensures IsWrite(x.call) && RowTells(Install(db, x).idem, e)
    ensures forall k | k in db.idem :: k in Install(db, x).idem && Install(db, x).idem[k] == db.idem[k]
  {
    hide RowsOk, DedupOwned, Retire, Release, Enqueue, TargetsOk;
    InstalledKeys(db, x);
  }

  lemma InstalledKeys(db: Db, x: Txn)
    requires TxnOk(db, x) && x.pc.Ready?
    ensures IsWrite(x.call)
    ensures Install(db, x).idem
            == if x.call.Remember? then WithDoneKey(db.idem, x.call, Response(x.id, 1))
               else if x.call.Revise? then WithDoneKey(db.idem, x.call, Response(x.call.target, x.pc.outcome.view.no))
               else db.idem
  {
    hide HoldOk, DedupOwned, Retire, Release, Enqueue, TargetsOk, WithDoneKey;
    if x.call.Forget? {
      assert x.call.target in x.rows;
    }
  }

  lemma ReadTells(db: Db, x: Txn, e: Event)
    requires TxnOk(db, x) && x.pc.Read? && e.call == x.call && e.outcome == x.pc.outcome
    ensures IsWrite(x.call) && RowTells(AfterRead(db, x).idem, e)
    ensures forall k | k in db.idem :: k in AfterRead(db, x).idem && AfterRead(db, x).idem[k] == db.idem[k]
  {
  }

  lemma MoveKeys(s: Sys, m: Move)
    requires Sound(s) && Enabled(s, m) && KeysOk(s.db.idem, s.trail)
    ensures KeysOk(Apply(s, m).db.idem, Apply(s, m).trail)
  {
    hide WellFormed, TxnOk, KeysOk, Separate, TrailOk, NamesOk, Install, RowTells, Follows, AfterRead;
    if m.Commit? {
      var x := s.live[m.t];
      var e := EventOf(m.t, x, x.pc.outcome);
      OneOk(s.db, s.live, m.t);
      forall f: Event | Keyed(f.call) && Keyed(e.call) && KeyFor(f.call) == KeyFor(e.call) && RowTells(s.db.idem, f)
        ensures Follows(f, e)
      {
        OwnerFollows(s.db, x, e, f);
      }
      if x.pc.Ready? {
        ReadyTells(s.db, x, e);
        CommitReadyIs(s, m);
        KeysAdd(s.db.idem, Install(s.db, x).idem, s.trail, e);
      } else {
        ReadTells(s.db, x, e);
        CommitReadIs(s, m);
        KeysAdd(s.db.idem, AfterRead(s.db, x).idem, s.trail, e);
      }
    } else if m.Background? {
      BackgroundKeys(s, m);
    }
  }

  lemma BackgroundKeys(s: Sys, m: Move)
    requires m.Background? && Enabled(s, m) && KeysOk(s.db.idem, s.trail)
    ensures KeysOk(Apply(s, m).db.idem, Apply(s, m).trail)
  {
    hide KeysOk, Follows;
    var r := Exec(s.db, m.call, 0);
    var e := Event(m.t, m.call, 0, r.outcome);
    KeysAdd(s.db.idem, r.db.idem, s.trail, e);
  }

  lemma {:induction false} RunKeys(s: Sys, moves: seq<Move>)
    requires Sound(s) && ValidRun(s, moves) && KeysOk(s.db.idem, s.trail)
    ensures KeysOk(Run(s, moves).db.idem, Run(s, moves).trail)
    decreases |moves|
  {
    hide Sound, Apply, Enabled, KeysOk;
    if moves != [] {
      MoveKeys(s, moves[0]);
      MoveSound(s, moves[0]);
      RunKeys(Apply(s, moves[0]), moves[1..]);
    }
  }

  /** Under every interleaving, of two committed calls under one key with no collection of its row between
      them, the first did not deduplicate or conflict, and if it changed anything the second replayed
      its memory under the same fingerprint. */
  lemma {:induction false} OneCommitPerKey(start: Db, moves: seq<Move>, i: nat, j: nat)
    requires WellFormed(start) && ValidRun(Initial(start), moves)
    requires var trail := Run(Initial(start), moves).trail;
             && i < j < |trail| && Keyed(trail[i].call) && Keyed(trail[j].call) && KeyFor(trail[i].call) == KeyFor(trail[j].call)
             && forall m | i < m < j :: !(trail[m].call.Collect? && KeyFor(trail[i].call) in trail[m].call.keys)
    ensures var trail := Run(Initial(start), moves).trail;
            var first, next := trail[i], trail[j];
            && !first.outcome.Deduplicated? && !first.outcome.Conflicted?
            && (first.outcome.Created? || first.outcome.Revised? ==>
                  next.outcome.Replayed? && next.outcome.view.id == first.outcome.view.id && Print(next.call) == Print(first.call))
  {
    hide ValidRun, Run;
    KeysOfRun(start, moves);
    var trail := Run(Initial(start), moves).trail;
    var k := KeyFor(trail[i].call);
    assert Alive(trail, i, j, k) && Under(trail[i], k) && Under(trail[j], k);
    assert Follows(trail[i], trail[j]);
  }

  /** ... and until it is collected the row of a committed call tells how that call ended. */
  lemma {:induction false} RowTellsItsOwner(start: Db, moves: seq<Move>, i: nat)
    requires WellFormed(start) && ValidRun(Initial(start), moves)
    requires var trail := Run(Initial(start), moves).trail;
             && i < |trail| && Keyed(trail[i].call)
             && forall m | i < m < |trail| :: !(trail[m].call.Collect? && KeyFor(trail[i].call) in trail[m].call.keys)
    ensures var s := Run(Initial(start), moves);
            var k, o := KeyFor(s.trail[i].call), s.trail[i].outcome;
            && (o.Created? || o.Revised? ==>
                  k in s.db.idem && s.db.idem[k].state == COMPLETED && s.db.idem[k].response == Some(Response(o.view.id, o.view.no)))
            && (o.Deduplicated? || o.Conflicted? ==> k in s.db.idem && s.db.idem[k].state == IN_PROGRESS)
  {
    hide ValidRun, Run;
    KeysOfRun(start, moves);
    var trail := Run(Initial(start), moves).trail;
    assert Uncollected(trail, i, KeyFor(trail[i].call)) && Under(trail[i], KeyFor(trail[i].call));
  }

  lemma KeysOfRun(start: Db, moves: seq<Move>)
    requires WellFormed(start) && ValidRun(Initial(start), moves)
    ensures var s := Run(Initial(start), moves);
            && OneEffectPerKey(s.trail) && KeysTell(s.db.idem, s.trail)
            && TrailOk(s.done, s.trail)
  {
    hide WellFormed, Sound;
    EveryRunIsSound(start, moves);
    InitialSound(start);
    RunKeys(Initial(start), moves);
    SoundTrail(Run(Initial(start), moves));
  }

  lemma SoundTrail(s: Sys)
    requires Sound(s)
    ensures TrailOk(s.done, s.trail)
  {
  }
}
