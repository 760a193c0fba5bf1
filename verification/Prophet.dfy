/** Why serial orders are promised to callers who name a revision that has been committed:
    a caller who guesses the next one can be told it lost to that very revision. */
module Prophet {
  import opened Basics
  import opened Schema
  import opened Calls
  import opened Invariants
  import opened History
  import opened ReadCommitted
  import opened Transactions
  import opened Serializable
  import opened Interleaving

  /** Two unkeyed revises of one visible memory: q expects its current revision, p the one after. */
  ghost predicate Setting(db: Db, p: Call, q: Call, a: MemoryId, b: MemoryId) {
    && WellFormed(db)
    && p.Revise? && q.Revise? && p.key.None? && q.key.None? && ArgumentsOk(p) && ArgumentsOk(q)
    && p.project == q.project && p.target == q.target
    && Visible(db, p.project, p.target, p.now) && Visible(db, q.project, q.target, q.now)
    && q.expected == db.memories[q.target].current && p.expected == q.expected + 1
    && a !in db.birth && b !in db.birth && a != b && a != p.target && b != p.target
  }

  /** p reads and loses, q reads, wins and commits, p reads again and reports. */
  function ProphetMoves(p: Call, q: Call, a: MemoryId, b: MemoryId): seq<Move> {
    [Begin(0, p, a), Advance(0), Advance(0)]
    + [Begin(1, q, b), Advance(1), Advance(1), Advance(1), Commit(1)]
    + [Advance(0), Commit(0)]
  }

  // ---- one move at a time ----------------------------------------------------

  function At(c: Call, id: MemoryId, pc: Pc, rows: seq<MemoryId>): Txn {
    Txn(c, id, pc, NotHeld, false, rows, [], false)
  }

  ghost predicate HoldsNothing(x: Txn) {
    x.hold == NotHeld && !x.claimed && x.rows == [] && !x.attested
  }

  lemma NotBlocked(s: Sys, t: nat)
    requires t in s.live && forall u | u in s.live && u != t :: HoldsNothing(s.live[u])
    ensures !Blocked(s, t)
  {
  }

  lemma Advances(s: Sys, t: nat, y: Txn)
    requires t in s.live && Fits(s.live[t]) && StepTxn(s.db, s.live[t]) == y && !y.pc.Read?
    requires forall u | u in s.live && u != t :: HoldsNothing(s.live[u])
    ensures Enabled(s, Advance(t)) && Apply(s, Advance(t)) == s.(live := s.live[t := y])
  {
    NotBlocked(s, t);
  }

  lemma {:induction false} Joined(s: Sys, before: seq<Move>, after: seq<Move>)
    requires ValidRun(s, before) && ValidRun(Run(s, before), after)
    ensures ValidRun(s, before + after) && Run(s, before + after) == Run(Run(s, before), after)
    decreases |before|
  {
    hide Apply, Enabled;
    if before == [] {
      assert before + after == after;
    } else {
      Joined(Apply(s, before[0]), before[1..], after);
      assert (before + after)[1..] == before[1..] + after;
    }
  }

  lemma One(s: Sys, m: Move)
    requires Enabled(s, m)
    ensures ValidRun(s, [m]) && Run(s, [m]) == Apply(s, m)
  {
    assert [m][1..] == [];
  }

  lemma Then(s: Sys, before: seq<Move>, m: Move)
    requires ValidRun(s, before) && Enabled(Run(s, before), m)
    ensures ValidRun(s, before + [m]) && Run(s, before + [m]) == Apply(Run(s, before), m)
  {
    One(Run(s, before), m);
    Joined(s, before, [m]);
  }

  // ---- the three parts of the run --------------------------------------------

  lemma Loses(db: Db, p: Call, q: Call, a: MemoryId, b: MemoryId)
    requires Setting(db, p, q, a, b)
    ensures var moves := [Begin(0, p, a), Advance(0), Advance(0)];
            && ValidRun(Initial(db), moves)
            && Run(Initial(db), moves) == Initial(db).(live := map[0 := At(p, a, AtReread, [])], earlier := map[0 := {}])
  {
    hide WellFormed;
    var s0 := Initial(db);
    One(s0, Begin(0, p, a));
    var s1 := s0.(live := map[0 := At(p, a, AtGet, [])], earlier := map[0 := {}]);
    assert s0.done.Keys == {};
    assert s0.live[0 := At(p, a, AtGet, [])] == s1.live && s0.earlier[0 := {}] == s1.earlier;
    assert Apply(s0, Begin(0, p, a)) == s1;
    var s2 := s1.(live := map[0 := At(p, a, AtCas(false), [])]);
    Advances(s1, 0, At(p, a, AtCas(false), []));
    assert s1.live[0 := At(p, a, AtCas(false), [])] == s2.live;
    Then(s0, [Begin(0, p, a)], Advance(0));
    Advances(s2, 0, At(p, a, AtReread, []));
    assert s2.live[0 := At(p, a, AtReread, [])] == map[0 := At(p, a, AtReread, [])];
    Then(s0, [Begin(0, p, a)] + [Advance(0)], Advance(0));
    assert [Begin(0, p, a)] + [Advance(0)] + [Advance(0)] == [Begin(0, p, a), Advance(0), Advance(0)];
  }

  function Won(db: Db, q: Call): Outcome
    requires q.Revise? && q.target in db.memories
  {
    Revised(View(q.target, db.memories[q.target].current + 1, q.text), db.memories[q.target].current)
  }

  lemma Begins(s: Sys, db: Db, p: Call, q: Call, a: MemoryId, b: MemoryId)
    requires Setting(db, p, q, a, b)
    requires s == Initial(db).(live := map[0 := At(p, a, AtReread, [])], earlier := map[0 := {}])
    ensures Enabled(s, Begin(1, q, b))
    ensures Apply(s, Begin(1, q, b)) == s.(live := s.live[1 := At(q, b, AtGet, [])], earlier := s.earlier[1 := {}])
  {
    hide WellFormed;
    assert s.done.Keys == {};
  }

  lemma Steps(db: Db, q: Call, b: MemoryId)
    requires q.Revise? && q.key.None? && Visible(db, q.project, q.target, q.now)
    requires q.expected == db.memories[q.target].current
    ensures StepTxn(db, At(q, b, AtGet, [])) == At(q, b, AtCas(false), [])
    ensures StepTxn(db, At(q, b, AtCas(false), [])) == At(q, b, AtCas(true), [])
    ensures StepTxn(db, At(q, b, AtCas(true), [])) == At(q, b, Ready(Won(db, q)), [q.target])
  {
  }

  lemma Commits(s: Sys, x: Txn)
    requires 1 in s.live && s.live[1] == x && x.call.Revise? && x.pc.Ready? && x.call.target in s.db.memories
    ensures Enabled(s, Commit(1))
    ensures var e := EventOf(1, x, x.pc.outcome);
            Apply(s, Commit(1)) == s.(db := ReviseWith(s.db, x.call), live := s.live - {1}, done := s.done[1 := e],
                                      trail := s.trail + [e], log := s.log + [e])
  {
  }

  lemma SettingSays(db: Db, p: Call, q: Call, a: MemoryId, b: MemoryId)
    requires Setting(db, p, q, a, b)
    ensures q.Revise? && q.key.None? && Visible(db, q.project, q.target, q.now) && q.expected == db.memories[q.target].current
  {
    hide WellFormed;
  }

  function Waiting(s: Sys, q: Call, b: MemoryId, pc: Pc, rows: seq<MemoryId>): Sys {
    s.(live := s.live[1 := At(q, b, pc, rows)], earlier := s.earlier[1 := {}])
  }

  lemma Tries(s: Sys, db: Db, p: Call, q: Call, a: MemoryId, b: MemoryId)
    requires Setting(db, p, q, a, b)
    requires s == Initial(db).(live := map[0 := At(p, a, AtReread, [])], earlier := map[0 := {}])
    ensures var moves := [Begin(1, q, b)] + [Advance(1)];
            ValidRun(s, moves) && Run(s, moves) == Waiting(s, q, b, AtCas(false), [])
  {
    hide WellFormed, Enabled, Apply, StepTxn, Visible, Setting;
    SettingSays(db, p, q, a, b);
    Begins(s, db, p, q, a, b);
    Steps(db, q, b);
    One(s, Begin(1, q, b));
    Advances(Run(s, [Begin(1, q, b)]), 1, At(q, b, AtCas(false), []));
    Then(s, [Begin(1, q, b)], Advance(1));
  }

  /** q reads and takes the row, while p waits to read again. */
  lemma Takes(s: Sys, db: Db, p: Call, q: Call, a: MemoryId, b: MemoryId)
    requires Setting(db, p, q, a, b) && q.target in db.memories
    requires s == Initial(db).(live := map[0 := At(p, a, AtReread, [])], earlier := map[0 := {}])
    ensures var moves := [Begin(1, q, b)] + [Advance(1)] + [Advance(1)] + [Advance(1)];
            ValidRun(s, moves) && Run(s, moves) == Waiting(s, q, b, Ready(Won(db, q)), [q.target])
  {
    hide WellFormed, Enabled, Apply, StepTxn, ReviseWith, Visible, Setting, Won;
    SettingSays(db, p, q, a, b);
    Steps(db, q, b);
    Tries(s, db, p, q, a, b);
    var m1 := [Begin(1, q, b)] + [Advance(1)];
    Advances(Run(s, m1), 1, At(q, b, AtCas(true), []));
    Then(s, m1, Advance(1));
    var m2 := m1 + [Advance(1)];
    Advances(Run(s, m2), 1, At(q, b, Ready(Won(db, q)), [q.target]));
    Then(s, m2, Advance(1));
  }

  lemma Wins(s: Sys, db: Db, p: Call, q: Call, a: MemoryId, b: MemoryId)
    requires Setting(db, p, q, a, b)
    requires s == Initial(db).(live := map[0 := At(p, a, AtReread, [])], earlier := map[0 := {}])
    ensures var moves := [Begin(1, q, b), Advance(1), Advance(1), Advance(1), Commit(1)];
            && ValidRun(s, moves)
            && var n := Run(s, moves);
               && n.db == ReviseWith(db, q) && n.live == map[0 := At(p, a, AtReread, [])]
               && n.done == map[1 := Event(1, q, b, Won(db, q))]
  {
    hide WellFormed, Enabled, Apply, StepTxn, ReviseWith, Visible, Setting, Won;
    SettingSays(db, p, q, a, b);
    InRows(db, q);
    Takes(s, db, p, q, a, b);
    var m3 := [Begin(1, q, b)] + [Advance(1)] + [Advance(1)] + [Advance(1)];
    Commits(Run(s, m3), At(q, b, Ready(Won(db, q)), [q.target]));
    Then(s, m3, Commit(1));
    assert m3 + [Commit(1)] == [Begin(1, q, b), Advance(1), Advance(1), Advance(1), Commit(1)];
    assert Run(s, m3).live - {1} == map[0 := At(p, a, AtReread, [])];
  }

  lemma ReadsAgain(db: Db, late: Db, p: Call, a: MemoryId)
    requires p.Revise? && Visible(db, p.project, p.target, p.now)
    requires p.expected == db.memories[p.target].current + 1
    requires late.memories == db.memories[p.target := db.memories[p.target].(current := db.memories[p.target].current + 1)]
    requires var k := RevKey(p.target, db.memories[p.target].current + 1); k in late.revisions && late.revisions[k].isCurrent
    ensures p.target in late.memories && RevKey(p.target, late.memories[p.target].current) in late.revisions
    ensures StepTxn(late, At(p, a, AtReread, [])) == At(p, a, Read(Conflicted(ViewOf(late, p.target))), [])
    ensures ViewOf(late, p.target).no == p.expected
  {
  }

  lemma Reports(s: Sys, x: Txn, y: Txn)
    requires s.live == map[0 := x] && Fits(x) && StepTxn(s.db, x) == y && y.pc.Read? && !y.pc.outcome.Deduplicated?
    requires y.hold == NotHeld && IsWrite(y.call) && 0 !in s.done
    ensures var moves := [Advance(0), Commit(0)];
            && ValidRun(s, moves)
            && var n := Run(s, moves);
               && n.db == s.db && n.live == map[] && n.done == s.done[0 := EventOf(0, y, y.pc.outcome)]
  {
    NotBlocked(s, 0);
    One(s, Advance(0));
    var n := Apply(s, Advance(0));
    assert n == Answered(s, 0, y);
    One(n, Commit(0));
    Joined(s, [Advance(0)], [Commit(0)]);
    assert [Advance(0)] + [Commit(0)] == [Advance(0), Commit(0)];
    assert n.live - {0} == map[];
  }

  // ---- the run ---------------------------------------------------------------

  lemma ConflictIsElsewhere(d: Db, c: Call, id: MemoryId, v: View)
    requires c.Revise? && Exec(d, c, id).outcome == Conflicted(v)
    ensures v.no != c.expected
  {
    KeyedEffect(d, c, id);
  }

  /** No serial order of any calls contains a conflict that names the expected revision. */
  lemma NeverSerial(start: Db, order: seq<Event>, e: Event)
    requires Faithful(start, order) && e.call.Revise? && e.outcome.Conflicted? && e.outcome.current.no == e.call.expected
    ensures e !in order
  {
    hide Exec, Replay, Faithful;
    if e in order {
      var i :| 0 <= i < |order| && order[i] == e;
      FaithfulAt(start, order, i);
      ConflictIsElsewhere(Replay(start, order[..i]), e.call, e.id, e.outcome.current);
    }
  }

  lemma MadeVisible(db: Db, q: Call)
    requires q.Revise? && q.target in db.memories
    ensures var late, n := ReviseWith(db, q), db.memories[q.target].current;
            && late.memories == db.memories[q.target := db.memories[q.target].(current := n + 1)]
            && RevKey(q.target, n + 1) in late.revisions && late.revisions[RevKey(q.target, n + 1)].isCurrent
  {
  }

  lemma NotReadFirst(db: Db, p: Call, q: Call, a: MemoryId, b: MemoryId)
    requires Setting(db, p, q, a, b) && ValidRun(Initial(db), ProphetMoves(p, q, a, b))
    ensures !ReadFirst(Initial(db), ProphetMoves(p, q, a, b))
  {
    hide WellFormed, Apply, Enabled;
    assert ProphetMoves(p, q, a, b)[0] == Begin(0, p, a);
  }

  /** From every such store the machine has this run: it ends with nothing in progress, p conflicted
      with the very revision it expected, q successful, and no serial run of any calls gives p's answer. */
  lemma ProphetRun(db: Db, p: Call, q: Call, a: MemoryId, b: MemoryId)
    requires Setting(db, p, q, a, b)
    ensures var moves := ProphetMoves(p, q, a, b);
            && ValidRun(Initial(db), moves) && !ReadFirst(Initial(db), moves)
            && var s := Run(Initial(db), moves);
               && s.live == map[] && s.done.Keys == {0, 1}
               && s.done[1] == Event(1, q, b, Won(db, q))
               && s.done[0].call == p && s.done[0].outcome.Conflicted? && s.done[0].outcome.current.no == p.expected
               && forall order | Faithful(db, order) :: s.done[0] !in order
  {
    hide WellFormed, Enabled, Apply, StepTxn, ReviseWith, Visible, Faithful, ArgumentsOk;
    var first, second, third :=
      [Begin(0, p, a), Advance(0), Advance(0)],
      [Begin(1, q, b), Advance(1), Advance(1), Advance(1), Commit(1)],
      [Advance(0), Commit(0)];
    Loses(db, p, q, a, b);
    Wins(Run(Initial(db), first), db, p, q, a, b);
    Joined(Initial(db), first, second);
    var s := Run(Initial(db), first + second);
    InRows(db, q);
    MadeVisible(db, q);
    ReadsAgain(db, s.db, p, a);
    Reports(s, At(p, a, AtReread, []), At(p, a, Read(Conflicted(ViewOf(s.db, p.target))), []));
    Joined(Initial(db), first + second, third);
    NotReadFirst(db, p, q, a, b);
    var n := Run(Initial(db), ProphetMoves(p, q, a, b));
    forall order | Faithful(db, order)
      ensures n.done[0] !in order
    {
      NeverSerial(db, order, n.done[0]);
    }
  }

  lemma InRows(db: Db, q: Call)
    requires q.Revise? && Visible(db, q.project, q.target, q.now)
    ensures q.target in db.memories
  {
  }

  // ---- a purge in between ----------------------------------------------------

  /** Why purge stays out of the machine: a forget whose active memory is purged between its two
      statements answers "already forgotten", while the atomic call answers "forgotten" before the
      purge and raises after it. */
  lemma ForgetAcrossPurge(db: Db, x: Txn, purge: Call, id: MemoryId)
    requires x.call.Forget? && x.pc == AtExists && Retirable(db.memories, x.call.project, x.call.target)
    requires purge.Purge? && purge.project == x.call.project && purge.target == x.call.target
    ensures var d := Exec(db, purge, 0).db;
            && StepTxn(db, x).pc == AtForget(false)
            && StepTxn(d, StepTxn(db, x)).pc == Read(AlreadyForgotten(x.call.target))
            && Exec(db, x.call, id).outcome == Forgotten(x.call.target)
            && Exec(d, x.call, id).outcome == Raised(MemoryNotFound)
  {
    assert x.call.target !in Exec(db, purge, 0).db.memories;
  }
}
