/** What nobody disturbs happens: a call that runs alone in the machine ends as the atomic call does,
    and so every serial run of calls is a run of the machine. */
module Alone {
  import opened Basics
  import opened Schema
  import opened Calls
  import opened Invariants
  import opened History
  import opened ReadCommitted
  import opened Transactions
  import opened Serializable
  import opened Interleaving

  // ---- one transaction against a store that stands still ---------------------

  /** An upper bound on the statements a transaction has still to execute. */
  ghost function Left(x: Txn): nat {
    var n := if x.call.Remember? then |Order(x.call)| else 0;
    match x.pc
    case AtKey(a) => 2 * n + 21 + if a < 4 then 2 * (4 - a) else 0
    case AtWait(a) => 2 * n + 20 + if a < 4 then 2 * (4 - a) else 0
    case AtReplay(_) => 1
    case AtClaim => 2 * n + 9
    case AtHolder => 2
    case AtExisting(_) => 1
    case AtTarget(i, matched) => (if i <= n then 2 * (n - i) else 0) + if matched then 1 else 2
    case AtGet => 5
    case AtCas(matched) => if matched then 3 else 4
    case AtReread => 1
    case AtExists => 4
    case AtForget(matched) => if matched then 2 else 3
    case _ => 0
  }

  lemma KeyStepsDown(db: Db, x: Txn)
    requires Fits(x) && (x.pc.AtKey? || x.pc.AtWait? || x.pc.AtReplay?)
    ensures Left(StepTxn(db, x)) < Left(x)
  {
    hide Order, ViewOf, Visible, KeyFor, Print, OperationOf;
  }

  lemma TargetStepsDown(db: Db, x: Txn)
    requires Fits(x) && x.pc.AtTarget?
    ensures Left(StepTxn(db, x)) < Left(x)
  {
    hide Order, Retirable, Completable;
  }

  lemma RememberStepsDown(db: Db, x: Txn)
    requires Fits(x) && (x.pc.AtClaim? || x.pc.AtHolder? || x.pc.AtExisting?)
    ensures Left(StepTxn(db, x)) < Left(x)
  {
    hide Order, ViewOf, Visible, DedupKeyFor;
  }

  lemma ReviseStepsDown(db: Db, x: Txn)
    requires Fits(x) && (x.pc.AtGet? || x.pc.AtCas? || x.pc.AtReread?)
    ensures Left(StepTxn(db, x)) < Left(x)
  {
    hide Order, ViewOf, Visible, CasMatches, Completable;
  }

  lemma ForgetStepsDown(db: Db, x: Txn)
    requires Fits(x) && (x.pc.AtExists? || x.pc.AtForget?)
    ensures Left(StepTxn(db, x)) < Left(x)
  {
    hide Order, Retirable;
  }

  lemma BodySteps(x: Txn)
    requires Fits(x)
    ensures !x.pc.Ready? && !x.pc.Read? && !x.pc.Failing?
  {
  }

  lemma StepsDown(db: Db, x: Txn)
    requires Fits(x)
    ensures Left(StepTxn(db, x)) < Left(x)
  {
    hide Left, StepTxn, Fits;
    if x.pc.AtKey? || x.pc.AtWait? || x.pc.AtReplay? {
      KeyStepsDown(db, x);
    } else if x.pc.AtTarget? {
      TargetStepsDown(db, x);
    } else {
      BodySteps(x);
      if x.pc.AtClaim? || x.pc.AtHolder? || x.pc.AtExisting? {
        RememberStepsDown(db, x);
      } else if x.pc.AtGet? || x.pc.AtCas? || x.pc.AtReread? {
        ReviseStepsDown(db, x);
      } else {
        ForgetStepsDown(db, x);
      }
    }
  }

  /** What a transaction knows besides when the store has not changed since it began. */
  ghost predicate OnCourse(db: Db, x: Txn) {
    var c := x.call;
    match x.pc
    case AtWait(_) => Keyed(c) && KeyFor(c) in db.idem
    case AtHolder => c.Remember? && DedupKeyFor(c) in db.dedup
    case AtExisting(m) => c.Remember? && DedupKeyFor(c) in db.dedup && db.dedup[DedupKeyFor(c)] == m
    case AtCas(_) => c.Revise? && Visible(db, c.project, c.target, c.now)
    case AtReread =>
      c.Revise? && Visible(db, c.project, c.target, c.now) && !CasMatches(db.memories, c.project, c.target, c.expected)
    case Ready(o) => IsWrite(c) && Exec(db, c, x.id) == Step(Install(db, x), o)
    case Read(o) => IsWrite(c) && Exec(db, c, x.id) == Step(if LeavesOpenKey(x) then WithOpenKey(db, c) else db, o)
    case Failing(e) => Exec(db, c, x.id) == Step(db, Raised(e))
    case _ => true
  }

  /** A claim that meets a rival which rolls back tries again, up to three times in all. */
  lemma ThreeAttempts(db: Db, x: Txn)
    requires Fits(x) && x.pc.AtWait? && KeyFor(x.call) !in db.idem
    ensures StepTxn(db, x) == x.(pc := if x.pc.attempt < 2 then AtKey(x.pc.attempt + 1) else Failing(ClaimExhausted))
  {
  }

  lemma KeyStepOnCourse(db: Db, x: Txn)
    requires TxnOk(db, x) && OnCourse(db, x) && Fits(x) && (x.pc.AtKey? || x.pc.AtWait? || x.pc.AtReplay?)
    ensures OnCourse(db, StepTxn(db, x))
  {
    if StepTxn(db, x).pc.Read? {
      ReplayMeansExec(db, x);
      KeyLeft(db, x);
      ReadPoints(db, x);
    }
  }

  lemma FinishOnCourse(db: Db, x: Txn)
    requires TxnOk(db, x) && x.pc.AtTarget? && x.pc.i >= |Order(x.call)| && !Completable(x.call)
    ensures Exec(db, x.call, x.id) == Step(db, Raised(KeyVanished))
  {
    hide CreateWith, Picked, Passed;
    SettledRunsBody(db, x);
    assert ExecBody(db, x.call, x.id) == ExecRemember(db, x.call, x.id);
  }

  lemma RememberStepOnCourse(db: Db, x: Txn)
    requires WellFormed(db) && TxnOk(db, x) && OnCourse(db, x) && Fits(x) && x.call.Remember?
    requires x.pc.AtClaim? || x.pc.AtHolder? || x.pc.AtExisting?
    ensures OnCourse(db, StepTxn(db, x))
  {
    hide WellFormed, CreateWith, Picked, Passed, Visible, ViewOf, WithOpenKey;
    var y := StepTxn(db, x);
    if y.pc.Read? {
      DedupMeansExec(db, x);
      KeyLeft(db, x);
      ReadPoints(db, x);
    } else if y.pc.Failing? {
      SettledRunsBody(db, x);
      assert ExecBody(db, x.call, x.id) == ExecRemember(db, x.call, x.id);
    }
  }

  lemma TargetStepOnCourse(db: Db, x: Txn)
    requires WellFormed(db) && TxnOk(db, x) && x.pc.AtTarget? && x.call.Remember?
    ensures OnCourse(db, StepTxn(db, x))
  {
    hide WellFormed, Install, Picked, Passed, Order, Exec, Retirable;
    var y := StepTxn(db, x);
    if y.pc.Ready? {
      TargetStepOk(db, x);
      ReadyMeansExec(db, y);
    } else if y.pc.Failing? {
      FinishOnCourse(db, x);
    }
  }

  lemma ReviseBody(db: Db, x: Txn)
    requires TxnOk(db, x) && x.call.Revise? && (x.pc.AtGet? || x.pc.AtCas? || x.pc.AtReread?)
    ensures Exec(db, x.call, x.id) == ExecRevise(db, x.call)
    ensures !Keyed(x.call) ==> WithOpenKey(db, x.call) == db
    ensures Keyed(x.call) ==> x.hold == Owned
  {
    hide ExecRevise;
    SettledRunsBody(db, x);
  }

  lemma ReviseStepOnCourse(db: Db, x: Txn)
    requires WellFormed(db) && TxnOk(db, x) && OnCourse(db, x) && x.call.Revise? && (x.pc.AtGet? || x.pc.AtCas? || x.pc.AtReread?)
    ensures OnCourse(db, StepTxn(db, x))
  {
    hide WellFormed, Exec, Visible, ViewOf, WithOpenKey, ReviseWith, TxnOk;
    var y := StepTxn(db, x);
    ReviseBody(db, x);
    if y.pc.Ready? {
      StepTxnOk(db, x);
      ReadyMeansExec(db, y);
    }
  }

  lemma ForgetStepOnCourse(db: Db, x: Txn)
    requires WellFormed(db) && TxnOk(db, x) && OnCourse(db, x) && x.call.Forget? && Fits(x)
    ensures OnCourse(db, StepTxn(db, x))
  {
    hide WellFormed;
    var y := StepTxn(db, x);
    if y.pc.Ready? {
      StepTxnOk(db, x);
      ReadyMeansExec(db, y);
    } else if y.pc.Read? {
      ForgottenMeansExec(db, x);
      KeyLeft(db, x);
      ReadPoints(db, x);
    }
  }

  /** No statement takes an undisturbed transaction off the course of its atomic call. */
  lemma StepOnCourse(db: Db, x: Txn)
    requires WellFormed(db) && TxnOk(db, x) && OnCourse(db, x) && Fits(x)
    ensures OnCourse(db, StepTxn(db, x))
  {
    hide WellFormed, TxnOk, OnCourse, StepTxn;
    IsWriteTxn(db, x);
    if x.pc.AtKey? || x.pc.AtWait? || x.pc.AtReplay? {
      KeyStepOnCourse(db, x);
    } else if x.pc.AtTarget? {
      TargetStepOnCourse(db, x);
    } else if x.call.Remember? {
      RememberStepOnCourse(db, x);
    } else if x.call.Revise? {
      ReviseStepOnCourse(db, x);
    } else {
      ForgetStepOnCourse(db, x);
    }
  }

  lemma BeginOnCourse(db: Db, c: Call, id: MemoryId)
    requires IsWrite(c)
    ensures OnCourse(db, NewTxn(c, id))
  {
    hide ExecBody, ExecReplay;
  }

  // ---- the machine with one transaction --------------------------------------

  lemma {:induction false} RunJoin(s: Sys, a: seq<Move>, b: seq<Move>)
    requires ValidRun(s, a) && ValidRun(Run(s, a), b)
    ensures ValidRun(s, a + b) && Run(s, a + b) == Run(Run(s, a), b)
    decreases |a|
  {
    hide Apply, Enabled;
    if a == [] {
      assert a + b == b;
    } else {
      RunJoin(Apply(s, a[0]), a[1..], b);
      assert (a + b)[1..] == a[1..] + b;
    }
  }

  lemma OneMove(s: Sys, m: Move)
    requires Enabled(s, m)
    ensures ValidRun(s, [m]) && Run(s, [m]) == Apply(s, m)
  {
    hide Apply, Enabled;
    assert ValidRun(Apply(s, m), []) && Run(Apply(s, m), []) == Apply(s, m);
    assert [m][1..] == [];
  }

  /** Only t is live, and nothing has been committed since s. */
  ghost predicate Only(s: Sys, e: Sys, t: nat) {
    e.db == s.db && e.done == s.done && e.trail == s.trail && e.earlier == s.earlier && e.live.Keys == {t}
  }

  lemma AdvanceOnly(s: Sys, t: nat)
    requires Sound(s) && s.live.Keys == {t} && Fits(s.live[t]) && OnCourse(s.db, s.live[t])
    ensures Enabled(s, Move.Advance(t))
    ensures var e := Apply(s, Move.Advance(t));
            && Sound(e) && Only(s, e, t) && OnCourse(e.db, e.live[t])
            && e.live[t].call == s.live[t].call && e.live[t].id == s.live[t].id && Left(e.live[t]) < Left(s.live[t])
  {
    hide WellFormed, TxnOk, OnCourse, StepTxn, Fits, TrailOk, Separate, Waits;
    OneOk(s.db, s.live, t);
    StepOnCourse(s.db, s.live[t]);
    StepsDown(s.db, s.live[t]);
    StepKeepsCall(s.db, s.live[t]);
    assert !Blocked(s, t);
    MoveSound(s, Move.Advance(t));
  }

  /** Left alone, a transaction comes to an end, on the course of its atomic call. */
  lemma {:induction false} RunsOn(s: Sys, t: nat) returns (moves: seq<Move>)
    requires Sound(s) && s.live.Keys == {t} && OnCourse(s.db, s.live[t])
    ensures ValidRun(s, moves)
    ensures var e := Run(s, moves);
            && Sound(e) && Only(s, e, t) && OnCourse(e.db, e.live[t]) && !Fits(e.live[t])
            && e.live[t].call == s.live[t].call && e.live[t].id == s.live[t].id
    decreases Left(s.live[t])
  {
    hide Sound, OnCourse, Apply, Enabled, Fits, Left;
    if Fits(s.live[t]) {
      var m := Move.Advance(t);
      AdvanceOnly(s, t);
      OneMove(s, m);
      var rest := RunsOn(Apply(s, m), t);
      RunJoin(s, [m], rest);
      moves := [m] + rest;
    } else {
      moves := [];
    }
  }

  /** It counts its client if it found the memory already there, and commits. */
  lemma Finish(s: Sys, t: nat) returns (moves: seq<Move>)
    requires Sound(s) && s.live.Keys == {t} && OnCourse(s.db, s.live[t]) && !Fits(s.live[t]) && !s.live[t].pc.Failing?
    ensures ValidRun(s, moves)
    ensures var e, x := Run(s, moves), s.live[t];
            && e.live == map[] && e.earlier == s.earlier
            && Exec(s.db, x.call, x.id).db == e.db
            && e.trail == s.trail + [Event(t, x.call, x.id, Exec(s.db, x.call, x.id).outcome)]
  {
    hide WellFormed, TxnOk, TrailOk, Separate, Waits, Exec, Install;
    var x, m := s.live[t], Move.Commit(t);
    EndPoint(s, t);
    if Attests(x) {
      var a := Move.Attest(t);
      assert !Blocked(s, t);
      OneMove(s, a);
      var mid := Apply(s, a);
      assert mid.live[t] == x.(attested := true) && Enabled(mid, m);
      OneMove(mid, m);
      RunJoin(s, [a], [m]);
      moves := [a] + [m];
      NobodyLeft(mid.live, t);
    } else {
      OneMove(s, m);
      moves := [m];
      NobodyLeft(s.live, t);
    }
  }

  lemma NobodyLeft(live: Live, t: nat)
    requires live.Keys == {t}
    ensures live - {t} == map[]
  {
  }

  lemma EndPoint(s: Sys, t: nat)
    requires Sound(s) && t in s.live && !Fits(s.live[t]) && !s.live[t].pc.Failing?
    ensures IsWrite(s.live[t].call) && (s.live[t].pc.Ready? || s.live[t].pc.Read?)
  {
    hide WellFormed;
    assert TxnOk(s.db, s.live[t]);
  }

  lemma BeginAlone(s: Sys, t: nat, c: Call, id: MemoryId)
    requires Sound(s) && s.live == map[] && t !in s.earlier && IsWrite(c) && id !in s.db.birth && id !in Mentions(c)
    ensures var m := Move.Begin(t, c, id);
            && Enabled(s, m)
            && var e := Apply(s, m);
               && Sound(e) && e.db == s.db && e.trail == s.trail && e.live == map[t := NewTxn(c, id)]
               && e.earlier == s.earlier[t := s.done.Keys]
  {
    hide Sound;
    MoveSound(s, Move.Begin(t, c, id));
  }

  /** From any state in which nothing is going on, the machine can run any call that does not raise
      to its commit, with the answer and the effect of the atomic call. */
  lemma CallAlone(s: Sys, t: nat, c: Call, id: MemoryId) returns (moves: seq<Move>)
    requires Sound(s) && s.live == map[] && t !in s.earlier && IsWrite(c) && id !in s.db.birth && id !in Mentions(c)
    requires !Exec(s.db, c, id).outcome.Raised?
    ensures ValidRun(s, moves)
    ensures var e := Run(s, moves);
            && e.live == map[] && e.db == Exec(s.db, c, id).db
            && e.trail == s.trail + [Event(t, c, id, Exec(s.db, c, id).outcome)]
            && e.earlier.Keys == s.earlier.Keys + {t}
  {
    hide Sound, Apply, Enabled, Exec, Fits, OnCourse;
    var begin := Move.Begin(t, c, id);
    BeginAlone(s, t, c, id);
    BeginOnCourse(s.db, c, id);
    OneMove(s, begin);
    var begun := Apply(s, begin);
    var on := RunsOn(begun, t);
    var ended := Run(begun, on);
    OffCourse(ended.db, ended.live[t]);
    var end := Finish(ended, t);
    RunJoin(begun, on, end);
    RunJoin(s, [begin], on + end);
    moves := [begin] + (on + end);
  }

  lemma OffCourse(db: Db, x: Txn)
    requires OnCourse(db, x)
    ensures x.pc.Failing? ==> Exec(db, x.call, x.id).outcome.Raised?
  {
  }

  /** A call that raises comes to its error and is rolled back, and nothing has changed. */
  lemma ErrorAlone(s: Sys, t: nat, c: Call, id: MemoryId) returns (moves: seq<Move>, ended: Sys)
    requires Sound(s) && s.live == map[] && t !in s.earlier && IsWrite(c) && id !in s.db.birth && id !in Mentions(c)
    requires Exec(s.db, c, id).outcome.Raised?
    ensures ValidRun(s, moves) && ended == Run(s, moves)
    ensures t in ended.live && ended.live[t].pc == Failing(Exec(s.db, c, id).outcome.error)
    ensures ended.db == s.db && ended.trail == s.trail
  {
    hide Sound, Apply, Enabled, Exec, Fits, OnCourse;
    var begin := Move.Begin(t, c, id);
    BeginAlone(s, t, c, id);
    BeginOnCourse(s.db, c, id);
    OneMove(s, begin);
    var begun := Apply(s, begin);
    var on := RunsOn(begun, t);
    RunJoin(s, [begin], on);
    moves := [begin] + on;
    ended := Run(begun, on);
    ErrorOnly(ended, t);
  }

  lemma ErrorOnly(s: Sys, t: nat)
    requires Sound(s) && s.live.Keys == {t} && !Fits(s.live[t]) && OnCourse(s.db, s.live[t])
    requires Exec(s.db, s.live[t].call, s.live[t].id).outcome.Raised?
    ensures s.live[t].pc == Failing(Exec(s.db, s.live[t].call, s.live[t].id).outcome.error)
  {
    hide WellFormed, Exec, Install, WithOpenKey;
    var x := s.live[t];
    OneOk(s.db, s.live, t);
    if !x.pc.Failing? {
      EndPoint(s, t);
      EndsWell(s.db, x);
    }
  }

  lemma EndsWell(db: Db, x: Txn)
    requires TxnOk(db, x) && (x.pc.Ready? || x.pc.Read?)
    ensures !x.pc.outcome.Raised?
  {
  }

  // ---- every serial run ------------------------------------------------------

  lemma BackgroundAlone(s: Sys, t: nat, c: Call)
    requires s.live == map[] && t !in s.earlier && (c.Collect? || c.Embed?) && Admissible(s.db, c, 0)
    ensures var m := Move.Background(t, c);
            && Enabled(s, m)
            && var e := Apply(s, m);
               && e.live == map[] && e.db == Exec(s.db, c, 0).db
               && e.trail == s.trail + [Event(t, c, 0, Exec(s.db, c, 0).outcome)]
               && e.earlier.Keys == s.earlier.Keys + {t}
  {
    hide Exec;
  }

  /** The n-th event is the n-th call, of a kind the machine runs, and did not raise; a write was
      issued an id that had not been issued before and that it does not name itself. */
  ghost predicate Runnable(start: Db, log: seq<Event>, n: nat)
    requires n < |log|
  {
    var e := log[n];
    && e.txn == n && !e.outcome.Raised?
    && (IsWrite(e.call) || e.call.Collect? || e.call.Embed?)
    && (IsWrite(e.call) ==> e.id !in Replay(start, log[..n]).birth && e.id !in Mentions(e.call))
    && (!IsWrite(e.call) ==> e.id == 0)
  }

  lemma NextAlone(s: Sys, e: Event) returns (moves: seq<Move>)
    requires Sound(s) && s.live == map[] && e.txn !in s.earlier && Admissible(s.db, e.call, e.id)
    requires IsWrite(e.call) ==> e.id !in s.db.birth && e.id !in Mentions(e.call)
    requires !IsWrite(e.call) ==> (e.call.Collect? || e.call.Embed?) && e.id == 0
    requires Exec(s.db, e.call, e.id).outcome == e.outcome && !e.outcome.Raised?
    ensures ValidRun(s, moves)
    ensures var f := Run(s, moves);
            && f.live == map[] && f.db == Exec(s.db, e.call, e.id).db && f.trail == s.trail + [e]
            && f.earlier.Keys == s.earlier.Keys + {e.txn}
  {
    hide Sound, Apply, Enabled, Exec, Admissible;
    if IsWrite(e.call) {
      moves := CallAlone(s, e.txn, e.call, e.id);
    } else {
      BackgroundAlone(s, e.txn, e.call);
      OneMove(s, Move.Background(e.txn, e.call));
      moves := [Move.Background(e.txn, e.call)];
    }
  }

  lemma NothingRun(start: Db)
    ensures ValidRun(Initial(start), []) && Run(Initial(start), []) == Initial(start)
    ensures Replay(start, []) == start
  {
  }

  /** Every serial run of remembers, revises, forgets, collections and embeddings is a run of the
      machine: the same store, the same calls with the same answers, committed in that order. */
  lemma {:induction false} EverySerialRunHappens(start: Db, log: seq<Event>) returns (moves: seq<Move>)
    requires WellFormed(start) && Faithful(start, log) && forall n: nat | n < |log| :: Runnable(start, log, n)
    ensures ValidRun(Initial(start), moves)
    ensures var e := Run(Initial(start), moves);
            && e.db == Replay(start, log) && e.trail == log && e.live == map[]
            && forall t | t in e.earlier :: t < |log|
  {
    hide WellFormed, Apply, Enabled, Exec, Admissible, Sound, Replay, Faithful, Mentions;
    if log == [] {
      moves := [];
      NothingRun(start);
    } else {
      FaithfulAt(start, log, |log| - 1);
      FaithfulPrefix(start, log, |log| - 1);
      var init, last := log[..|log| - 1], log[|log| - 1];
      forall n: nat | n < |init|
        ensures Runnable(start, init, n)
      {
        assert Runnable(start, log, n) && init[..n] == log[..n];
      }
      var before := EverySerialRunHappens(start, init);
      var s := Run(Initial(start), before);
      EveryRunIsSound(start, before);
      assert Runnable(start, log, |init|) && log[..|init|] == init && log[..|init| + 1] == log;
      var next := NextAlone(s, last);
      RunJoin(Initial(start), before, next);
      moves := before + next;
      assert log == init + [last];
    }
  }
}
