/** The invariant behind serialisability, kept by every move of the machine. */
module Interleaving {
  import opened Basics
  import opened Schema
  import opened Calls
  import opened Invariants
  import opened History
  import opened ReadCommitted
  import opened Transactions
  import opened Serializable

  // ---- the books -------------------------------------------------------------

  /** Changing one live transaction that has answered nothing and answers nothing. */
  lemma UpdateBooks(live: Live, done: map<nat, Event>, log: seq<Event>, residue: map<IdemKey, IdemRow>, t: nat, x: Txn)
    requires CountsOk(live, done, log) && EventsOk(live, done, log) && QuietOk(live, log) && ResidueOk(live, residue)
    requires t !in done && (t in live ==> !live[t].pc.Read?) && !x.pc.Read?
    ensures var n := live[t := x];
            CountsOk(n, done, log) && EventsOk(n, done, log) && QuietOk(n, log) && ResidueOk(n, residue)
  {
    var n := live[t := x];
    assert forall u :: Answering(n, done, u) == Answering(live, done, u);
    assert Count(log, t) == 0;
    CountZero(log, t);
    forall e | e in log
      ensures EventOk(n, done, e)
    {
      assert EventOk(live, done, e) && e.txn != t;
    }
    assert forall u, k :: LeavesKey(n, u, k) <==> LeavesKey(live, u, k);
  }

  /** Writing one answer into the order. */
  lemma AnswerBooks(live: Live, done: map<nat, Event>, log: seq<Event>, residue: map<IdemKey, IdemRow>, t: nat, y: Txn)
    requires CountsOk(live, done, log) && EventsOk(live, done, log) && QuietOk(live, log) && ResidueOk(live, residue)
    requires t !in done && t in live && !live[t].pc.Read? && y.pc.Read?
    requires Untouched(y.call, residue.Keys) && ConflictIsNewer(EventOf(0, y, y.pc.outcome))
    ensures var n, l := live[t := y], log + [Event(t, y.call, y.id, y.pc.outcome)];
            && CountsOk(n, done, l) && EventsOk(n, done, l) && QuietOk(n, l)
            && ResidueOk(n, if LeavesOpenKey(y) then residue[KeyFor(y.call) := OpenRow(y.call)] else residue)
  {
    var n := live[t := y];
    var e := Event(t, y.call, y.id, y.pc.outcome);
    forall u
      ensures Count(log + [e], u) == if Answering(n, done, u) then 1 else 0
    {
      AppendCount(log, e, u);
      assert u != t ==> Answering(n, done, u) == Answering(live, done, u);
    }
    assert Count(log, t) == 0;
    CountZero(log, t);
    forall f | f in log + [e]
      ensures EventOk(n, done, f)
    {
      if f != e {
        assert f in log && EventOk(live, done, f) && f.txn != t;
      }
    }
    assert forall u, k | u != t :: LeavesKey(n, u, k) <==> LeavesKey(live, u, k);
    forall u, k | LeavesKey(n, u, k)
      ensures QuietAfter(log + [e], u, k)
    {
      if u == t {
        assert (log + [e])[|log|] == e;
      } else {
        assert LeavesKey(live, u, k);
        AppendQuiet(log, e, u, k);
      }
    }
    AnswerResidue(live, residue, t, y);
  }

  lemma AnswerResidue(live: Live, residue: map<IdemKey, IdemRow>, t: nat, y: Txn)
    requires ResidueOk(live, residue) && t in live && !live[t].pc.Read? && y.pc.Read?
    requires Untouched(y.call, residue.Keys)
    ensures ResidueOk(live[t := y], if LeavesOpenKey(y) then residue[KeyFor(y.call) := OpenRow(y.call)] else residue)
  {
    var n := live[t := y];
    var r := if LeavesOpenKey(y) then residue[KeyFor(y.call) := OpenRow(y.call)] else residue;
    forall k | k in r
      ensures exists u :: LeavesKey(n, u, k)
    {
      if k in residue {
        var u :| LeavesKey(live, u, k);
        assert LeavesKey(n, u, k);
      } else {
        assert LeavesKey(n, t, k);
      }
    }
    forall u, k | LeavesKey(n, u, k)
      ensures k in r && r[k] == OpenRow(n[u].call)
    {
      if u != t {
        assert LeavesKey(live, u, k);
        assert k in residue && !Touches(y.call, k);
      }
    }
  }

  lemma AppendRealTime(live: Live, done: map<nat, Event>, earlier: map<nat, set<nat>>, log: seq<Event>, e: Event)
    requires RealTime(log, earlier) && CountsOk(live, done, log) && NamesOk(live, done, earlier) && e.txn in earlier
    ensures RealTime(log + [e], earlier)
  {
    forall u | u in earlier[e.txn]
      ensures Count(log, u) >= 1
    {
      assert earlier[e.txn] <= done.Keys;
      assert Answering(live, done, u);
    }
    RealTimeAppend(log, earlier, e);
  }

  // ---- Begin -----------------------------------------------------------------

  lemma BeginSound(s: Sys, m: Move)
    requires Sound(s) && m.Begin? && Enabled(s, m)
    ensures Sound(Apply(s, m))
  {
    hide WellFormed, TrailOk;
    BeginTxns(s, m, NewTxn(m.call, m.id));
  }

  lemma BeginOk(start: Db, s: Sys, m: Move)
    requires Inv(start, s) && m.Begin? && Enabled(s, m) && HasRead(s.db, m.call)
    ensures Inv(start, Apply(s, m))
  {
    hide WellFormed, LogOk, Sound, TxnOk, CountsOk, EventsOk, QuietOk, ResidueOk, RealTime;
    BeginSound(s, m);
    NotYetBegun(s, m.t);
    var x := NewTxn(m.call, m.id);
    UpdateBooks(s.live, s.done, s.log, s.residue, m.t, x);
    RealTimeExtend(s.log, s.earlier, s.earlier[m.t := s.done.Keys]);
  }

  lemma NotYetBegun(s: Sys, t: nat)
    requires Sound(s) && t !in s.earlier
    ensures t !in s.live && t !in s.done
  {
  }

  lemma BeginTxns(s: Sys, m: Move, x: Txn)
    requires TxnsOk(s.db, s.live) && Separate(s.live) && m.Begin? && Enabled(s, m) && m.t !in s.live
    requires x == NewTxn(m.call, m.id)
    ensures TxnsOk(s.db, s.live[m.t := x]) && Separate(s.live[m.t := x])
  {
    var n := s.live[m.t := x];
    assert TxnOk(s.db, x);
    forall t, u | t in n && u in n && t != u
      ensures Apart(n[t], n[u])
    {
      assert t in s.live && u in s.live ==> Apart(s.live[t], s.live[u]);
    }
  }

  // ---- Advance ---------------------------------------------------------------

  /** What one statement can add to a transaction's holdings, it adds only when nobody else has it. */
  lemma StepApart(s: Sys, t: nat, u: nat)
    requires t in s.live && u in s.live && t != u && Fits(s.live[t]) && !Blocked(s, t)
    requires TxnOk(s.db, s.live[t]) && Apart(s.live[t], s.live[u]) && Apart(s.live[u], s.live[t])
    ensures Apart(StepTxn(s.db, s.live[t]), s.live[u]) && Apart(s.live[u], StepTxn(s.db, s.live[t]))
  {
    var x, z := s.live[t], s.live[u];
    assert !Waits(s.db, x, z);
    if x.pc.AtTarget? {
      var y := StepTxn(s.db, x);
      if y.rows != x.rows {
        assert WantedRow(x) == Some(Order(x.call)[x.pc.i]);
        assert Order(x.call)[x.pc.i] !in z.rows;
      }
    }
  }

  lemma AdvanceSeparate(s: Sys, t: nat)
    requires TxnsOk(s.db, s.live) && Separate(s.live) && t in s.live && Fits(s.live[t]) && !Blocked(s, t)
    ensures Separate(s.live[t := StepTxn(s.db, s.live[t])])
  {
    var n := s.live[t := StepTxn(s.db, s.live[t])];
    forall a, b | a in n && b in n && a != b
      ensures Apart(n[a], n[b])
    {
      assert Apart(s.live[a], s.live[b]) && Apart(s.live[b], s.live[a]);
      if a == t {
        StepApart(s, t, b);
      } else if b == t {
        StepApart(s, t, a);
      }
    }
  }

  lemma AdvanceTxns(db: Db, live: Live, t: nat)
    requires TxnsOk(db, live) && WellFormed(db) && t in live && Fits(live[t])
    ensures TxnsOk(db, live[t := StepTxn(db, live[t])])
    ensures StepTxn(db, live[t]).call == live[t].call && StepTxn(db, live[t]).id == live[t].id
  {
    StepTxnOk(db, live[t]);
  }

  lemma KeyApart(live: Live, residue: map<IdemKey, IdemRow>, t: nat, k: IdemKey)
    requires Separate(live) && ResidueOk(live, residue) && t in live && Keyed(live[t].call)
    requires live[t].hold == Owned && !live[t].pc.Read? && k in residue
    ensures KeyFor(live[t].call) != k
  {
    var u :| LeavesKey(live, u, k);
    assert u != t;
    assert Apart(live[t], live[u]);
  }

  /** The call of a transaction about to answer or commit touches no key left open by another. */
  lemma CallUntouched(db: Db, live: Live, residue: map<IdemKey, IdemRow>, t: nat)
    requires Separate(live) && ResidueOk(live, residue) && t in live && !live[t].pc.Read? && IsWrite(live[t].call)
    requires forall k | k in residue :: k !in db.idem
    requires live[t].hold != NotHeld || !Keyed(live[t].call)
    requires live[t].hold == Shared && Keyed(live[t].call) ==> KeyFor(live[t].call) in db.idem
    ensures Untouched(live[t].call, residue.Keys)
  {
    var x := live[t];
    forall k | k in residue
      ensures !Touches(x.call, k)
    {
      if Keyed(x.call) && x.hold == Owned {
        KeyApart(live, residue, t, k);
      }
    }
  }

  lemma ReadHold(db: Db, x: Txn)
    requires TxnOk(db, x) && Fits(x) && StepTxn(db, x).pc.Read?
    ensures IsWrite(x.call) && (x.hold != NotHeld || !Keyed(x.call)) && (x.hold != NotHeld ==> Keyed(x.call))
    ensures x.hold == Shared ==> KeyFor(x.call) in db.idem
    ensures x.hold == Owned ==> KeyFor(x.call) !in db.idem
    ensures StepTxn(db, x).hold == x.hold && !x.pc.Read?
  {
  }

  /** A statement that settles the answer: the atomic call goes into the serial order here. */
  lemma ReadLogOk(start: Db, s: Sys, t: nat)
    requires Inv(start, s) && t in s.live && Fits(s.live[t]) && StepTxn(s.db, s.live[t]).pc.Read?
    ensures var n := Answered(s, t, StepTxn(s.db, s.live[t])); LogOk(start, n.db, n.log, n.residue)
    ensures Untouched(s.live[t].call, s.residue.Keys)
  {
    hide WellFormed, TxnOk, StepTxn, Honest, TrailOk;
    var x := s.live[t];
    var y := StepTxn(s.db, x);
    assert TxnOk(s.db, x) && Honest(s.db, x);
    StepTxnOk(s.db, x);
    ReadHold(s.db, x);
    ReadMeansExec(s.db, x);
    CallUntouched(s.db, s.live, s.residue, t);
    AppendLog(start, s.db, s.log, s.residue, Event(t, x.call, x.id, y.pc.outcome));
    if LeavesOpenKey(y) {
      SetApart(start, s.db, x.call, s.log + [Event(t, x.call, x.id, y.pc.outcome)], s.residue);
    }
  }

  lemma AnswerOk(db: Db, live: Live, t: nat)
    requires TxnsOk(db, live) && t in live && live[t].pc.Read?
    ensures ReadOk(live[t], live[t].pc.outcome)
  {
    assert TxnOk(db, live[t]);
  }

  lemma NewerConflict(db: Db, x: Txn)
    requires TxnOk(db, x) && Honest(db, x) && x.pc.Read?
    ensures ConflictIsNewer(EventOf(0, x, x.pc.outcome))
  {
  }

  lemma AdvanceSound(s: Sys, m: Move)
    requires Sound(s) && m.Advance? && Enabled(s, m)
    ensures Sound(Apply(s, m))
  {
    hide WellFormed, TxnOk, Apart, TrailOk, StepTxn;
    assert Fits(s.live[m.t]);
    AdvanceTxns(s.db, s.live, m.t);
    AdvanceSeparate(s, m.t);
  }

  lemma AdvanceHonest(db: Db, live: Live, t: nat)
    requires TxnsOk(db, live) && AllHonest(db, live) && t in live && Fits(live[t])
    ensures AllHonest(db, live[t := StepTxn(db, live[t])])
  {
    hide TxnOk, StepTxn, Honest;
    HonestStep(db, live[t]);
  }

  lemma AdvanceOk(start: Db, s: Sys, m: Move)
    requires Inv(start, s) && m.Advance? && Enabled(s, m)
    ensures Inv(start, Apply(s, m))
  {
    hide WellFormed, TxnOk, Apart, LogOk, CountsOk, EventsOk, QuietOk, ResidueOk, RealTime, StepTxn, Honest, TrailOk;
    var x := s.live[m.t];
    var y := StepTxn(s.db, x);
    assert Fits(x);
    AdvanceSound(s, m);
    AdvanceTxns(s.db, s.live, m.t);
    AdvanceHonest(s.db, s.live, m.t);
    if y.pc.Read? {
      ReadLogOk(start, s, m.t);
      OneOk(s.db, s.live[m.t := y], m.t);
      NewerConflict(s.db, y);
      AnswerOk(s.db, s.live[m.t := y], m.t);
      AnswerBooks(s.live, s.done, s.log, s.residue, m.t, y);
      AppendRealTime(s.live, s.done, s.earlier, s.log, Event(m.t, y.call, y.id, y.pc.outcome));
    } else {
      UpdateBooks(s.live, s.done, s.log, s.residue, m.t, y);
    }
  }

  // ---- counting a client -----------------------------------------------------

  lemma AttestedSame(db: Db, x: Txn, z: Txn)
    ensures TxnOk(db, x) ==> TxnOk(db, x.(attested := true))
    ensures Honest(db, x) ==> Honest(db, x.(attested := true))
    ensures Apart(x, z) ==> Apart(x.(attested := true), z)
    ensures Apart(z, x) ==> Apart(z, x.(attested := true))
  {
  }

  lemma AttestSound(s: Sys, m: Move)
    requires Sound(s) && m.Attest? && Enabled(s, m)
    ensures Sound(Apply(s, m))
  {
    hide WellFormed, TxnOk, Apart, TrailOk;
    var n := s.live[m.t := s.live[m.t].(attested := true)];
    AttestedSame(s.db, s.live[m.t], s.live[m.t]);
    forall a, b | a in n && b in n && a != b
      ensures Apart(n[a], n[b])
    {
      assert Apart(s.live[a], s.live[b]);
      AttestedSame(s.db, s.live[m.t], s.live[a]);
      AttestedSame(s.db, s.live[m.t], s.live[b]);
    }
  }

  lemma AttestBooks(live: Live, done: map<nat, Event>, log: seq<Event>, residue: map<IdemKey, IdemRow>, t: nat)
    requires CountsOk(live, done, log) && EventsOk(live, done, log) && QuietOk(live, log) && ResidueOk(live, residue)
    requires t in live
    ensures var n := live[t := live[t].(attested := true)];
            CountsOk(n, done, log) && EventsOk(n, done, log) && QuietOk(n, log) && ResidueOk(n, residue)
  {
    var n := live[t := live[t].(attested := true)];
    assert forall u :: Answering(n, done, u) == Answering(live, done, u);
    forall e | e in log
      ensures EventOk(n, done, e)
    {
      assert EventOk(live, done, e);
    }
    assert forall u, k :: LeavesKey(n, u, k) <==> LeavesKey(live, u, k);
  }

  lemma AttestOk(start: Db, s: Sys, m: Move)
    requires Inv(start, s) && m.Attest? && Enabled(s, m)
    ensures Inv(start, Apply(s, m))
  {
    hide WellFormed, LogOk, CountsOk, EventsOk, QuietOk, ResidueOk, RealTime, Sound, Honest;
    AttestSound(s, m);
    AttestedSame(s.db, s.live[m.t], s.live[m.t]);
    AttestBooks(s.live, s.done, s.log, s.residue, m.t);
  }

  // ---- COMMIT ----------------------------------------------------------------

  /** Another transaction's commit, seen from everybody left. */
  lemma OthersStable(a: Db, b: Db, live: Live, t: nat, f: Footprint)
    requires TxnsOk(a, live) && Within(a, b, f)
    requires forall u | u in live && u != t :: Clear(live[u], f)
    ensures TxnsOk(b, live - {t})
  {
    forall u | u in live - {t}
      ensures TxnOk(b, live[u])
    {
      TxnStable(a, b, live[u], f);
    }
  }

  lemma OthersHonest(a: Db, b: Db, live: Live, t: nat, f: Footprint)
    requires TxnsOk(a, live) && AllHonest(a, live) && Within(a, b, f)
    requires forall u | u in live && u != t :: Clear(live[u], f)
    ensures AllHonest(b, live - {t})
  {
    hide TxnOk, Honest, Within, Clear;
    forall u | u in live - {t}
      ensures Honest(b, live[u])
    {
      OneOk(a, live, u);
      HonestStable(a, b, live[u], f);
    }
  }

  lemma EndSeparate(live: Live, t: nat)
    requires Separate(live)
    ensures Separate(live - {t})
  {
    forall a, b | a in live - {t} && b in live - {t} && a != b
      ensures Apart((live - {t})[a], (live - {t})[b])
    {
      assert Apart(live[a], live[b]);
    }
  }

  /** A transaction that answered when it commits enters the order and the books together. */
  lemma CommitBooks(live: Live, done: map<nat, Event>, log: seq<Event>, residue: map<IdemKey, IdemRow>, t: nat, x: Txn, o: Outcome)
    requires CountsOk(live, done, log) && EventsOk(live, done, log) && QuietOk(live, log) && ResidueOk(live, residue)
    requires t !in done && (t in live ==> !live[t].pc.Read?)
    requires Untouched(x.call, residue.Keys) && !o.Conflicted?
    ensures var n, d, l := live - {t}, done[t := EventOf(t, x, o)], log + [EventOf(t, x, o)];
            CountsOk(n, d, l) && EventsOk(n, d, l) && QuietOk(n, l) && ResidueOk(n, residue)
  {
    var e := EventOf(t, x, o);
    var n, d := live - {t}, done[t := e];
    forall u
      ensures Count(log + [e], u) == if Answering(n, d, u) then 1 else 0
    {
      AppendCount(log, e, u);
      assert u != t ==> Answering(n, d, u) == Answering(live, done, u);
    }
    assert Count(log, t) == 0;
    CountZero(log, t);
    forall f | f in log + [e]
      ensures EventOk(n, d, f)
    {
      if f != e {
        assert f in log && EventOk(live, done, f) && f.txn != t;
      }
    }
    assert forall u, k :: LeavesKey(n, u, k) <==> LeavesKey(live, u, k);
    forall u, k | LeavesKey(n, u, k)
      ensures QuietAfter(log + [e], u, k)
    {
      assert LeavesKey(live, u, k) && k in residue;
      AppendQuiet(log, e, u, k);
    }
  }

  lemma ReadyFacts(db: Db, x: Txn)
    requires TxnOk(db, x) && x.pc.Ready?
    ensures IsWrite(x.call) && KeySettled(x) && (x.call.Remember? ==> x.claimed)
    ensures x.hold != NotHeld || !Keyed(x.call)
    ensures !(x.hold == Shared && Keyed(x.call)) && !x.pc.outcome.Conflicted?
  {
  }

  lemma OneOk(db: Db, live: Live, t: nat)
    requires TxnsOk(db, live) && t in live
    ensures TxnOk(db, live[t])
  {
  }

  lemma CommitReadyWellFormed(db: Db, x: Txn)
    requires WellFormed(db) && TxnOk(db, x) && x.pc.Ready?
    ensures IsWrite(x.call) && WellFormed(Install(db, x))
  {
    hide WellFormed, TxnOk, Install, Exec;
    ReadyFacts(db, x);
    ReadyMeansExec(db, x);
    StepWellFormed(db, x.call, x.id);
  }

  lemma CommitReadyLog(start: Db, s: Sys, t: nat)
    requires Inv(start, s) && t in s.live && s.live[t].pc.Ready?
    ensures var x := s.live[t];
            && IsWrite(x.call) && !x.pc.outcome.Conflicted? && Untouched(x.call, s.residue.Keys)
            && LogOk(start, Install(s.db, x), s.log + [EventOf(t, x, x.pc.outcome)], s.residue)
  {
    hide WellFormed, TxnOk, LogOk, CountsOk, EventsOk, QuietOk, RealTime, Install, Exec, KeySettled, Separate, ResidueOk, TrailOk;
    var x := s.live[t];
    OneOk(s.db, s.live, t);
    ReadyFacts(s.db, x);
    ReadyMeansExec(s.db, x);
    ResidueFresh(start, s.db, s.log, s.residue);
    CallUntouched(s.db, s.live, s.residue, t);
    AppendLog(start, s.db, s.log, s.residue, EventOf(t, x, x.pc.outcome));
  }

  lemma CommitReadyIs(s: Sys, m: Move)
    requires m.Commit? && Enabled(s, m) && s.live[m.t].pc.Ready?
    ensures m.t in s.live && IsWrite(s.live[m.t].call)
    ensures var x := s.live[m.t];
            var e := EventOf(m.t, x, x.pc.outcome);
            Apply(s, m) == s.(db := Install(s.db, x), live := s.live - {m.t}, done := s.done[m.t := e],
                              trail := s.trail + [e], log := s.log + [e])
  {
  }

  lemma {:induction false} TrailAppend(done: map<nat, Event>, trail: seq<Event>, e: Event)
    requires TrailOk(done, trail) && e.txn !in done
    ensures TrailOk(done[e.txn := e], trail + [e])
  {
    forall u
      ensures Count(trail + [e], u) == if u in done[e.txn := e] then 1 else 0
    {
      AppendCount(trail, e, u);
    }
    forall f | f in trail + [e]
      ensures f.txn in done[e.txn := e] && done[e.txn := e][f.txn] == f
    {
      assert f in trail || f == e;
    }
  }

  lemma NamesEnd(live: Live, done: map<nat, Event>, earlier: map<nat, set<nat>>, t: nat, e: Event)
    requires NamesOk(live, done, earlier) && t in live
    ensures t !in done && NamesOk(live - {t}, done[t := e], earlier) && NamesOk(live - {t}, done, earlier)
  {
    assert (live - {t}).Keys == live.Keys - {t};
  }

  lemma CommitReadySound(s: Sys, m: Move)
    requires Sound(s) && m.Commit? && Enabled(s, m) && s.live[m.t].pc.Ready?
    ensures Sound(Apply(s, m))
  {
    hide WellFormed, TrailOk, Install, Separate, TxnsOk, Apply, Enabled, NamesOk;
    CommitReadyIs(s, m);
    var x := s.live[m.t];
    OneOk(s.db, s.live, m.t);
    CommitReadyWellFormed(s.db, x);
    CommitReadyOthers(s.db, s.live, m.t);
    EndSeparate(s.live, m.t);
    NamesEnd(s.live, s.done, s.earlier, m.t, EventOf(m.t, x, x.pc.outcome));
    TrailAppend(s.done, s.trail, EventOf(m.t, x, x.pc.outcome));
  }

  lemma CommitReadyHonest(db: Db, live: Live, t: nat)
    requires WellFormed(db) && TxnsOk(db, live) && AllHonest(db, live) && Separate(live) && t in live && live[t].pc.Ready?
    ensures IsWrite(live[t].call) && AllHonest(Install(db, live[t]), live - {t})
  {
    hide WellFormed, Install, Within, PointOk, Honest;
    var x := live[t];
    assert TxnOk(db, x);
    ReadyFacts(db, x);
    InstallWithin(db, x);
    forall u | u in live && u != t
      ensures Clear(live[u], FootprintOf(x))
    {
      assert Apart(x, live[u]);
      ApartClear(x, live[u]);
    }
    OthersHonest(db, Install(db, x), live, t, FootprintOf(x));
  }

  lemma CommitReadyOk(start: Db, s: Sys, m: Move)
    requires Inv(start, s) && m.Commit? && Enabled(s, m) && s.live[m.t].pc.Ready?
    ensures Inv(start, Apply(s, m))
  {
    hide WellFormed, LogOk, CountsOk, EventsOk, QuietOk, RealTime, Install, Separate, ResidueOk, TxnsOk, TrailOk, AllHonest, Apply, Enabled;
    CommitReadySound(s, m);
    CommitReadyIs(s, m);
    var x := s.live[m.t];
    CommitReadyHonest(s.db, s.live, m.t);
    CommitReadyLog(start, s, m.t);
    CommitBooks(s.live, s.done, s.log, s.residue, m.t, x, x.pc.outcome);
    AppendRealTime(s.live, s.done, s.earlier, s.log, EventOf(m.t, x, x.pc.outcome));
  }

  lemma ResidueFresh(start: Db, db: Db, log: seq<Event>, residue: map<IdemKey, IdemRow>)
    requires LogOk(start, db, log, residue)
    ensures forall k | k in residue :: k !in db.idem
  {
  }

  lemma CommitReadyOthers(db: Db, live: Live, t: nat)
    requires WellFormed(db) && TxnsOk(db, live) && Separate(live) && t in live && live[t].pc.Ready?
    ensures TxnsOk(Install(db, live[t]), live - {t})
  {
    hide WellFormed, Install, Within, PointOk;
    var x := live[t];
    assert TxnOk(db, x);
    ReadyFacts(db, x);
    InstallWithin(db, x);
    forall u | u in live && u != t
      ensures Clear(live[u], FootprintOf(x))
    {
      assert Apart(x, live[u]);
      ApartClear(x, live[u]);
    }
    OthersStable(db, Install(db, x), live, t, FootprintOf(x));
  }

  // ---- COMMIT of an answer already in the order ------------------------------

  lemma CommitReadBooks(live: Live, done: map<nat, Event>, log: seq<Event>, residue: map<IdemKey, IdemRow>, t: nat)
    requires CountsOk(live, done, log) && EventsOk(live, done, log) && QuietOk(live, log) && ResidueOk(live, residue)
    requires t !in done && t in live && live[t].pc.Read? && Separate(live)
    ensures var n, d := live - {t}, done[t := EventOf(t, live[t], live[t].pc.outcome)];
            && CountsOk(n, d, log) && EventsOk(n, d, log) && QuietOk(n, log)
            && ResidueOk(n, if LeavesOpenKey(live[t]) then residue - {KeyFor(live[t].call)} else residue)
  {
    hide CountsOk, EventsOk, QuietOk, ResidueOk;
    CommitReadCounts(live, done, log, t);
    CommitReadEvents(live, done, log, t);
    EndQuiet(live, log, t);
    EndResidue(live, residue, t);
  }

  lemma CommitReadCounts(live: Live, done: map<nat, Event>, log: seq<Event>, t: nat)
    requires CountsOk(live, done, log) && t in live && live[t].pc.Read?
    ensures CountsOk(live - {t}, done[t := EventOf(t, live[t], live[t].pc.outcome)], log)
  {
    var n, d := live - {t}, done[t := EventOf(t, live[t], live[t].pc.outcome)];
    assert forall u :: Answering(n, d, u) == Answering(live, done, u);
  }

  lemma CommitReadEvents(live: Live, done: map<nat, Event>, log: seq<Event>, t: nat)
    requires EventsOk(live, done, log) && t !in done && t in live && live[t].pc.Read?
    ensures EventsOk(live - {t}, done[t := EventOf(t, live[t], live[t].pc.outcome)], log)
  {
    forall f | f in log
      ensures EventOk(live - {t}, done[t := EventOf(t, live[t], live[t].pc.outcome)], f)
    {
      assert EventOk(live, done, f);
    }
  }

  lemma EndQuiet(live: Live, log: seq<Event>, t: nat)
    requires QuietOk(live, log)
    ensures QuietOk(live - {t}, log)
  {
    assert forall u, k :: LeavesKey(live - {t}, u, k) ==> LeavesKey(live, u, k);
  }

  /** The keys left open by the others, when one transaction ends. */
  lemma EndResidue(live: Live, residue: map<IdemKey, IdemRow>, t: nat)
    requires ResidueOk(live, residue) && t in live && live[t].pc.Read? && Separate(live)
    ensures ResidueOk(live - {t}, if LeavesOpenKey(live[t]) then residue - {KeyFor(live[t].call)} else residue)
  {
    hide LeavesKey;
    EndResidueKnown(live, residue, t);
    EndResidueKept(live, residue, t);
    assert ResidueOk(live - {t}, ResidueAfter(residue, live[t]));
  }

  lemma EndResidueKnown(live: Live, residue: map<IdemKey, IdemRow>, t: nat)
    requires ResidueOk(live, residue) && t in live
    ensures forall k | k in ResidueAfter(residue, live[t]) :: exists u :: LeavesKey(live - {t}, u, k)
  {
    forall k | k in ResidueAfter(residue, live[t])
      ensures exists u :: LeavesKey(live - {t}, u, k)
    {
      var u :| LeavesKey(live, u, k);
      assert LeavesKey(live - {t}, u, k);
    }
  }

  lemma EndResidueKept(live: Live, residue: map<IdemKey, IdemRow>, t: nat)
    requires ResidueOk(live, residue) && t in live && Separate(live)
    ensures var r := ResidueAfter(residue, live[t]);
            forall u, k | LeavesKey(live - {t}, u, k) ::
              u in live - {t} && (live[u].call.Remember? || live[u].call.Revise?) && k in r && r[k] == OpenRow((live - {t})[u].call)
  {
    var r := ResidueAfter(residue, live[t]);
    forall u, k | LeavesKey(live - {t}, u, k)
      ensures u in live - {t} && (live[u].call.Remember? || live[u].call.Revise?) && k in r && r[k] == OpenRow((live - {t})[u].call)
    {
      assert LeavesKey(live, u, k) && Apart(live[t], live[u]);
    }
  }

  function ReadFootprint(x: Txn): Footprint {
    Footprint({}, {}, if LeavesOpenKey(x) then {KeyFor(x.call)} else {}, {}, {})
  }

  function AfterRead(db: Db, x: Txn): Db
    requires IsWrite(x.call)
  {
    if LeavesOpenKey(x) then WithOpenKey(db, x.call) else db
  }

  lemma ReadWithin(db: Db, x: Txn)
    requires TxnOk(db, x) && x.pc.Read?
    ensures Within(db, AfterRead(db, x), ReadFootprint(x))
  {
    hide TxnOk;
    if LeavesOpenKey(x) {
      OpenGranted(db, x);
      OpenWithin(db, x.call);
    } else {
      UnchangedWithin(db, ReadFootprint(x));
    }
  }

  lemma OpenWithin(db: Db, c: Call)
    requires (c.Remember? || c.Revise?) && Keyed(c) && KeyFor(c) !in db.idem
    ensures Within(db, WithOpenKey(db, c), Footprint({}, {}, {KeyFor(c)}, {}, {}))
  {
  }

  lemma UnchangedWithin(db: Db, f: Footprint)
    ensures Within(db, db, f)
  {
  }

  lemma CommitReadClear(db: Db, live: Live, t: nat)
    requires TxnsOk(db, live) && Separate(live) && t in live && live[t].pc.Read? && IsWrite(live[t].call)
    ensures Within(db, AfterRead(db, live[t]), ReadFootprint(live[t]))
    ensures forall u | u in live && u != t :: Clear(live[u], ReadFootprint(live[t]))
  {
    hide Within, PointOk;
    var x := live[t];
    assert TxnOk(db, x);
    ReadWithin(db, x);
    forall u | u in live && u != t
      ensures Clear(live[u], ReadFootprint(x))
    {
      assert Apart(x, live[u]) && TxnOk(db, live[u]);
    }
  }

  lemma OpenGranted(db: Db, x: Txn)
    requires TxnOk(db, x) && LeavesOpenKey(x)
    ensures (x.call.Remember? || x.call.Revise?) && Granted(db, x.call) && KeyFor(x.call) !in db.idem
  {
  }

  lemma AfterReadWellFormed(db: Db, x: Txn)
    requires WellFormed(db) && TxnOk(db, x) && x.pc.Read?
    ensures WellFormed(AfterRead(db, x))
  {
    hide TxnOk, DedupOk, RevisionsOk, MemoriesOk, JobsOk;
    if LeavesOpenKey(x) {
      OpenGranted(db, x);
      OpenKeyOk(db, x.call);
    }
  }

  lemma CommitReadLog(start: Db, s: Sys, t: nat)
    requires LogOk(start, s.db, s.log, s.residue) && ResidueOk(s.live, s.residue)
    requires t in s.live && TxnOk(s.db, s.live[t]) && s.live[t].pc.Read?
    ensures LogOk(start, AfterRead(s.db, s.live[t]), s.log, ResidueAfter(s.residue, s.live[t]))
  {
    hide TxnOk, LogOk;
    var x := s.live[t];
    if LeavesOpenKey(x) {
      OpenGranted(s.db, x);
      assert LeavesKey(s.live, t, KeyFor(x.call));
      PutBack(start, s.db, x.call, s.log, s.residue);
    }
  }

  function ResidueAfter(residue: map<IdemKey, IdemRow>, x: Txn): map<IdemKey, IdemRow> {
    if LeavesOpenKey(x) then residue - {KeyFor(x.call)} else residue
  }

  lemma CommitReadIs(s: Sys, m: Move)
    requires m.Commit? && Enabled(s, m) && s.live[m.t].pc.Read?
    ensures m.t in s.live
    ensures var x := s.live[m.t];
            var e := EventOf(m.t, x, x.pc.outcome);
            Apply(s, m) == s.(db := AfterRead(s.db, x), live := s.live - {m.t}, done := s.done[m.t := e],
                              trail := s.trail + [e], residue := ResidueAfter(s.residue, x))
    ensures IsWrite(s.live[m.t].call)
  {
  }

  lemma CommitReadSound(s: Sys, m: Move)
    requires Sound(s) && m.Commit? && Enabled(s, m) && s.live[m.t].pc.Read?
    ensures Sound(Apply(s, m))
  {
    hide WellFormed, TxnOk, TrailOk, NamesOk, Separate, TxnsOk, AfterRead, Apply, Enabled, Within, Clear;
    CommitReadIs(s, m);
    var x := s.live[m.t];
    OneOk(s.db, s.live, m.t);
    CommitReadClear(s.db, s.live, m.t);
    OthersStable(s.db, AfterRead(s.db, x), s.live, m.t, ReadFootprint(x));
    EndSeparate(s.live, m.t);
    AfterReadWellFormed(s.db, x);
    NamesEnd(s.live, s.done, s.earlier, m.t, EventOf(m.t, x, x.pc.outcome));
    TrailAppend(s.done, s.trail, EventOf(m.t, x, x.pc.outcome));
  }

  lemma CommitReadOk(start: Db, s: Sys, m: Move)
    requires Inv(start, s) && m.Commit? && Enabled(s, m) && s.live[m.t].pc.Read?
    ensures Inv(start, Apply(s, m))
  {
    hide WellFormed, TxnOk, LogOk, CountsOk, EventsOk, QuietOk, RealTime, Separate, TxnsOk, ResidueOk, AfterRead, Apply, Enabled,
      TrailOk, AllHonest, Within, Clear;
    CommitReadSound(s, m);
    CommitReadIs(s, m);
    OneOk(s.db, s.live, m.t);
    CommitReadClear(s.db, s.live, m.t);
    OthersHonest(s.db, AfterRead(s.db, s.live[m.t]), s.live, m.t, ReadFootprint(s.live[m.t]));
    CommitReadBooks(s.live, s.done, s.log, s.residue, m.t);
    CommitReadLog(start, s, m.t);
  }

  // ---- ROLLBACK --------------------------------------------------------------

  lemma AbortCounts(live: Live, done: map<nat, Event>, log: seq<Event>, t: nat)
    requires CountsOk(live, done, log) && t !in done && t in live
    ensures CountsOk(live - {t}, done, Without(log, t))
  {
    hide Count, Without;
    forall u
      ensures Count(Without(log, t), u) == if Answering(live - {t}, done, u) then 1 else 0
    {
      WithoutCounts(log, t, u);
      assert u != t ==> Answering(live - {t}, done, u) == Answering(live, done, u);
    }
  }

  lemma AbortEvents(live: Live, done: map<nat, Event>, log: seq<Event>, t: nat)
    requires EventsOk(live, done, log)
    ensures EventsOk(live - {t}, done, Without(log, t))
  {
    hide Count, Without;
    WithoutCounts(log, t, t);
    forall f | f in Without(log, t)
      ensures EventOk(live - {t}, done, f)
    {
      assert f in log && f.txn != t && EventOk(live, done, f);
    }
  }

  lemma AbortQuiet(live: Live, log: seq<Event>, t: nat)
    requires QuietOk(live, log)
    ensures QuietOk(live - {t}, Without(log, t))
  {
    hide QuietAfter, Without;
    forall u, k | LeavesKey(live - {t}, u, k)
      ensures QuietAfter(Without(log, t), u, k)
    {
      assert LeavesKey(live, u, k) && u != t;
      WithoutQuiet(log, t, u, k);
    }
  }

  /** An answer without writes leaves at most its own open key. */
  lemma AnswerLeavesLittle(db: Db, c: Call, id: MemoryId, x: Txn)
    requires x.call == c && x.pc == Read(Exec(db, c, id).outcome) && ReadOk(x, x.pc.outcome)
    ensures Drop(Exec(db, c, id).db, if LeavesOpenKey(x) then {KeyFor(c)} else {}) == db
  {
    var d := Exec(db, c, id).db;
    if c.Remember? || c.Revise? {
      KeyedEffect(db, c, id);
      if LeavesOpenKey(x) {
        assert db.idem[KeyFor(c) := OpenRow(c)] - {KeyFor(c)} == db.idem;
      } else {
        assert db.idem - {} == db.idem;
      }
    } else {
      assert db.idem - {} == db.idem;
    }
  }

  lemma AbortAnswered(start: Db, live: Live, done: map<nat, Event>, log: seq<Event>, t: nat)
    requires Faithful(start, log) && NoPurges(log) && EventsOk(live, done, log) && QuietOk(live, log)
    requires CountsOk(live, done, log) && t in live && t !in done && live[t].pc.Read? && ReadOk(live[t], live[t].pc.outcome)
    ensures var ks := if LeavesOpenKey(live[t]) then {KeyFor(live[t].call)} else {};
            && Faithful(start, Without(log, t))
            && Replay(start, Without(log, t)) == Drop(Replay(start, log), ks)
  {
    hide Exec, ReadOk;
    var x := live[t];
    var ks := if LeavesOpenKey(x) then {KeyFor(x.call)} else {};
    assert Answering(live, done, t);
    forall k | k in ks
      ensures QuietAfter(log, t, k)
    {
      assert LeavesKey(live, t, k);
    }
    forall i | 0 <= i < |log| && log[i].txn == t
      ensures Drop(Exec(Replay(start, log[..i]), log[i].call, log[i].id).db, ks) == Replay(start, log[..i])
    {
      assert log[i] in log && EventOk(live, done, log[i]);
      FaithfulAt(start, log, i);
      AnswerLeavesLittle(Replay(start, log[..i]), log[i].call, log[i].id, x);
    }
    RemoveEvent(start, log, t, ks);
  }

  lemma RemovedTogether(m: map<IdemKey, IdemRow>, ks: set<IdemKey>, k: IdemKey)
    requires k in ks
    ensures (m - {k}) - (ks - {k}) == m - ks
  {
  }

  lemma AbortLogOk(start: Db, db: Db, live: Live, done: map<nat, Event>, log: seq<Event>, residue: map<IdemKey, IdemRow>, t: nat)
    requires LogOk(start, db, log, residue) && EventsOk(live, done, log) && QuietOk(live, log) && ResidueOk(live, residue)
    requires CountsOk(live, done, log) && t in live && t !in done && live[t].pc.Read? && TxnOk(db, live[t])
    ensures LogOk(start, db, Without(log, t),
                  if LeavesOpenKey(live[t]) then residue - {KeyFor(live[t].call)} else residue)
  {
    hide TxnOk, Faithful, Replay, EventsOk, QuietOk, CountsOk, Without;
    AnswerOk(db, map[t := live[t]], t);
    AbortAnswered(start, live, done, log, t);
    WithoutCounts(log, t, t);
    var x := live[t];
    var full := Replay(start, log);
    if LeavesOpenKey(x) {
      var k := KeyFor(x.call);
      assert LeavesKey(live, t, k) && k in residue;
      assert (residue - {k}).Keys == residue.Keys - {k};
      RemovedTogether(full.idem, residue.Keys, k);
    } else {
      assert full.idem - {} == full.idem;
    }
  }

  lemma EndResidueSilent(live: Live, residue: map<IdemKey, IdemRow>, t: nat)
    requires ResidueOk(live, residue) && t in live && !live[t].pc.Read?
    ensures ResidueOk(live - {t}, residue)
  {
    assert forall u, k :: LeavesKey(live - {t}, u, k) <==> LeavesKey(live, u, k);
  }

  lemma AbortSound(s: Sys, m: Move)
    requires Sound(s) && m.Abort? && Enabled(s, m)
    ensures Sound(Apply(s, m))
    ensures Apply(s, m).db == s.db && Apply(s, m).done == s.done && Apply(s, m).trail == s.trail
  {
    hide WellFormed, TxnOk, Separate, TrailOk;
    assert TxnsOk(s.db, s.live - {m.t});
    EndSeparate(s.live, m.t);
  }

  lemma AbortOk(start: Db, s: Sys, m: Move)
    requires Inv(start, s) && m.Abort? && Enabled(s, m)
    ensures Inv(start, Apply(s, m))
    ensures Apply(s, m).db == s.db && Apply(s, m).done == s.done
  {
    hide WellFormed, TxnOk, LogOk, CountsOk, EventsOk, QuietOk, RealTime, Separate, ResidueOk, TrailOk, Honest;
    AbortSound(s, m);
    var x := s.live[m.t];
    AbortCounts(s.live, s.done, s.log, m.t);
    AbortEvents(s.live, s.done, s.log, m.t);
    AbortQuiet(s.live, s.log, m.t);
    RealTimeWithout(s.log, s.earlier, m.t);
    if x.pc.Read? {
      AbortLogOk(start, s.db, s.live, s.done, s.log, s.residue, m.t);
      EndResidue(s.live, s.residue, m.t);
    } else {
      NothingAnswered(s.live, s.done, s.log, m.t);
      WithoutNone(s.log, m.t);
      EndResidueSilent(s.live, s.residue, m.t);
    }
  }

  lemma NothingAnswered(live: Live, done: map<nat, Event>, log: seq<Event>, t: nat)
    requires CountsOk(live, done, log) && t !in done && (t in live ==> !live[t].pc.Read?)
    ensures Count(log, t) == 0
  {
    assert !Answering(live, done, t);
  }

  // ---- background jobs -------------------------------------------------------

  function BackgroundFootprint(c: Call): Footprint {
    Footprint({}, {}, {}, if c.Collect? then c.keys else {}, {})
  }

  lemma BackgroundWithin(db: Db, c: Call)
    requires c.Collect? || c.Embed?
    ensures Within(db, Exec(db, c, 0).db, BackgroundFootprint(c))
  {
  }

  lemma BackgroundClear(s: Sys, m: Move)
    requires TxnsOk(s.db, s.live) && m.Background? && Enabled(s, m)
    ensures Within(s.db, Exec(s.db, m.call, 0).db, BackgroundFootprint(m.call))
    ensures forall u | u in s.live :: Clear(s.live[u], BackgroundFootprint(m.call))
  {
    hide Within, PointOk;
    BackgroundWithin(s.db, m.call);
    forall u | u in s.live
      ensures Clear(s.live[u], BackgroundFootprint(m.call))
    {
      assert TxnOk(s.db, s.live[u]);
    }
  }

  lemma NobodyEnds(live: Live, t: nat)
    requires t !in live
    ensures live - {t} == live
  {
  }

  lemma BackgroundSound(s: Sys, m: Move)
    requires Sound(s) && m.Background? && Enabled(s, m)
    ensures Sound(Apply(s, m))
  {
    hide WellFormed, Separate, TxnsOk, TrailOk, ExecCollect, ExecEmbed, Within, Clear;
    NotYetBegun(s, m.t);
    var d, f := Exec(s.db, m.call, 0).db, BackgroundFootprint(m.call);
    StepWellFormed(s.db, m.call, 0);
    BackgroundClear(s, m);
    OthersStable(s.db, d, s.live, m.t, f);
    NobodyEnds(s.live, m.t);
    TrailAppend(s.done, s.trail, Event(m.t, m.call, 0, Exec(s.db, m.call, 0).outcome));
  }

  lemma BackgroundUntouched(s: Sys, m: Move)
    requires m.Background? && Enabled(s, m) && ResidueOk(s.live, s.residue)
    ensures Untouched(m.call, s.residue.Keys)
  {
    forall k | k in s.residue
      ensures !Touches(m.call, k)
    {
      var u :| LeavesKey(s.live, u, k);
      assert u in s.live;
    }
  }

  lemma BackgroundOutcome(db: Db, c: Call)
    requires c.Collect? || c.Embed?
    ensures !Exec(db, c, 0).outcome.Conflicted?
  {
  }

  lemma BackgroundTime(live: Live, done: map<nat, Event>, earlier: map<nat, set<nat>>, log: seq<Event>, e: Event)
    requires RealTime(log, earlier) && CountsOk(live, done, log) && NamesOk(live, done, earlier) && e.txn !in earlier
    ensures RealTime(log + [e], earlier[e.txn := done.Keys])
    ensures NamesOk(live, done[e.txn := e], earlier[e.txn := done.Keys])
  {
    RealTimeExtend(log, earlier, earlier[e.txn := done.Keys]);
    forall u | u in done.Keys
      ensures Count(log, u) >= 1
    {
      SomethingAnswered(live, done, log, u);
    }
    RealTimeAppend(log, earlier[e.txn := done.Keys], e);
  }

  lemma BackgroundBooks(live: Live, done: map<nat, Event>, log: seq<Event>, residue: map<IdemKey, IdemRow>, e: Event)
    requires CountsOk(live, done, log) && EventsOk(live, done, log) && QuietOk(live, log) && ResidueOk(live, residue)
    requires e.txn !in done && e.txn !in live && e.id == 0 && Untouched(e.call, residue.Keys) && !e.outcome.Conflicted?
    ensures var d, l := done[e.txn := e], log + [e];
            CountsOk(live, d, l) && EventsOk(live, d, l) && QuietOk(live, l)
  {
    hide CountsOk, EventsOk, QuietOk, ResidueOk;
    var x := Txn(e.call, 0, Failing(ValidationFailed), NotHeld, false, [], [], false);
    CommitBooks(live, done, log, residue, e.txn, x, e.outcome);
    assert live - {e.txn} == live;
  }

  lemma BackgroundOk(start: Db, s: Sys, m: Move)
    requires Inv(start, s) && m.Background? && Enabled(s, m)
    ensures Inv(start, Apply(s, m))
  {
    hide WellFormed, LogOk, CountsOk, EventsOk, QuietOk, RealTime, Separate, ResidueOk, TxnsOk, ExecCollect, ExecEmbed,
      TrailOk, AllHonest, Within, Clear;
    BackgroundSound(s, m);
    NotYetBegun(s, m.t);
    var r := Exec(s.db, m.call, 0);
    BackgroundOutcome(s.db, m.call);
    var e := Event(m.t, m.call, 0, r.outcome);
    BackgroundClear(s, m);
    OthersHonest(s.db, r.db, s.live, m.t, BackgroundFootprint(m.call));
    NobodyEnds(s.live, m.t);
    BackgroundUntouched(s, m);
    AppendLog(start, s.db, s.log, s.residue, e);
    BackgroundBooks(s.live, s.done, s.log, s.residue, e);
    BackgroundTime(s.live, s.done, s.earlier, s.log, e);
  }

  lemma SomethingAnswered(live: Live, done: map<nat, Event>, log: seq<Event>, t: nat)
    requires CountsOk(live, done, log) && t in done
    ensures Count(log, t) == 1
  {
    assert Answering(live, done, t);
  }

  // ---- every move ------------------------------------------------------------

  lemma MoveSound(s: Sys, m: Move)
    requires Sound(s) && Enabled(s, m)
    ensures Sound(Apply(s, m))
  {
    hide Sound, Apply;
    match m
    case Begin(_, _, _) => BeginSound(s, m);
    case Advance(_) => AdvanceSound(s, m);
    case Attest(_) => AttestSound(s, m);
    case Commit(t) =>
      if s.live[t].pc.Ready? {
        CommitReadySound(s, m);
      } else {
        CommitReadSound(s, m);
      }
    case Abort(_) => AbortSound(s, m);
    case Background(_, _) => BackgroundSound(s, m);
  }

  lemma MoveOk(start: Db, s: Sys, m: Move)
    requires Inv(start, s) && Enabled(s, m) && (m.Begin? ==> HasRead(s.db, m.call))
    ensures Inv(start, Apply(s, m))
  {
    hide Inv, Apply;
    match m
    case Begin(_, _, _) => BeginOk(start, s, m);
    case Advance(_) => AdvanceOk(start, s, m);
    case Attest(_) => AttestOk(start, s, m);
    case Commit(t) =>
      if s.live[t].pc.Ready? {
        CommitReadyOk(start, s, m);
      } else {
        CommitReadOk(start, s, m);
      }
    case Abort(_) => AbortOk(start, s, m);
    case Background(_, _) => BackgroundOk(start, s, m);
  }

  lemma {:induction false} RunSound(s: Sys, moves: seq<Move>)
    requires Sound(s) && ValidRun(s, moves)
    ensures Sound(Run(s, moves))
    decreases |moves|
  {
    hide Sound, Apply, Enabled;
    if moves != [] {
      MoveSound(s, moves[0]);
      RunSound(Apply(s, moves[0]), moves[1..]);
    }
  }

  lemma {:induction false} RunOk(start: Db, s: Sys, moves: seq<Move>)
    requires Inv(start, s) && ValidRun(s, moves) && ReadFirst(s, moves)
    ensures Inv(start, Run(s, moves))
    decreases |moves|
  {
    hide Inv, Apply, Enabled;
    if moves != [] {
      MoveOk(start, s, moves[0]);
      RunOk(start, Apply(s, moves[0]), moves[1..]);
    }
  }

  // ---- the theorem -----------------------------------------------------------

  /** A serial order of exactly the committed calls, with the answers they gave, that
      respects real time and ends in the committed store. */
  ghost predicate SerialOrder(start: Db, s: Sys, order: seq<Event>) {
    && Faithful(start, order) && Replay(start, order) == s.db
    && (forall t :: Count(order, t) == if t in s.done then 1 else 0)
    && (forall e | e in order :: e.txn in s.done && s.done[e.txn] == e)
    && RealTime(order, s.earlier)
  }

  ghost predicate ConflictsAreNewer(order: seq<Event>) {
    forall e | e in order :: ConflictIsNewer(e)
  }

  lemma QuiescentSerial(start: Db, s: Sys)
    requires Inv(start, s) && s.live == map[]
    ensures SerialOrder(start, s, s.log) && ConflictsAreNewer(s.log)
  {
    hide Sound;
    assert forall t, k :: !LeavesKey(s.live, t, k);
    assert s.residue == map[];
    assert Replay(start, s.log).idem - {} == Replay(start, s.log).idem;
    forall e | e in s.log
      ensures e.txn in s.done && s.done[e.txn] == e && ConflictIsNewer(e)
    {
      assert EventOk(s.live, s.done, e);
      CountZero(s.log, e.txn);
      assert Answering(s.live, s.done, e.txn);
    }
    assert forall t :: Answering(s.live, s.done, t) <==> t in s.done;
  }

  lemma AbortKeeps(s: Sys, t: nat)
    requires t in s.live
    ensures Enabled(s, Move.Abort(t))
    ensures var n := Apply(s, Move.Abort(t));
            n.db == s.db && n.done == s.done && n.earlier == s.earlier && n.live == s.live - {t}
  {
  }

  lemma SameOrder(start: Db, s: Sys, n: Sys, order: seq<Event>)
    requires SerialOrder(start, n, order) && n.db == s.db && n.done == s.done && n.earlier == s.earlier
    ensures SerialOrder(start, s, order)
  {
  }

  lemma {:induction false} InvSerial(start: Db, s: Sys) returns (order: seq<Event>)
    requires Inv(start, s)
    ensures SerialOrder(start, s, order) && ConflictsAreNewer(order)
    decreases |s.live|
  {
    if s.live == map[] {
      QuiescentSerial(start, s);
      order := s.log;
    } else {
      hide Inv, Apply, SerialOrder, Enabled;
      var t :| t in s.live;
      AbortOne(start, s, t);
      order := InvSerial(start, Apply(s, Move.Abort(t)));
      SameOrder(start, s, Apply(s, Move.Abort(t)), order);
    }
  }

  /** Rolling one live transaction back changes nothing that is committed. */
  lemma AbortOne(start: Db, s: Sys, t: nat)
    requires Inv(start, s) && t in s.live
    ensures Enabled(s, Move.Abort(t))
    ensures var n := Apply(s, Move.Abort(t));
            Inv(start, n) && n.db == s.db && n.done == s.done && n.earlier == s.earlier && |n.live| < |s.live|
  {
    hide Inv, Apply, Enabled;
    AbortKeeps(s, t);
    AbortOk(start, s, Move.Abort(t));
    assert (s.live - {t}).Keys == s.live.Keys - {t};
  }

  /** In every reachable state the committed store is well formed. */
  lemma EveryRunIsSound(start: Db, moves: seq<Move>)
    requires WellFormed(start) && ValidRun(Initial(start), moves)
    ensures Sound(Run(Initial(start), moves))
  {
    hide WellFormed, Sound;
    InitialSound(start);
    RunSound(Initial(start), moves);
  }

  // ---- in terms of the moves -------------------------------------------------

  lemma ApplyRecords(s: Sys, m: Move)
    requires Enabled(s, m)
    ensures forall t | t in s.done :: t in Apply(s, m).done
    ensures forall u | u in s.earlier :: u in Apply(s, m).earlier && Apply(s, m).earlier[u] == s.earlier[u]
    ensures m.Commit? || m.Background? ==> m.t in Apply(s, m).done
    ensures m.Begin? || m.Background? ==> m.t in Apply(s, m).earlier && Apply(s, m).earlier[m.t] == s.done.Keys
  {
    hide StepTxn, Exec, Install, NewTxn;
  }

  /** What a transaction could have seen when it began is never recorded differently later. */
  lemma {:induction false} EarlierStays(s: Sys, moves: seq<Move>, u: nat)
    requires ValidRun(s, moves) && u in s.earlier
    ensures u in Run(s, moves).earlier && Run(s, moves).earlier[u] == s.earlier[u]
    decreases |moves|
  {
    hide Apply, Enabled;
    if moves != [] {
      ApplyRecords(s, moves[0]);
      EarlierStays(Apply(s, moves[0]), moves[1..], u);
    }
  }

  lemma {:induction false} BegunAfter(s: Sys, moves: seq<Move>, t: nat, b: nat)
    requires ValidRun(s, moves) && t in s.done && b < |moves| && (moves[b].Begin? || moves[b].Background?)
    ensures var e := Run(s, moves); moves[b].t in e.earlier && t in e.earlier[moves[b].t]
    decreases |moves|
  {
    hide Apply, Enabled;
    ApplyRecords(s, moves[0]);
    if b == 0 {
      EarlierStays(Apply(s, moves[0]), moves[1..], moves[0].t);
    } else {
      BegunAfter(Apply(s, moves[0]), moves[1..], t, b - 1);
    }
  }

  /** A call that began after another had committed knows it among the earlier ones. */
  lemma {:induction false} CommittedBefore(s: Sys, moves: seq<Move>, a: nat, b: nat)
    requires ValidRun(s, moves) && a < b < |moves|
    requires (moves[a].Commit? || moves[a].Background?) && (moves[b].Begin? || moves[b].Background?)
    ensures var e := Run(s, moves); moves[b].t in e.earlier && moves[a].t in e.earlier[moves[b].t]
    decreases |moves|
  {
    hide Apply, Enabled;
    ApplyRecords(s, moves[0]);
    if a == 0 {
      BegunAfter(Apply(s, moves[0]), moves[1..], moves[0].t, b - 1);
    } else {
      CommittedBefore(Apply(s, moves[0]), moves[1..], a - 1, b - 1);
    }
  }

  /** The event of t stands before that of u. */
  ghost predicate Precedes(order: seq<Event>, t: nat, u: nat) {
    exists i, j :: 0 <= i < j < |order| && order[i].txn == t && order[j].txn == u
  }

  lemma {:induction false} RealTimePrecedes(order: seq<Event>, earlier: map<nat, set<nat>>, t: nat, u: nat)
    requires RealTime(order, earlier) && Count(order, u) >= 1 && u in earlier && t in earlier[u]
    ensures Precedes(order, t, u)
  {
    var init, e := order[..|order| - 1], order[|order| - 1];
    if e.txn == u {
      CountZero(init, t);
      var v :| v in init && v.txn == t;
      var i :| 0 <= i < |init| && init[i] == v;
      assert order[i].txn == t && order[|init|].txn == u;
    } else {
      RealTimePrecedes(init, earlier, t, u);
      var i, j :| 0 <= i < j < |init| && init[i].txn == t && init[j].txn == u;
      assert order[i] == init[i] && order[j] == init[j];
    }
  }

  lemma {:induction false} CountOnce(log: seq<Event>)
    requires forall t :: Count(log, t) <= 1
    ensures forall i, j | 0 <= i < j < |log| :: log[i].txn != log[j].txn
  {
    if log != [] {
      var init, e := log[..|log| - 1], log[|log| - 1];
      forall t
        ensures Count(init, t) <= 1
      {
        assert Count(log, t) <= 1;
      }
      CountOnce(init);
      assert Count(log, e.txn) <= 1;
      CountZero(init, e.txn);
    }
  }

  /** Both lists hold each recorded event, and only those. */
  lemma SameEvents(done: map<nat, Event>, order: seq<Event>, trail: seq<Event>)
    requires forall t :: Count(order, t) == if t in done then 1 else 0
    requires forall e | e in order :: e.txn in done && done[e.txn] == e
    requires TrailOk(done, trail)
    ensures forall v :: v in order <==> v in trail
  {
    forall v
      ensures v in order <==> v.txn in done && done[v.txn] == v
      ensures v in trail <==> v.txn in done && done[v.txn] == v
    {
      CountZero(order, v.txn);
      CountZero(trail, v.txn);
    }
  }

  /** Where an event of the trail comes from: a background step, or a transaction that began with this
      call and id and committed. */
  ghost predicate ComesFrom(s: Sys, moves: seq<Move>, v: Event) {
    || v in s.trail
    || (Move.Background(v.txn, v.call) in moves && v.id == 0)
    || (Move.Commit(v.txn) in moves
        && (Move.Begin(v.txn, v.call, v.id) in moves
            || (v.txn in s.live && s.live[v.txn].call == v.call && s.live[v.txn].id == v.id)))
  }

  lemma OneComesFrom(s: Sys, m: Move, v: Event)
    requires Enabled(s, m)
    ensures v in Apply(s, m).trail ==>
              || v in s.trail || (m == Move.Background(v.txn, v.call) && v.id == 0)
              || (m == Move.Commit(v.txn) && v.txn in s.live && s.live[v.txn].call == v.call && s.live[v.txn].id == v.id)
    ensures v.txn in Apply(s, m).live ==>
              || m == Move.Begin(v.txn, Apply(s, m).live[v.txn].call, Apply(s, m).live[v.txn].id)
              || (v.txn in s.live && Apply(s, m).live[v.txn].call == s.live[v.txn].call && Apply(s, m).live[v.txn].id == s.live[v.txn].id)
  {
    hide StepTxn, Exec, Install, StartPc, Blocked, Fits, Attests;
    if m.Advance? {
      StepKeepsCall(s.db, s.live[m.t]) by {
        StepFits(s, m);
      }
    }
  }

  lemma StepFits(s: Sys, m: Move)
    requires m.Advance? && Enabled(s, m)
    ensures m.t in s.live && Fits(s.live[m.t])
  {
  }

  lemma {:induction false} TrailComesFrom(s: Sys, moves: seq<Move>, v: Event)
    requires ValidRun(s, moves) && v in Run(s, moves).trail
    ensures ComesFrom(s, moves, v)
    decreases |moves|
  {
    hide Apply, Enabled;
    if moves != [] {
      TrailComesFrom(Apply(s, moves[0]), moves[1..], v);
      OneComesFrom(s, moves[0], v);
      assert moves[0] in moves && forall m | m in moves[1..] :: m in moves;
    }
  }

  lemma {:induction false} DoneStays(s: Sys, moves: seq<Move>, t: nat)
    requires ValidRun(s, moves) && t in s.done
    ensures t in Run(s, moves).done
    decreases |moves|
  {
    hide Apply, Enabled;
    if moves != [] {
      ApplyRecords(s, moves[0]);
      DoneStays(Apply(s, moves[0]), moves[1..], t);
    }
  }

  lemma {:induction false} CommitIsRecorded(s: Sys, moves: seq<Move>, a: nat)
    requires ValidRun(s, moves) && a < |moves| && (moves[a].Commit? || moves[a].Background?)
    ensures moves[a].t in Run(s, moves).done
    decreases |moves|
  {
    hide Apply, Enabled;
    ApplyRecords(s, moves[0]);
    if a == 0 {
      DoneStays(Apply(s, moves[0]), moves[1..], moves[0].t);
    } else {
      CommitIsRecorded(Apply(s, moves[0]), moves[1..], a - 1);
    }
  }

  /** The committed calls of a run are those of its moves, each as it was begun. */
  lemma {:induction false} TrailTells(start: Db, moves: seq<Move>)
    requires WellFormed(start) && ValidRun(Initial(start), moves)
    ensures var e := Run(Initial(start), moves);
            && (forall v | v in e.trail ::
                  || (Move.Background(v.txn, v.call) in moves && v.id == 0)
                  || (Move.Begin(v.txn, v.call, v.id) in moves && Move.Commit(v.txn) in moves))
            && (forall a | 0 <= a < |moves| && (moves[a].Commit? || moves[a].Background?) ::
                  exists v :: v in e.trail && v.txn == moves[a].t)
  {
    hide WellFormed, Run, ValidRun;
    var e := Run(Initial(start), moves);
    forall v | v in e.trail
      ensures ComesFrom(Initial(start), moves, v)
    {
      TrailComesFrom(Initial(start), moves, v);
    }
    EveryRunIsSound(start, moves);
    forall a | 0 <= a < |moves| && (moves[a].Commit? || moves[a].Background?)
      ensures exists v :: v in e.trail && v.txn == moves[a].t
    {
      CommitIsRecorded(Initial(start), moves, a);
      CountZero(e.trail, moves[a].t);
    }
  }

  lemma {:induction false} SomeSerialOrder(start: Db, moves: seq<Move>) returns (order: seq<Event>)
    requires WellFormed(start) && ValidRun(Initial(start), moves) && ReadFirst(Initial(start), moves)
    ensures SerialOrder(start, Run(Initial(start), moves), order) && ConflictsAreNewer(order)
  {
    hide WellFormed, Inv, SerialOrder, ConflictsAreNewer;
    InitialInv(start);
    RunOk(start, Initial(start), moves);
    order := InvSerial(start, Run(Initial(start), moves));
  }

  /** Runs without revises name no revision that was not committed. */
  lemma {:induction false} WithoutRevises(s: Sys, moves: seq<Move>)
    requires ValidRun(s, moves) && forall m | m in moves && m.Begin? :: !m.call.Revise?
    ensures ReadFirst(s, moves)
    decreases |moves|
  {
    hide Apply, Enabled;
    if moves != [] {
      assert moves[0] in moves && forall m | m in moves[1..] :: m in moves;
      WithoutRevises(Apply(s, moves[0]), moves[1..]);
    }
  }

  /** A serial order said in terms of the calls committed and of the moves made. */
  ghost predicate Explains(start: Db, moves: seq<Move>, order: seq<Event>)
    requires ValidRun(Initial(start), moves)
  {
    var e := Run(Initial(start), moves);
    && Faithful(start, order) && Replay(start, order) == e.db
    && (forall i, j | 0 <= i < j < |order| :: order[i].txn != order[j].txn)
    && (forall v :: v in order <==> v in e.trail)
    && (forall v | v in order && v.outcome.Conflicted? :: v.call.Revise? && v.outcome.current.no > v.call.expected)
    && (forall a, b, v | 0 <= a < b < |moves| && (moves[a].Commit? || moves[a].Background?) && (moves[b].Begin? || moves[b].Background?)
                         && v in order && v.txn == moves[b].t :: Precedes(order, moves[a].t, v.txn))
  }

  lemma {:induction false} OrderExplains(start: Db, moves: seq<Move>, order: seq<Event>)
    requires WellFormed(start) && ValidRun(Initial(start), moves)
    requires SerialOrder(start, Run(Initial(start), moves), order) && ConflictsAreNewer(order)
    ensures Explains(start, moves, order)
  {
    hide WellFormed, Run, ValidRun, Faithful, Replay, Precedes, RealTime, TrailOk;
    var e := Run(Initial(start), moves);
    EveryRunIsSound(start, moves);
    CountOnce(order);
    SameEvents(e.done, order, e.trail);
    forall a, b, v | 0 <= a < b < |moves| && (moves[a].Commit? || moves[a].Background?) && (moves[b].Begin? || moves[b].Background?)
                     && v in order && v.txn == moves[b].t
      ensures Precedes(order, moves[a].t, v.txn)
    {
      CommittedBefore(Initial(start), moves, a, b);
      CountZero(order, v.txn);
      RealTimePrecedes(order, e.earlier, moves[a].t, v.txn);
    }
  }

  /** Any interleaving of remembers, revises and forgets, with waiting, re-checking, crashes,
      collections and embeddings, ends in the state and the answers of a serial order of the
      committed calls, provided that revises name a revision that had been committed. */
  lemma {:induction false} EveryRunIsSerial(start: Db, moves: seq<Move>)
    requires WellFormed(start) && ValidRun(Initial(start), moves) && ReadFirst(Initial(start), moves)
    ensures var e := Run(Initial(start), moves);
            exists order: seq<Event> ::
              && Faithful(start, order) && Replay(start, order) == e.db
              && (forall i, j | 0 <= i < j < |order| :: order[i].txn != order[j].txn)
              && (forall v :: v in order <==> v in e.trail)
              && (forall v: Event | v in order && v.outcome.Conflicted? :: v.call.Revise? && v.outcome.current.no > v.call.expected)
              && (forall a, b, v: Event | 0 <= a < b < |moves| && (moves[a].Commit? || moves[a].Background?)
                                   && (moves[b].Begin? || moves[b].Background?) && v in order && v.txn == moves[b].t ::
                    exists i, j :: 0 <= i < j < |order| && order[i].txn == moves[a].t && order[j].txn == v.txn)
  {
    hide WellFormed, Inv, SerialOrder, ConflictsAreNewer, ValidRun, Run, Faithful, Replay;
    var order := SomeSerialOrder(start, moves);
    OrderExplains(start, moves, order);
  }
}
