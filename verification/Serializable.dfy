/** Every interleaving ends in the state and the answers of a serial order of its calls. */
module Serializable {
  import opened Basics
  import opened Schema
  import opened Calls
  import opened Invariants
  import opened History
  import opened ReadCommitted
  import opened Transactions
  import Sorting

  // ---- key rows nobody else looks at -----------------------------------------

  predicate Touches(c: Call, k: IdemKey) {
    (Keyed(c) && KeyFor(c) == k) || (c.Collect? && k in c.keys)
  }

  ghost predicate Untouched(c: Call, ks: set<IdemKey>) {
    forall k | k in ks :: !Touches(c, k)
  }

  function Drop(db: Db, ks: set<IdemKey>): Db {
    db.(idem := db.idem - ks)
  }

  lemma UpdateDrops(m: map<IdemKey, IdemRow>, k: IdemKey, r: IdemRow, ks: set<IdemKey>)
    requires k !in ks
    ensures (m - ks)[k := r] == m[k := r] - ks
  {
  }

  lemma OpenDrops(db: Db, c: Call, ks: set<IdemKey>)
    requires (c.Remember? || c.Revise?) && Untouched(c, ks)
    ensures WithOpenKey(Drop(db, ks), c) == Drop(WithOpenKey(db, c), ks)
  {
    if c.key.Some? {
      assert Touches(c, KeyFor(c));
      UpdateDrops(db.idem, KeyFor(c), OpenRow(c), ks);
    }
  }

  lemma DoneDrops(m: map<IdemKey, IdemRow>, c: Call, r: Response, ks: set<IdemKey>)
    requires (c.Remember? || c.Revise?) && Untouched(c, ks)
    ensures WithDoneKey(m - ks, c, r) == WithDoneKey(m, c, r) - ks
  {
    if c.key.Some? {
      assert Touches(c, KeyFor(c));
      UpdateDrops(m, KeyFor(c), DoneRow(c, r), ks);
    }
  }

  lemma JudgeDrops(db: Db, c: Call, ks: set<IdemKey>)
    requires (c.Remember? || c.Revise?) && Untouched(c, ks)
    ensures Judge(Drop(db, ks), c) == Judge(db, c)
  {
    if c.key.Some? {
      assert Touches(c, KeyFor(c));
    }
  }

  lemma FrameRemember(db: Db, c: Call, id: MemoryId, ks: set<IdemKey>)
    requires c.Remember? && Untouched(c, ks)
    ensures ExecRemember(Drop(db, ks), c, id).db == Drop(ExecRemember(db, c, id).db, ks)
    ensures ExecRemember(Drop(db, ks), c, id).outcome == ExecRemember(db, c, id).outcome
  {
    if DedupKeyFor(c) in db.dedup {
      OpenDrops(db, c, ks);
    } else {
      DoneDrops(db.idem, c, Response(id, 1), ks);
    }
  }

  lemma FrameReviseWith(db: Db, c: Call, ks: set<IdemKey>)
    requires c.Revise? && Untouched(c, ks) && c.target in db.memories
    ensures ReviseWith(Drop(db, ks), c) == Drop(ReviseWith(db, c), ks)
  {
    hide WithDoneKey, Enqueue;
    DoneDrops(db.idem, c, Response(c.target, db.memories[c.target].current + 1), ks);
  }

  lemma FrameRevise(db: Db, c: Call, ks: set<IdemKey>)
    requires c.Revise? && Untouched(c, ks)
    ensures ExecRevise(Drop(db, ks), c).db == Drop(ExecRevise(db, c).db, ks)
    ensures ExecRevise(Drop(db, ks), c).outcome == ExecRevise(db, c).outcome
  {
    hide ReviseWith, WithOpenKey, Completable;
    if CasMatches(db.memories, c.project, c.target, c.expected) {
      FrameReviseWith(db, c, ks);
    } else {
      OpenDrops(db, c, ks);
    }
  }

  lemma FrameBody(db: Db, c: Call, id: MemoryId, ks: set<IdemKey>)
    requires Untouched(c, ks) && (c.Remember? || c.Revise?)
    ensures ExecBody(Drop(db, ks), c, id).db == Drop(ExecBody(db, c, id).db, ks)
    ensures ExecBody(Drop(db, ks), c, id).outcome == ExecBody(db, c, id).outcome
  {
    if c.Remember? {
      FrameRemember(db, c, id, ks);
    } else {
      FrameRevise(db, c, ks);
    }
  }

  lemma FrameReplay(db: Db, c: Call, x: MemoryId, ks: set<IdemKey>)
    requires c.Remember? || c.Revise?
    ensures ExecReplay(Drop(db, ks), c, x).db == Drop(ExecReplay(db, c, x).db, ks)
    ensures ExecReplay(Drop(db, ks), c, x).outcome == ExecReplay(db, c, x).outcome
  {
  }

  lemma FrameKeyed(db: Db, c: Call, id: MemoryId, ks: set<IdemKey>)
    requires Untouched(c, ks) && (c.Remember? || c.Revise?)
    ensures ExecKeyed(Drop(db, ks), c, id).db == Drop(ExecKeyed(db, c, id).db, ks)
    ensures ExecKeyed(Drop(db, ks), c, id).outcome == ExecKeyed(db, c, id).outcome
  {
    hide ExecBody, ExecReplay, Judge;
    JudgeDrops(db, c, ks);
    FrameBody(db, c, id, ks);
    var v := Judge(db, c);
    if ArgumentsOk(c) && v.Replaying? {
      FrameReplay(db, c, v.id, ks);
    }
  }

  lemma FrameCollect(db: Db, c: Call, ks: set<IdemKey>)
    requires c.Collect?
    ensures ExecCollect(Drop(db, ks), c).db == Drop(ExecCollect(db, c).db, ks)
  {
    assert ExecCollect(Drop(db, ks), c).db.idem == ExecCollect(db, c).db.idem - ks;
  }

  /** A call behaves the same with or without key rows it does not touch. */
  lemma Frame(db: Db, c: Call, id: MemoryId, ks: set<IdemKey>)
    requires Untouched(c, ks) && !c.Purge?
    ensures Exec(Drop(db, ks), c, id).db == Drop(Exec(db, c, id).db, ks)
    ensures Exec(Drop(db, ks), c, id).outcome == Exec(db, c, id).outcome
    ensures Admissible(Drop(db, ks), c, id) <==> Admissible(db, c, id)
  {
    if c.Remember? || c.Revise? {
      FrameKeyed(db, c, id, ks);
    } else if c.Collect? {
      FrameCollect(db, c, ks);
    }
  }

  /** What a keyed call does to the key table happens under its own key. */
  lemma OwnKeyOnly(db: Db, c: Call, id: MemoryId, k: IdemKey)
    requires (c.Remember? || c.Revise?) && !Touches(c, k)
    ensures var d := ExecKeyed(db, c, id).db; (k in d.idem <==> k in db.idem) && (k in db.idem ==> d.idem[k] == db.idem[k])
  {
    hide ExecKeyed;
    KeyedEffect(db, c, id);
  }

  /** ... and leaves such rows as they are. */
  lemma FrameKeeps(db: Db, c: Call, id: MemoryId, ks: set<IdemKey>)
    requires Untouched(c, ks) && !c.Purge?
    ensures forall k | k in ks :: k in Exec(db, c, id).db.idem <==> k in db.idem
    ensures forall k | k in ks && k in db.idem :: Exec(db, c, id).db.idem[k] == db.idem[k]
  {
    if c.Remember? || c.Revise? {
      hide ExecKeyed, Touches;
      forall k | k in ks
        ensures var d := ExecKeyed(db, c, id).db; (k in d.idem <==> k in db.idem) && (k in db.idem ==> d.idem[k] == db.idem[k])
      {
        OwnKeyOnly(db, c, id, k);
      }
    }
  }

  // ---- removing an event -----------------------------------------------------

  function Count(log: seq<Event>, t: nat): nat {
    if log == [] then 0
    else Count(log[..|log| - 1], t) + (if log[|log| - 1].txn == t then 1 else 0)
  }

  /** No event after that of t touches the key. */
  ghost predicate QuietAfter(log: seq<Event>, t: nat, k: IdemKey) {
    log == []
    || log[|log| - 1].txn == t
    || (!Touches(log[|log| - 1].call, k) && QuietAfter(log[..|log| - 1], t, k))
  }

  lemma {:induction false} CountZero(log: seq<Event>, t: nat)
    ensures Count(log, t) == 0 <==> forall e | e in log :: e.txn != t
  {
    if log != [] {
      CountZero(log[..|log| - 1], t);
      assert log == log[..|log| - 1] + [log[|log| - 1]];
    }
  }

  lemma {:induction false} WithoutNone(log: seq<Event>, t: nat)
    requires Count(log, t) == 0
    ensures Without(log, t) == log
  {
    if log != [] {
      WithoutNone(log[..|log| - 1], t);
    }
  }

  lemma {:induction false} WithoutCounts(log: seq<Event>, t: nat, u: nat)
    ensures Count(Without(log, t), u) == if u == t then 0 else Count(log, u)
    ensures forall e | e in Without(log, t) :: e in log && e.txn != t
  {
    if log != [] {
      var init, e := log[..|log| - 1], log[|log| - 1];
      WithoutCounts(init, t, u);
      assert log == init + [e];
      if e.txn != t {
        assert (Without(init, t) + [e])[..|Without(init, t)|] == Without(init, t);
      } else {
        assert Without(log, t) == Without(init, t);
      }
    }
  }

  lemma {:induction false} WithoutQuiet(log: seq<Event>, t: nat, u: nat, k: IdemKey)
    requires QuietAfter(log, u, k) && t != u
    ensures QuietAfter(Without(log, t), u, k)
  {
    if log != [] {
      var init, e := log[..|log| - 1], log[|log| - 1];
      if e.txn == t {
        assert Without(log, t) == Without(init, t);
        WithoutQuiet(init, t, u, k);
      } else {
        assert Without(log, t)[..|Without(log, t)| - 1] == Without(init, t);
        if e.txn != u {
          WithoutQuiet(init, t, u, k);
        }
      }
    }
  }

  ghost predicate NoPurges(log: seq<Event>) {
    forall e | e in log :: !e.call.Purge?
  }

  /** An answer that changed nothing but its own untouched key row can be taken out of a
      serial order, and every other answer stays what it was. */
  lemma {:induction false} RemoveEvent(db: Db, log: seq<Event>, t: nat, ks: set<IdemKey>)
    requires Faithful(db, log) && NoPurges(log) && Count(log, t) == 1
    requires forall k | k in ks :: QuietAfter(log, t, k)
    requires forall i | 0 <= i < |log| && log[i].txn == t ::
               Drop(Exec(Replay(db, log[..i]), log[i].call, log[i].id).db, ks) == Replay(db, log[..i])
    ensures Faithful(db, Without(log, t))
    ensures Replay(db, Without(log, t)) == Drop(Replay(db, log), ks)
  {
    var init, e := log[..|log| - 1], log[|log| - 1];
    if e.txn == t {
      WithoutNone(init, t);
      assert Without(log, t) == init;
    } else {
      forall i | 0 <= i < |init| && init[i].txn == t
        ensures Drop(Exec(Replay(db, init[..i]), init[i].call, init[i].id).db, ks) == Replay(db, init[..i])
      {
        assert init[..i] == log[..i] && init[i] == log[i];
      }
      RemoveEvent(db, init, t, ks);
      assert e in log;
      assert Untouched(e.call, ks);
      Frame(Replay(db, init), e.call, e.id, ks);
      FaithfulAppend(db, Without(init, t), e);
    }
  }

  // ---- the invariant ---------------------------------------------------------

  type Live = map<nat, Txn>

  ghost predicate TxnsOk(db: Db, live: Live) {
    forall t | t in live :: TxnOk(db, live[t])
  }

  ghost predicate Separate(live: Live) {
    forall t, u | t in live && u in live && t != u :: Apart(live[t], live[u])
  }

  /** The serial order explains the committed store, up to keys answered but not yet committed. */
  ghost predicate LogOk(start: Db, db: Db, log: seq<Event>, residue: map<IdemKey, IdemRow>) {
    && Faithful(start, log) && NoPurges(log)
    && Drop(Replay(start, log), residue.Keys) == db
    && (forall k | k in residue :: k !in db.idem
                                   && k in Replay(start, log).idem && Replay(start, log).idem[k] == residue[k])
  }

  predicate LeavesKey(live: Live, t: nat, k: IdemKey) {
    t in live && LeavesOpenKey(live[t]) && KeyFor(live[t].call) == k
  }

  ghost predicate ResidueOk(live: Live, residue: map<IdemKey, IdemRow>) {
    && (forall k | k in residue :: exists t :: LeavesKey(live, t, k))
    && (forall t, k | LeavesKey(live, t, k) :: k in residue && residue[k] == OpenRow(live[t].call))
  }

  predicate Answering(live: Live, done: map<nat, Event>, t: nat) {
    t in done || (t in live && live[t].pc.Read?)
  }

  /** Every answer given, and no other, stands in the order exactly once. */
  ghost predicate CountsOk(live: Live, done: map<nat, Event>, log: seq<Event>) {
    forall t :: Count(log, t) == if Answering(live, done, t) then 1 else 0
  }

  /** A conflict names a revision strictly newer than the one the caller had read. */
  ghost predicate ConflictIsNewer(e: Event) {
    e.outcome.Conflicted? ==> e.call.Revise? && e.outcome.current.no > e.call.expected
  }

  ghost predicate EventOk(live: Live, done: map<nat, Event>, e: Event) {
    && ConflictIsNewer(e)
    && (e.txn in done ==> done[e.txn] == e)
    && (e.txn in live ==> live[e.txn].pc == Read(e.outcome) && live[e.txn].call == e.call && live[e.txn].id == e.id)
  }

  ghost predicate EventsOk(live: Live, done: map<nat, Event>, log: seq<Event>) {
    forall e | e in log :: EventOk(live, done, e)
  }

  ghost predicate QuietOk(live: Live, log: seq<Event>) {
    forall t, k | LeavesKey(live, t, k) :: QuietAfter(log, t, k)
  }

  ghost predicate NamesOk(live: Live, done: map<nat, Event>, earlier: map<nat, set<nat>>) {
    && live.Keys !! done.Keys && live.Keys + done.Keys <= earlier.Keys
    && (forall t | t in earlier :: earlier[t] <= done.Keys)
  }

  /** The serial order respects real time: whatever had committed before a call began precedes it. */
  ghost predicate RealTime(log: seq<Event>, earlier: map<nat, set<nat>>) {
    log == []
    || var init, e := log[..|log| - 1], log[|log| - 1];
       && RealTime(init, earlier)
       && e.txn in earlier && (forall u | u in earlier[e.txn] :: Count(init, u) >= 1)
  }

  /** The committed calls, in the order they committed. */
  ghost predicate TrailOk(done: map<nat, Event>, trail: seq<Event>) {
    && (forall t :: Count(trail, t) == if t in done then 1 else 0)
    && (forall e | e in trail :: e.txn in done && done[e.txn] == e)
  }

  /** What every run keeps, whatever its callers expect. */
  ghost predicate Sound(s: Sys) {
    && WellFormed(s.db) && TxnsOk(s.db, s.live) && Separate(s.live) && NamesOk(s.live, s.done, s.earlier)
    && TrailOk(s.done, s.trail)
  }

  ghost predicate AllHonest(db: Db, live: Live) {
    forall t | t in live :: Honest(db, live[t])
  }

  /** What runs keep in which every caller expects a revision it has read. */
  ghost predicate Inv(start: Db, s: Sys) {
    && Sound(s) && AllHonest(s.db, s.live)
    && LogOk(start, s.db, s.log, s.residue) && ResidueOk(s.live, s.residue)
    && CountsOk(s.live, s.done, s.log) && EventsOk(s.live, s.done, s.log)
    && QuietOk(s.live, s.log) && RealTime(s.log, s.earlier)
  }

  lemma InitialSound(db: Db)
    requires WellFormed(db)
    ensures Sound(Initial(db))
  {
  }

  lemma InitialInv(db: Db)
    requires WellFormed(db)
    ensures Inv(db, Initial(db))
  {
    hide WellFormed;
    InitialSound(db);
    assert db.idem - {} == db.idem;
    assert Drop(Replay(db, []), {}) == db;
  }

  // ---- appending an answer to the order --------------------------------------

  lemma {:induction false} RealTimeAppend(log: seq<Event>, earlier: map<nat, set<nat>>, e: Event)
    requires RealTime(log, earlier) && e.txn in earlier
    requires forall u | u in earlier[e.txn] :: Count(log, u) >= 1
    ensures RealTime(log + [e], earlier)
  {
    assert (log + [e])[..|log|] == log;
  }

  lemma {:induction false} RealTimeExtend(log: seq<Event>, a: map<nat, set<nat>>, b: map<nat, set<nat>>)
    requires RealTime(log, a) && forall t | t in a :: t in b && b[t] == a[t]
    ensures RealTime(log, b)
  {
    if log != [] {
      RealTimeExtend(log[..|log| - 1], a, b);
    }
  }

  lemma {:induction false} RealTimeWithout(log: seq<Event>, earlier: map<nat, set<nat>>, t: nat)
    requires RealTime(log, earlier) && forall u | u in earlier :: t !in earlier[u]
    ensures RealTime(Without(log, t), earlier)
  {
    if log != [] {
      var init, e := log[..|log| - 1], log[|log| - 1];
      RealTimeWithout(init, earlier, t);
      if e.txn == t {
        assert Without(log, t) == Without(init, t);
      } else {
        forall u | u in earlier[e.txn]
          ensures Count(Without(init, t), u) >= 1
        {
          WithoutCounts(init, t, u);
        }
        RealTimeAppend(Without(init, t), earlier, e);
      }
    }
  }

  lemma AppendCount(log: seq<Event>, e: Event, t: nat)
    ensures Count(log + [e], t) == Count(log, t) + if e.txn == t then 1 else 0
  {
    assert (log + [e])[..|log|] == log;
  }

  lemma AppendQuiet(log: seq<Event>, e: Event, t: nat, k: IdemKey)
    requires QuietAfter(log, t, k) && (e.txn == t || !Touches(e.call, k))
    ensures QuietAfter(log + [e], t, k)
  {
    assert (log + [e])[..|log|] == log;
  }

  /** A call that touches no key left open answers the same on the explained store and on the
      committed one, and keeps them apart by exactly those keys. */
  lemma AppendLog(start: Db, db: Db, log: seq<Event>, residue: map<IdemKey, IdemRow>, e: Event)
    requires LogOk(start, db, log, residue) && Untouched(e.call, residue.Keys) && !e.call.Purge?
    requires Admissible(db, e.call, e.id) && Exec(db, e.call, e.id).outcome == e.outcome
    ensures LogOk(start, Exec(db, e.call, e.id).db, log + [e], residue)
  {
    var full := Replay(start, log);
    var ks := residue.Keys;
    Frame(full, e.call, e.id, ks);
    FrameKeeps(full, e.call, e.id, ks);
    FaithfulAppend(start, log, e);
  }

  /** Setting one more key apart. */
  lemma SetApart(start: Db, db: Db, c: Call, log: seq<Event>, residue: map<IdemKey, IdemRow>)
    requires (c.Remember? || c.Revise?) && Keyed(c) && KeyFor(c) !in db.idem
    requires LogOk(start, WithOpenKey(db, c), log, residue)
    ensures LogOk(start, db, log, residue[KeyFor(c) := OpenRow(c)])
  {
    hide Replay, Faithful, NoPurges;
    var k, full := KeyFor(c), Replay(start, log);
    var ks := residue.Keys;
    assert (full.idem - ks)[k] == OpenRow(c);
    assert residue[k := OpenRow(c)].Keys == ks + {k};
    DropOneMore(full.idem, ks, k, db.idem, OpenRow(c));
    assert Drop(full, ks + {k}) == db;
  }

  lemma DropOneMore(full: map<IdemKey, IdemRow>, ks: set<IdemKey>, k: IdemKey, idem: map<IdemKey, IdemRow>, row: IdemRow)
    requires full - ks == idem[k := row] && k !in idem
    ensures full - (ks + {k}) == idem
  {
    assert full - (ks + {k}) == (full - ks) - {k};
    assert idem[k := row] - {k} == idem;
  }

  /** Committing a key that was set apart. */
  lemma PutBack(start: Db, db: Db, c: Call, log: seq<Event>, residue: map<IdemKey, IdemRow>)
    requires (c.Remember? || c.Revise?) && Keyed(c) && KeyFor(c) in residue && residue[KeyFor(c)] == OpenRow(c)
    requires LogOk(start, db, log, residue)
    ensures LogOk(start, WithOpenKey(db, c), log, residue - {KeyFor(c)})
  {
    var k, full := KeyFor(c), Replay(start, log);
    var ks := residue.Keys;
    assert (residue - {k}).Keys == ks - {k};
    assert full.idem - (ks - {k}) == (full.idem - ks)[k := OpenRow(c)];
    assert Drop(full, ks - {k}) == WithOpenKey(db, c);
  }
}
