/** Writers never deadlock: after the key come the dedup claim and then memory rows upward, or,
    for a deduplicated remember that holds nothing else, one attestation row. */
module Deadlock {
  import opened Basics
  import opened Schema
  import opened Calls
  import opened History
  import opened ReadCommitted
  import opened Transactions
  import opened Serializable
  import opened Interleaving
  import Sorting

  /** Where the resource a transaction is waiting for stands in the lock order. */
  function Rank(x: Txn): nat {
    match x.pc
    case AtKey(_) => 0
    case AtClaim => 1
    case Read(_) => 1
    case _ => if WantedRow(x).Some? then 2 + WantedRow(x).value else 0
  }

  /** Visited targets come before the one being waited for. */
  lemma RowsBelowWanted(db: Db, x: Txn, m: MemoryId)
    requires TxnOk(db, x) && WantedRow(x).Some? && m in x.rows
    ensures m < WantedRow(x).value
  {
    if x.pc.AtTarget? {
      var order := Order(x.call);
      OrderMembers(x.call);
      PickedMembers(db.memories, x.call.project, x.id, order[..x.pc.i]);
      assert m in order[..x.pc.i];
    }
  }

  /** If x waits for y and y waits too, then y waits for something further up. */
  lemma WaitsClimb(db: Db, x: Txn, y: Txn, z: Txn)
    requires TxnOk(db, x) && TxnOk(db, y) && Waits(db, x, y) && Waits(db, y, z)
    ensures Rank(x) < Rank(y)
  {
    if WaitsForRow(x, y) {
      assert y.rows != [];
      RowsBelowWanted(db, y, WantedRow(x).value);
    } else if WaitsForDedup(db, x, y) {
      assert WantedRow(y).Some?;
    } else if WaitsForAttestation(x, y) {
      AttestedIsFree(db, y, z);
    } else {
      assert y.hold == Owned;
    }
  }

  /** Whoever has counted its client waits for nobody. */
  lemma AttestedIsFree(db: Db, y: Txn, z: Txn)
    requires y.attested && y.pc.Read?
    ensures !Waits(db, y, z)
  {
  }

  /** t1 waits for t2 waits for ... : consecutive live transactions, each blocked by the next. */
  ghost predicate WaitChain(s: Sys, path: seq<nat>) {
    && (forall i | 0 <= i < |path| :: path[i] in s.live)
    && (forall i | 0 <= i < |path| - 1 ::
          path[i] != path[i + 1] && Waits(s.db, s.live[path[i]], s.live[path[i + 1]]))
  }

  lemma {:induction false} ChainClimbs(s: Sys, path: seq<nat>, i: nat)
    requires TxnsOk(s.db, s.live) && WaitChain(s, path) && 0 < i < |path| - 1
    ensures Rank(s.live[path[0]]) < Rank(s.live[path[i]])
  {
    var a, b, c := s.live[path[i - 1]], s.live[path[i]], s.live[path[i + 1]];
    assert Waits(s.db, a, b) && Waits(s.db, b, c);
    WaitsClimb(s.db, a, b, c);
    if i > 1 {
      ChainClimbs(s, path, i - 1);
    }
  }

  lemma ChainOpen(s: Sys, path: seq<nat>)
    requires TxnsOk(s.db, s.live) && WaitChain(s, path) && |path| >= 2
    ensures path[0] != path[|path| - 1]
  {
    hide TxnsOk, Waits;
    if path[0] == path[|path| - 1] {
      assert path[0] != path[1];
      var again := path + [path[1]];
      forall i | 0 <= i < |again| - 1
        ensures again[i] != again[i + 1] && Waits(s.db, s.live[again[i]], s.live[again[i + 1]])
      {
        if i == |path| - 1 {
          assert again[i] == path[0] && again[i + 1] == path[1];
        } else {
          assert again[i] == path[i] && again[i + 1] == path[i + 1];
        }
      }
      ChainClimbs(s, again, |path| - 1);
    }
  }

  lemma ReachableTxnsOk(start: Db, moves: seq<Move>)
    requires WellFormed(start) && ValidRun(Initial(start), moves)
    ensures TxnsOk(Run(Initial(start), moves).db, Run(Initial(start), moves).live)
  {
    hide WellFormed, TxnsOk;
    EveryRunIsSound(start, moves);
  }

  /** No wait-for cycle, of any length, in any reachable state. */
  lemma {:induction false} NoWaitCycle(start: Db, moves: seq<Move>, path: seq<nat>)
    requires WellFormed(start) && ValidRun(Initial(start), moves)
    requires var s := Run(Initial(start), moves);
             && |path| >= 2 && (forall i | 0 <= i < |path| :: path[i] in s.live)
             && forall i | 0 <= i < |path| - 1 :: path[i] != path[i + 1] && Waits(s.db, s.live[path[i]], s.live[path[i + 1]])
    ensures path[0] != path[|path| - 1]
  {
    hide TxnsOk, WellFormed, Waits;
    ReachableTxnsOk(start, moves);
    ChainOpen(Run(Initial(start), moves), path);
  }

  ghost function MaxRank(live: Live, ts: set<nat>): nat
    requires ts <= live.Keys
    ensures forall t | t in ts :: Rank(live[t]) <= MaxRank(live, ts)
  {
    if ts == {} then 0
    else
      var t :| t in ts;
      var rest := MaxRank(live, ts - {t});
      if Rank(live[t]) > rest then Rank(live[t]) else rest
  }

  /** Following blockers upward ends at a transaction that is not blocked. */
  lemma {:induction false} Unblocked(s: Sys, t: nat) returns (u: nat)
    requires TxnsOk(s.db, s.live) && t in s.live
    ensures u in s.live && !Blocked(s, u)
    decreases MaxRank(s.live, s.live.Keys) - Rank(s.live[t]), if Blocked(s, t) then 1 else 0
  {
    if Blocked(s, t) {
      var v :| v in s.live && v != t && Waits(s.db, s.live[t], s.live[v]);
      if Blocked(s, v) {
        var w :| w in s.live && w != v && Waits(s.db, s.live[v], s.live[w]);
        WaitsClimb(s.db, s.live[t], s.live[v], s.live[w]);
        u := Unblocked(s, v);
      } else {
        u := v;
      }
    } else {
      u := t;
    }
  }

  /** In every reachable state with work in progress, somebody can move without rolling back. */
  lemma {:induction false} AlwaysProgress(start: Db, moves: seq<Move>)
    requires WellFormed(start) && ValidRun(Initial(start), moves)
    requires Run(Initial(start), moves).live != map[]
    ensures var s := Run(Initial(start), moves);
            exists t :: t in s.live && (|| Enabled(s, Advance(t)) || Enabled(s, Attest(t)) || Enabled(s, Commit(t))
                                        || s.live[t].pc.Failing?)
  {
    hide WellFormed, TxnsOk, Run, ValidRun, TxnOk, Blocked, Fits;
    ReachableTxnsOk(start, moves);
    var s := Run(Initial(start), moves);
    var t :| t in s.live;
    var u := Unblocked(s, t);
    OneOk(s.db, s.live, u);
    PointFits(s.db, s.live[u]);
  }

  lemma PointFits(db: Db, x: Txn)
    requires TxnOk(db, x)
    ensures Fits(x) || x.pc.Ready? || x.pc.Read? || x.pc.Failing?
  {
  }

  // ---- attestations ----------------------------------------------------------

  /** x holds the attestation row of this memory for this client. */
  predicate HoldsNote(x: Txn, m: MemoryId, client: Client) {
    x.attested && x.call.Remember? && x.pc.Read? && x.pc.outcome.Deduplicated?
    && x.pc.outcome.view.id == m && x.call.author == client
  }

  ghost predicate NotesApart(live: Live) {
    && (forall t | t in live && live[t].attested :: live[t].pc.Read?)
    && forall t, u, m, client | t in live && u in live && HoldsNote(live[t], m, client) && HoldsNote(live[u], m, client) :: t == u
  }

  lemma MoveKeepsNotes(s: Sys, m: Move)
    requires NotesApart(s.live) && Enabled(s, m)
    ensures NotesApart(Apply(s, m).live)
  {
    hide Apply, Enabled, HoldsNote, Attests, Blocked;
    var after := Apply(s, m).live;
    OnlyReadersCount(s, m);
    forall t, u, x, client | t in after && u in after && HoldsNote(after[t], x, client) && HoldsNote(after[u], x, client)
      ensures t == u
    {
      NoteWasHeld(s, m, t, x, client);
      NoteWasHeld(s, m, u, x, client);
      if t != u {
        if m == Move.Attest(t) {
          NoteBlocks(s, t, u, x, client);
          NotBlocked(s, t);
        } else if m == Move.Attest(u) {
          NoteBlocks(s, u, t, x, client);
          NotBlocked(s, u);
        }
      }
    }
  }

  lemma OnlyReadersCount(s: Sys, m: Move)
    requires (forall t | t in s.live && s.live[t].attested :: s.live[t].pc.Read?) && Enabled(s, m)
    ensures forall t | t in Apply(s, m).live && Apply(s, m).live[t].attested :: Apply(s, m).live[t].pc.Read?
  {
    hide Exec, Install, Blocked, StepTxn, StartPc;
    if m.Advance? {
      StepsUncounted(s.db, s.live[m.t]);
    }
  }

  lemma NotBlocked(s: Sys, t: nat)
    requires t in s.live
    ensures Enabled(s, Move.Attest(t)) ==> !Blocked(s, t)
  {
  }

  predicate WantsNote(x: Txn, m: MemoryId, client: Client) {
    Attests(x) && x.pc.outcome.view.id == m && x.call.author == client
  }

  lemma NoteBlocks(s: Sys, t: nat, u: nat, x: MemoryId, client: Client)
    requires t in s.live && u in s.live && t != u && WantsNote(s.live[t], x, client)
    ensures HoldsNote(s.live[u], x, client) ==> Blocked(s, t)
  {
    if HoldsNote(s.live[u], x, client) {
      assert WaitsForAttestation(s.live[t], s.live[u]);
      assert Waits(s.db, s.live[t], s.live[u]);
    }
  }

  /** Whoever holds a note after a move held it before or has just counted. */
  lemma NoteWasHeld(s: Sys, m: Move, t: nat, x: MemoryId, client: Client)
    requires NotesApart(s.live) && Enabled(s, m) && t in Apply(s, m).live && HoldsNote(Apply(s, m).live[t], x, client)
    ensures t in s.live && (HoldsNote(s.live[t], x, client) || (m == Move.Attest(t) && WantsNote(s.live[t], x, client)))
  {
    hide Exec, Install, Blocked, StepTxn, StartPc;
    if m.Advance? && m.t == t {
      StepsUncounted(s.db, s.live[t]);
    }
  }

  /** A statement counts nobody. */
  lemma StepsUncounted(db: Db, x: Txn)
    requires Fits(x)
    ensures StepTxn(db, x).attested == x.attested && !x.pc.Read?
  {
  }

  lemma {:induction false} RunKeepsNotes(s: Sys, moves: seq<Move>)
    requires NotesApart(s.live) && ValidRun(s, moves)
    ensures NotesApart(Run(s, moves).live)
    decreases |moves|
  {
    hide Apply, Enabled, NotesApart;
    if moves != [] {
      MoveKeepsNotes(s, moves[0]);
      RunKeepsNotes(Apply(s, moves[0]), moves[1..]);
    }
  }

  /** In no reachable state have two transactions counted one client for one memory: the second
      upsert of the row waits for the first to end. */
  lemma {:induction false} AttestationsApart(start: Db, moves: seq<Move>, t: nat, u: nat)
    requires ValidRun(Initial(start), moves)
    requires var live := Run(Initial(start), moves).live;
             && t in live && u in live && live[t].attested && live[u].attested
             && live[t].call.Remember? && live[u].call.Remember? && live[t].call.author == live[u].call.author
             && live[t].pc.Read? && live[u].pc.Read? && live[t].pc.outcome.Deduplicated? && live[u].pc.outcome.Deduplicated?
             && live[t].pc.outcome.view.id == live[u].pc.outcome.view.id
    ensures t == u
  {
    hide Run, ValidRun;
    assert NotesApart(Initial(start).live);
    RunKeepsNotes(Initial(start), moves);
    var live := Run(Initial(start), moves).live;
    var x, client := live[t].pc.outcome.view.id, live[t].call.author;
    assert HoldsNote(live[t], x, client) && HoldsNote(live[u], x, client);
  }

  ghost predicate Counted(s: Sys, moves: seq<Move>, v: Event) {
    v in s.trail || Move.Attest(v.txn) in moves || (v.txn in s.live && s.live[v.txn].attested)
  }

  lemma OneCounts(s: Sys, m: Move, v: Event)
    requires TxnsOk(s.db, s.live) && Enabled(s, m) && v.call.Remember? && v.outcome.Deduplicated?
    ensures v in Apply(s, m).trail ==> v in s.trail || (v.txn in s.live && s.live[v.txn].attested)
    ensures v.txn in Apply(s, m).live && Apply(s, m).live[v.txn].attested ==>
              m == Move.Attest(v.txn) || (v.txn in s.live && s.live[v.txn].attested)
  {
    hide Install, Blocked, StepTxn, StartPc, ExecCollect, ExecEmbed, TxnOk;
    if m.Advance? {
      StepsUncounted(s.db, s.live[m.t]);
    } else if m.Commit? {
      ReadyIsNoDuplicate(s.db, s.live[m.t]);
    }
  }

  lemma ReadyIsNoDuplicate(db: Db, x: Txn)
    requires TxnOk(db, x)
    ensures x.pc.Ready? ==> !x.pc.outcome.Deduplicated?
  {
  }

  lemma {:induction false} TrailCounted(s: Sys, moves: seq<Move>, v: Event)
    requires Sound(s) && ValidRun(s, moves) && v in Run(s, moves).trail && v.call.Remember? && v.outcome.Deduplicated?
    ensures Counted(s, moves, v)
    decreases |moves|
  {
    hide Apply, Enabled, WellFormed, TxnsOk;
    if moves != [] {
      MoveSound(s, moves[0]);
      TrailCounted(Apply(s, moves[0]), moves[1..], v);
      OneCounts(s, moves[0], v);
      assert moves[0] in moves && forall m | m in moves[1..] :: m in moves;
    }
  }

  /** Every committed remember that found the memory already there has counted its client. */
  lemma {:induction false} DeduplicatedHasCounted(start: Db, moves: seq<Move>, v: Event)
    requires WellFormed(start) && ValidRun(Initial(start), moves) && v in Run(Initial(start), moves).trail
    requires v.call.Remember? && v.outcome.Deduplicated?
    ensures Move.Attest(v.txn) in moves
  {
    hide Run, ValidRun, Sound, WellFormed;
    InitialSound(start);
    TrailCounted(Initial(start), moves, v);
  }
}
