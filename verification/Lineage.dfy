/** Walking from a retired memory to the one that is current now. */
module Lineage {
  import opened Basics
  import opened Schema
  import opened Calls
  import opened Invariants
  import opened History

  const MAX_LINEAGE_DEPTH: nat := 64

  /** The recursive query: one row per depth, at most MAX_LINEAGE_DEPTH steps from the start. */
  function Walk(memories: map<MemoryId, Memory>, project: ProjectId, x: MemoryId, depth: nat): seq<MemoryId>
    requires depth <= MAX_LINEAGE_DEPTH
    decreases MAX_LINEAGE_DEPTH - depth
  {
    if x !in memories || memories[x].project != project then []
    else if memories[x].supersededBy.Some? && depth < MAX_LINEAGE_DEPTH
    then [x] + Walk(memories, project, memories[x].supersededBy.value, depth + 1)
    else [x]
  }

  function Lineage(db: Db, project: ProjectId, x: MemoryId): seq<MemoryId> {
    Walk(db.memories, project, x, 0)
  }

  ghost function Remaining(birth: map<MemoryId, nat>, x: MemoryId): nat {
    if x in birth && birth[x] < |birth| then |birth| - birth[x] else 0
  }

  /** The whole chain of successors.  It ends because a successor is always younger. */
  ghost function Chain(db: Db, x: MemoryId): (r: seq<MemoryId>)
    requires MemoriesOk(db.memories, db.birth) && x in db.memories
    decreases Remaining(db.birth, x)
  {
    assert RowChecks(x, db.memories[x]) && SuccessorOk(db.memories, db.birth, x);
    if db.memories[x].supersededBy.Some? then [x] + Chain(db, db.memories[x].supersededBy.value) else [x]
  }

  /** Each member is superseded by the next, and members grow strictly younger. */
  lemma {:induction false} ChainLinks(db: Db, x: MemoryId, i: nat)
    requires MemoriesOk(db.memories, db.birth) && x in db.memories && i < |Chain(db, x)|
    ensures Chain(db, x)[i] in db.memories && Chain(db, x)[i] in db.birth
    ensures db.memories[Chain(db, x)[i]].project == db.memories[x].project
    ensures i > 0 ==> db.birth[Chain(db, x)[0]] < db.birth[Chain(db, x)[i]]
    ensures i + 1 < |Chain(db, x)| ==> db.memories[Chain(db, x)[i]].supersededBy == Some(Chain(db, x)[i + 1])
    ensures i + 1 == |Chain(db, x)| ==> db.memories[Chain(db, x)[i]].supersededBy == None
    decreases Remaining(db.birth, x)
  {
    assert RowChecks(x, db.memories[x]) && SuccessorOk(db.memories, db.birth, x);
    if i > 0 {
      var w := db.memories[x].supersededBy.value;
      ChainLinks(db, w, i - 1);
      ChainLinks(db, w, 0);
    }
  }

  /** No memory is, through any number of steps, its own successor. */
  lemma {:induction false} SupersessionAcyclic(db: Db, x: MemoryId, i: nat, j: nat)
    requires MemoriesOk(db.memories, db.birth) && x in db.memories && i < j < |Chain(db, x)|
    ensures Chain(db, x)[i] != Chain(db, x)[j]
    decreases i
  {
    ChainLinks(db, x, j);
    if i > 0 {
      assert RowChecks(x, db.memories[x]) && SuccessorOk(db.memories, db.birth, x);
      SupersessionAcyclic(db, db.memories[x].supersededBy.value, i - 1, j - 1);
    }
  }

  lemma {:induction false} WalkIsChain(db: Db, x: MemoryId, depth: nat)
    requires MemoriesOk(db.memories, db.birth) && x in db.memories && depth <= MAX_LINEAGE_DEPTH
    ensures var chain, room := Chain(db, x), MAX_LINEAGE_DEPTH + 1 - depth;
            Walk(db.memories, db.memories[x].project, x, depth) == if |chain| <= room then chain else chain[..room]
    decreases MAX_LINEAGE_DEPTH - depth
  {
    assert RowChecks(x, db.memories[x]) && SuccessorOk(db.memories, db.birth, x);
    if db.memories[x].supersededBy.Some? && depth < MAX_LINEAGE_DEPTH {
      WalkIsChain(db, db.memories[x].supersededBy.value, depth + 1);
    }
  }

  lemma LineageOf(d: Db, p: ProjectId, x: MemoryId)
    requires MemoriesOk(d.memories, d.birth) && x in d.memories
    ensures var chain := Chain(d, x);
            && |chain| >= 1 && chain[|chain| - 1] in d.memories
            && d.memories[chain[|chain| - 1]].status != SUPERSEDED
            && Lineage(d, p, x) == (if p != d.memories[x].project then []
                                    else if |chain| <= MAX_LINEAGE_DEPTH + 1 then chain
                                    else chain[..MAX_LINEAGE_DEPTH + 1])
  {
    var chain := Chain(d, x);
    ChainLinks(d, x, |chain| - 1);
    var last := chain[|chain| - 1];
    assert RowChecks(last, d.memories[last]);
    WalkIsChain(d, x, 0);
  }

  /** In every reachable store the query returns exactly the first 65 members of the true
      chain, whose last member is not superseded; from another project it sees nothing. */
  lemma LineageExact(db: Db, log: seq<Event>, p: ProjectId, x: MemoryId)
    requires WellFormed(db) && Faithful(db, log) && x in Replay(db, log).memories
    ensures var d := Replay(db, log);
            && MemoriesOk(d.memories, d.birth)
            && var chain := Chain(d, x);
               && |chain| >= 1 && chain[|chain| - 1] in d.memories
               && d.memories[chain[|chain| - 1]].status != SUPERSEDED
               && Lineage(d, p, x) == (if p != d.memories[x].project then []
                                       else if |chain| <= 65 then chain
                                       else chain[..65])
  {
    hide Chain, Lineage, Faithful, Replay, MemoriesOk;
    RunWellFormed(db, log);
    LineageOf(Replay(db, log), p, x);
  }
}
