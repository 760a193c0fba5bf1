/** What retrieval may return: the stage-0 set in its three written forms, hybrid search
    over changing snapshots, and why nothing retired ever comes back. */
module Retrieval {
  import opened Basics
  import opened Schema
  import opened Calls
  import opened Invariants
  import opened History
  import Fusion

  // ---- stage 0 ---------------------------------------------------------------

  /** The filter every lexical path is built on: (memory, revision) rows joined on id and project. */
  function CurrentRevisions(db: Db, project: ProjectId, now: Time): set<RevKey> {
    set k | k in db.revisions && k.id in db.memories
            && db.revisions[k].project == db.memories[k.id].project
            && db.memories[k.id].project == project
            && db.memories[k.id].status == ACTIVE
            && Unexpired(db.memories[k.id], now)
            && db.revisions[k].isCurrent
  }

  /** The type and tag filters: of one of the types, if any are named, and with all of the tags. */
  predicate Passes(db: Db, k: RevKey, types: set<MemoryType>, tags: seq<string>)
    requires k in db.revisions && k.id in db.memories
  {
    && (types == {} || db.memories[k.id].kind in types)
    && (forall t | t in tags :: t in db.revisions[k].tags)
  }

  /** The pool of the lexical query.  Its text match narrows this further. */
  function Matching(db: Db, project: ProjectId, now: Time, types: set<MemoryType>, tags: seq<string>): set<RevKey> {
    set k | k in CurrentRevisions(db, project, now) && Passes(db, k, types, tags)
  }

  /** The vector query, which spells the filter out again beside its join with the vectors. */
  function VectorRows(db: Db, project: ProjectId, model: Model, now: Time): set<RevKey> {
    set k | k in db.revisions && k.id in db.memories
            && db.revisions[k].project == db.memories[k.id].project
            && JobKey(k.id, k.no, model) in db.vectors
            && db.memories[k.id].project == project
            && db.memories[k.id].status == ACTIVE
            && (db.memories[k.id].expiresAt.None? || db.memories[k.id].expiresAt.value > now)
            && db.revisions[k].isCurrent
  }

  /** The coverage query: no currency flag and no project on the revision, but the row
      the memory names as current. */
  function CountedRows(db: Db, project: ProjectId, now: Time): set<RevKey> {
    set k | k in db.revisions && k.id in db.memories
            && k.no == db.memories[k.id].current
            && db.memories[k.id].project == project
            && db.memories[k.id].status == ACTIVE
            && Unexpired(db.memories[k.id], now)
  }

  function Coverage(db: Db, project: ProjectId, model: Model, now: Time): real {
    var total := CountedRows(db, project, now);
    var embedded := set k | k in total && JobKey(k.id, k.no, model) in db.vectors;
    if total == {} then 1.0 else |embedded| as real / |total| as real
  }

  /** One memory by id: the first stage-0 row with that id. */
  ghost function Get(db: Db, project: ProjectId, x: MemoryId, now: Time): Option<View> {
    if k :| k in CurrentRevisions(db, project, now) && k.id == x
    then Some(View(k.id, k.no, db.revisions[k].content)) else None
  }

  lemma RowIsCurrent(db: Db, project: ProjectId, now: Time, k: RevKey)
    requires WellFormed(db)
    ensures k in CurrentRevisions(db, project, now)
            <==> Visible(db, project, k.id, now) && k == RevKey(k.id, db.memories[k.id].current)
  {
    if k in db.revisions {
      assert RevisionOk(db.memories, k, db.revisions[k]);
    }
  }

  /** The three written forms select the same rows, one per memory, and they are the visible memories. */
  lemma FormsAgree(db: Db, project: ProjectId, model: Model, now: Time)
    requires WellFormed(db)
    ensures CountedRows(db, project, now) == CurrentRevisions(db, project, now)
    ensures VectorRows(db, project, model, now)
            == set k | k in CurrentRevisions(db, project, now) && JobKey(k.id, k.no, model) in db.vectors
    ensures forall x :: Visible(db, project, x, now) <==> exists k :: k in CurrentRevisions(db, project, now) && k.id == x
    ensures forall j, k | j in CurrentRevisions(db, project, now) && k in CurrentRevisions(db, project, now) ::
              j.id == k.id ==> j == k
  {
    forall k
      ensures k in CurrentRevisions(db, project, now)
              <==> Visible(db, project, k.id, now) && k == RevKey(k.id, db.memories[k.id].current)
      ensures k in CountedRows(db, project, now) <==> k in CurrentRevisions(db, project, now)
    {
      RowIsCurrent(db, project, now, k);
      if k in db.revisions {
        assert RevisionOk(db.memories, k, db.revisions[k]);
      }
    }
    forall x
      ensures Visible(db, project, x, now) <==> exists k :: k in CurrentRevisions(db, project, now) && k.id == x
    {
      if Visible(db, project, x, now) {
        assert RevKey(x, db.memories[x].current) in CurrentRevisions(db, project, now);
      }
    }
  }

  /** Reading by id finds a memory exactly when it is visible, and shows its current revision. */
  lemma GetFindsTheVisible(db: Db, project: ProjectId, x: MemoryId, now: Time)
    requires WellFormed(db)
    ensures Get(db, project, x, now) == if Visible(db, project, x, now) then Some(ViewOf(db, x)) else None
  {
    FormsAgree(db, project, "", now);
    if Visible(db, project, x, now) {
      RowIsCurrent(db, project, now, RevKey(x, db.memories[x].current));
    }
    if k :| k in CurrentRevisions(db, project, now) && k.id == x {
      RowIsCurrent(db, project, now, k);
    }
  }

  /** Reported coverage is a fraction, and it is complete exactly when the vector search
      can reach all that the lexical search can: when every such revision's job is done. */
  lemma CoverageMeans(db: Db, project: ProjectId, model: Model, now: Time)
    requires WellFormed(db)
    ensures 0.0 <= Coverage(db, project, model, now) <= 1.0
    ensures Coverage(db, project, model, now) == 1.0
            <==> VectorRows(db, project, model, now) == CurrentRevisions(db, project, now)
    ensures Coverage(db, project, model, now) == 1.0
            <==> forall k | k in CurrentRevisions(db, project, now) ::
                   JobKey(k.id, k.no, model) in db.jobs && db.jobs[JobKey(k.id, k.no, model)].state == DONE
    ensures Coverage(db, project, model, now) * |CurrentRevisions(db, project, now)| as real
            == |VectorRows(db, project, model, now)| as real
  {
    hide WellFormed, CurrentRevisions, VectorRows, CountedRows;
    FormsAgree(db, project, model, now);
    EmbeddedAre(db, project, model, now);
    var total := CountedRows(db, project, now);
    Fraction(VectorRows(db, project, model, now), total);
    if total != {} {
      Divided(|VectorRows(db, project, model, now)| as real, |total| as real);
    }
  }

  lemma EmbeddedAre(db: Db, project: ProjectId, model: Model, now: Time)
    requires WellFormed(db)
    ensures (set k | k in CountedRows(db, project, now) && JobKey(k.id, k.no, model) in db.vectors) == VectorRows(db, project, model, now)
    ensures VectorRows(db, project, model, now) <= CurrentRevisions(db, project, now)
    ensures VectorRows(db, project, model, now) == CurrentRevisions(db, project, now)
            <==> forall k | k in CurrentRevisions(db, project, now) ::
                   JobKey(k.id, k.no, model) in db.jobs && db.jobs[JobKey(k.id, k.no, model)].state == DONE
  {
    hide CurrentRevisions, VectorRows, CountedRows;
    FormsAgree(db, project, model, now);
  }

  lemma Divided(n: real, d: real)
    requires d != 0.0
    ensures n / d * d == n
  {
  }

  lemma Fraction(part: set<RevKey>, whole: set<RevKey>)
    requires part <= whole
    ensures |part| <= |whole| && (|part| == |whole| <==> part == whole)
    ensures whole != {} ==> 0.0 <= |part| as real / |whole| as real <= 1.0
    ensures whole != {} ==> (|part| as real / |whole| as real == 1.0 <==> part == whole)
  {
    assert whole == part + (whole - part);
    assert |whole| == |part| + |whole - part|;
    assert |whole - part| == 0 <==> whole - part == {};
    if whole != {} {
      var n, d := |part| as real, |whole| as real;
      assert 0.0 <= n <= d && d > 0.0;
      assert (n / d) * d == n;
      if n < d {
        assert n / d < 1.0;
      }
    }
  }

  // ---- never again -----------------------------------------------------------

  /** A memory that has existed and cannot be seen at one moment cannot be seen at any later one. */
  lemma HiddenStaysHidden(a: Db, b: Db, project: ProjectId, x: MemoryId, t: Time, u: Time)
    requires WellFormed(a) && WellFormed(b) && Grows(a, b) && t <= u
    requires x in a.birth && !Visible(a, project, x, t)
    ensures !Visible(b, project, x, u)
  {
    if x in a.memories && x in b.memories {
      assert RowGrows(a.memories[x], b.memories[x]);
      var k := RevKey(x, a.memories[x].current);
      assert RowChecks(x, a.memories[x]) && Gapless(a.revisions, x, a.memories[x].current);
      assert RevisionOk(a.memories, k, a.revisions[k]);
    }
  }

  lemma ReplacedStaysReplaced(a: Db, b: Db, k: RevKey)
    requires Grows(a, b) && k in a.revisions && !a.revisions[k].isCurrent
    ensures k in b.revisions ==> !b.revisions[k].isCurrent
  {
  }

  /** Over any run of calls, purges included, whatever is retired, expired, purged or
      replaced now is in no later retrieval set: lexical, vector or by id. */
  lemma NeverAgain(db: Db, log: seq<Event>, project: ProjectId, model: Model, k: RevKey, t: Time, u: Time)
    requires WellFormed(db) && Faithful(db, log) && t <= u
    requires (k.id in db.birth && !Visible(db, project, k.id, t)) || (k in db.revisions && !db.revisions[k].isCurrent)
    ensures k !in CurrentRevisions(Replay(db, log), project, u)
    ensures k !in VectorRows(Replay(db, log), project, model, u)
    ensures k.id in db.birth && !Visible(db, project, k.id, t) ==> Get(Replay(db, log), project, k.id, u) == None
  {
    hide WellFormed;
    var later := Replay(db, log);
    RunWellFormed(db, log);
    RunGrows(db, log);
    if k.id in db.birth && !Visible(db, project, k.id, t) {
      HiddenStaysHidden(db, later, project, k.id, t, u);
      RowIsCurrent(later, project, u, k);
      GetFindsTheVisible(later, project, k.id, u);
    } else {
      ReplacedStaysReplaced(db, later, k);
    }
  }

  // ---- hybrid search ---------------------------------------------------------

  /** How the semantic half of a search ends: with rows, without an embedder, cancelled by
      the statement timeout, or with some other database error. */
  datatype Leg = Neighbours(rows: seq<RevKey>) | EmbedderDown | Cancelled | Failed

  datatype Answer =
    | Found(views: seq<View>, considered: nat, coverage: real, degraded: bool)
    | SearchRaised

  /** A retriever returns some list of distinct rows of its retrieval set, no longer than asked. */
  ghost predicate DrawnFrom(rows: seq<RevKey>, pool: set<RevKey>, limit: nat) {
    && |rows| <= limit
    && (forall i | 0 <= i < |rows| :: rows[i] in pool)
    && (forall i, j | 0 <= i < j < |rows| :: rows[i] != rows[j])
  }

  function IdsOf(rows: seq<RevKey>): seq<MemoryId> {
    seq(|rows|, i requires 0 <= i < |rows| => rows[i].id)
  }

  /** The results the lexical half did not already fetch, in order. */
  ghost function MissingIds(lexical: seq<MemoryId>, top: seq<Fusion.Fused>): seq<MemoryId> {
    if top == [] then []
    else
      var x := top[|top| - 1].id;
      MissingIds(lexical, top[..|top| - 1]) + (if x in lexical then [] else [x])
  }

  /** The statement whose snapshot shows a result: the lexical query, or its own later read. */
  ghost function ReadBy(lexical: seq<MemoryId>, before: seq<Fusion.Fused>, x: MemoryId): nat {
    if x in lexical then 0 else 2 + |MissingIds(lexical, before)|
  }

  ghost function Shown(db: Db, project: ProjectId, x: MemoryId, now: Time): seq<View> {
    if Visible(db, project, x, now) then [ViewOf(db, x)] else []
  }

  /** The results in fused order, each as the statement that read it saw it, if it still did. */
  ghost function Hydrated(at: nat -> Db, project: ProjectId, now: Time, lexical: seq<MemoryId>, top: seq<Fusion.Fused>): seq<View> {
    if top == [] then []
    else
      var init, x := top[..|top| - 1], top[|top| - 1].id;
      Hydrated(at, project, now, lexical, init) + Shown(at(ReadBy(lexical, init, x)), project, x, now)
  }

  /** Rows of one retrieval set have distinct ids. */
  lemma RankingDistinct(db: Db, project: ProjectId, now: Time, rows: seq<RevKey>, pool: set<RevKey>, limit: nat)
    requires WellFormed(db) && DrawnFrom(rows, pool, limit) && pool <= CurrentRevisions(db, project, now)
    ensures Fusion.Distinct(IdsOf(rows))
    ensures forall i | 0 <= i < |rows| ::
              Visible(db, project, rows[i].id, now) && ViewOf(db, rows[i].id) == View(rows[i].id, rows[i].no, db.revisions[rows[i]].content)
  {
    forall i | 0 <= i < |rows|
      ensures Visible(db, project, rows[i].id, now) && rows[i] == RevKey(rows[i].id, db.memories[rows[i].id].current)
    {
      RowIsCurrent(db, project, now, rows[i]);
    }
  }

  lemma VectorsAreStageZero(db: Db, project: ProjectId, model: Model, now: Time)
    ensures VectorRows(db, project, model, now) <= CurrentRevisions(db, project, now)
  {
  }

  /** The dictionary of rows already fetched by the lexical half. */
  method Fetched(db: Db, project: ProjectId, now: Time, rows: seq<RevKey>, limit: nat) returns (byId: map<MemoryId, View>)
    requires WellFormed(db) && DrawnFrom(rows, CurrentRevisions(db, project, now), limit)
    ensures forall x :: x in byId <==> x in IdsOf(rows)
    ensures forall x | x in byId :: Visible(db, project, x, now) && byId[x] == ViewOf(db, x)
  {
    RankingDistinct(db, project, now, rows, CurrentRevisions(db, project, now), limit);
    byId := map[];
    for i := 0 to |rows|
      invariant forall x :: x in byId <==> exists j :: 0 <= j < i && rows[j].id == x
      invariant forall x | x in byId :: Visible(db, project, x, now) && byId[x] == ViewOf(db, x)
    {
      byId := byId[rows[i].id := View(rows[i].id, rows[i].no, db.revisions[rows[i]].content)];
    }
    forall x
      ensures x in byId <==> x in IdsOf(rows)
    {
      if x in byId {
        var j :| 0 <= j < |rows| && rows[j].id == x;
        assert IdsOf(rows)[j] == x;
      }
    }
  }

  method Missing(lexical: seq<MemoryId>, byId: map<MemoryId, View>, top: seq<Fusion.Fused>) returns (missing: seq<MemoryId>)
    requires forall x :: x in byId <==> x in lexical
    ensures missing == MissingIds(lexical, top)
  {
    missing := [];
    for i := 0 to |top|
      invariant missing == MissingIds(lexical, top[..i])
    {
      assert top[..i + 1][..i] == top[..i];
      if top[i].id !in byId {
        missing := missing + [top[i].id];
      }
    }
    assert top[..|top|] == top;
  }

  /** A result still to be read stands, in the list of those, after the ones missed before it. */
  lemma {:induction false} MissingAt(lexical: seq<MemoryId>, top: seq<Fusion.Fused>, i: nat)
    requires i < |top|
    ensures MissingIds(lexical, top[..i]) <= MissingIds(lexical, top)
    ensures top[i].id !in lexical ==>
              var n := |MissingIds(lexical, top[..i])|;
              n < |MissingIds(lexical, top)| && MissingIds(lexical, top)[n] == top[i].id
  {
    var init := top[..|top| - 1];
    if i < |init| {
      MissingAt(lexical, init, i);
      assert init[..i] == top[..i];
    }
  }

  lemma {:induction false} MissingMember(lexical: seq<MemoryId>, top: seq<Fusion.Fused>, x: MemoryId)
    requires x in MissingIds(lexical, top)
    ensures x !in lexical && exists i :: 0 <= i < |top| && top[i].id == x
  {
    var init := top[..|top| - 1];
    if x in MissingIds(lexical, init) {
      MissingMember(lexical, init, x);
      var i :| 0 <= i < |init| && init[i].id == x;
      assert top[i].id == x;
    } else {
      assert top[|top| - 1].id == x;
    }
  }

  lemma {:induction false} MissingDistinct(lexical: seq<MemoryId>, top: seq<Fusion.Fused>)
    requires forall i, j | 0 <= i < j < |top| :: top[i].id != top[j].id
    ensures Fusion.Distinct(MissingIds(lexical, top))
  {
    if top != [] {
      var init, last := top[..|top| - 1], top[|top| - 1];
      MissingDistinct(lexical, init);
      if last.id in MissingIds(lexical, init) {
        MissingMember(lexical, init, last.id);
        assert false;
      }
    }
  }

  ghost predicate ReadAs(db: Db, project: ProjectId, now: Time, rows: map<MemoryId, View>, x: MemoryId) {
    && (x in rows <==> Visible(db, project, x, now))
    && (x in rows ==> rows[x] == ViewOf(db, x))
  }

  ghost predicate AllWellFormed(at: nat -> Db) {
    forall n :: WellFormed(at(n))
  }

  /** One statement per missing result, each against the snapshot of its own moment. */
  method Hydrate(at: nat -> Db, project: ProjectId, now: Time, fetched: map<MemoryId, View>, missing: seq<MemoryId>)
    returns (byId: map<MemoryId, View>)
    requires AllWellFormed(at)
    requires Fusion.Distinct(missing)
    requires forall j | 0 <= j < |missing| :: missing[j] !in fetched
    ensures SameOutside(byId, fetched, missing)
    ensures forall j: nat | j < |missing| :: ReadAs(at(2 + j), project, now, byId, missing[j])
  {
    hide ReadAs, Get, WellFormed, Visible, ViewOf;
    byId := fetched;
    for n := 0 to |missing|
      invariant SameOutside(byId, fetched, missing[..n])
      invariant forall j: nat | j < n :: ReadAs(at(2 + j), project, now, byId, missing[j])
    {
      var x := missing[n];
      var row := GetView(at(2 + n), project, x, now);
      ghost var before := byId;
      if row.Some? {
        byId := byId[x := row.value];
      }
      ReadOne(at(2 + n), project, now, fetched, before, byId, missing, n);
      forall j: nat | j < n
        ensures ReadAs(at(2 + j), project, now, byId, missing[j])
      {
        ReadAsKept(at(2 + j), project, now, before, byId, missing[j]);
      }
    }
    assert missing[..|missing|] == missing;
  }

  ghost predicate SameOutside(rows: map<MemoryId, View>, fetched: map<MemoryId, View>, read: seq<MemoryId>) {
    forall x | x !in read :: (x in rows <==> x in fetched) && (x in fetched ==> rows[x] == fetched[x])
  }

  lemma ReadOne(db: Db, project: ProjectId, now: Time, fetched: map<MemoryId, View>,
                before: map<MemoryId, View>, rows: map<MemoryId, View>, missing: seq<MemoryId>, n: nat)
    requires n < |missing| && missing[n] !in missing[..n] && missing[n] !in fetched
    requires SameOutside(before, fetched, missing[..n])
    requires rows == if Visible(db, project, missing[n], now) then before[missing[n] := ViewOf(db, missing[n])] else before
    ensures SameOutside(rows, fetched, missing[..n + 1]) && ReadAs(db, project, now, rows, missing[n])
  {
    assert missing[..n + 1] == missing[..n] + [missing[n]];
    forall x | x !in missing[..n + 1]
      ensures (x in rows <==> x in fetched) && (x in fetched ==> rows[x] == fetched[x])
    {
      assert x !in missing[..n] && x != missing[n];
    }
  }

  /** A read by id. */
  method GetView(db: Db, project: ProjectId, x: MemoryId, now: Time) returns (row: Option<View>)
    requires WellFormed(db)
    ensures row == Get(db, project, x, now)
    ensures row == if Visible(db, project, x, now) then Some(ViewOf(db, x)) else None
  {
    GetFindsTheVisible(db, project, x, now);
    row := if Visible(db, project, x, now) then Some(ViewOf(db, x)) else None;
  }

  lemma ReadAsKept(db: Db, project: ProjectId, now: Time, rows: map<MemoryId, View>, more: map<MemoryId, View>, x: MemoryId)
    requires ReadAs(db, project, now, rows, x)
    requires x in more <==> x in rows
    requires x in rows ==> more[x] == rows[x]
    ensures ReadAs(db, project, now, more, x)
  {
  }

  /** The rows found, in fused order. */
  method Assemble(at: nat -> Db, project: ProjectId, now: Time, lexical: seq<MemoryId>, top: seq<Fusion.Fused>,
                  fetched: map<MemoryId, View>, rows: map<MemoryId, View>)
    returns (memories: seq<View>)
    requires forall x :: x in fetched <==> x in lexical
    requires forall x | x in fetched :: Visible(at(0), project, x, now) && fetched[x] == ViewOf(at(0), x)
    requires SameOutside(rows, fetched, MissingIds(lexical, top))
    requires forall j: nat | j < |MissingIds(lexical, top)| :: ReadAs(at(2 + j), project, now, rows, MissingIds(lexical, top)[j])
    ensures memories == Hydrated(at, project, now, lexical, top)
  {
    memories := [];
    for i := 0 to |top|
      invariant memories == Hydrated(at, project, now, lexical, top[..i])
    {
      var x := top[i].id;
      assert top[..i + 1][..i] == top[..i];
      MissingAt(lexical, top, i);
      if x in lexical {
        if x in MissingIds(lexical, top) {
          MissingMember(lexical, top, x);
          assert false;
        }
      } else {
        assert ReadAs(at(ReadBy(lexical, top[..i], x)), project, now, rows, x);
      }
      if x in rows {
        memories := memories + [rows[x]];
      }
    }
    assert top[..|top|] == top;
  }

  lemma TopDistinct(names: seq<Fusion.Named>, fused: seq<Fusion.Fused>, top: seq<Fusion.Fused>)
    requires Fusion.FusionOf(names, Fusion.RRF_K, map[], fused) && top <= fused
    ensures forall i, j | 0 <= i < j < |top| :: top[i].id != top[j].id
  {
    hide Fusion.ScoredAt, Fusion.Occurs;
    forall i, j | 0 <= i < j < |top|
      ensures top[i].id != top[j].id
    {
      assert top[i] == fused[i] && top[j] == fused[j];
    }
  }

  /** The dictionary, the missing rows and the final list, for results already ranked and cut. */
  method Rendered(at: nat -> Db, project: ProjectId, now: Time, lexicalRows: seq<RevKey>, limit: nat, top: seq<Fusion.Fused>)
    returns (memories: seq<View>, statements: nat)
    requires AllWellFormed(at) && DrawnFrom(lexicalRows, CurrentRevisions(at(0), project, now), limit)
    requires forall i, j | 0 <= i < j < |top| :: top[i].id != top[j].id
    ensures memories == Hydrated(at, project, now, IdsOf(lexicalRows), top)
    ensures statements == |MissingIds(IdsOf(lexicalRows), top)|
  {
    hide WellFormed, Visible, CurrentRevisions, Hydrated, MissingIds, Unexpired, DrawnFrom, ReadAs, ViewOf, Fusion.Distinct;
    var lexical := IdsOf(lexicalRows);
    var byId := Fetched(at(0), project, now, lexicalRows, limit);
    var missing := Missing(lexical, byId, top);
    MissingDistinct(lexical, top);
    forall j | 0 <= j < |missing|
      ensures missing[j] !in byId
    {
      MissingMember(lexical, top, missing[j]);
    }
    var rows := Hydrate(at, project, now, byId, missing);
    memories := Assemble(at, project, now, lexical, top, byId, rows);
    statements := |missing|;
  }

  lemma MatchingIsCurrent(db: Db, project: ProjectId, now: Time, types: set<MemoryType>, tags: seq<string>)
    ensures Matching(db, project, now, types, tags) <= CurrentRevisions(db, project, now)
    ensures Matching(db, project, now, {}, []) == CurrentRevisions(db, project, now)
  {
  }

  lemma DrawnWithin(rows: seq<RevKey>, a: set<RevKey>, b: set<RevKey>, limit: nat)
    requires DrawnFrom(rows, a, limit) && a <= b
    ensures DrawnFrom(rows, b, limit)
  {
  }

  function Listed(ids: seq<MemoryId>): set<MemoryId> {
    set x | x in ids
  }

  lemma ListedTogether(a: seq<MemoryId>, b: seq<MemoryId>)
    ensures Listed(a) + Listed(b) == set x | x in a + b
    ensures b == [] ==> Listed(a) + Listed(b) == set x | x in a
  {
  }

  /** The search itself.  at(n) is the committed store its n-th statement sees: other
      transactions may commit in between, while the clock stays that of the transaction. */
  method HybridSearch(
    at: nat -> Db, project: ProjectId, model: Model, now: Time, types: set<MemoryType>, tags: seq<string>,
    lexicalRows: seq<RevKey>, leg: Leg, limit: nat)
    returns (answer: Answer, ghost fused: seq<Fusion.Fused>, ghost top: seq<Fusion.Fused>)
    requires AllWellFormed(at)
    requires DrawnFrom(lexicalRows, Matching(at(0), project, now, types, tags), limit * Fusion.OVERFETCH)
    requires leg.Neighbours? ==> DrawnFrom(leg.rows, VectorRows(at(1), project, model, now), limit * Fusion.OVERFETCH)
    ensures answer.SearchRaised? <==> leg.Cancelled? || leg.Failed?
    ensures answer.Found? && leg.Neighbours? ==>
              Fusion.FusionOf(Fusion.Pair(IdsOf(lexicalRows), IdsOf(leg.rows)), Fusion.RRF_K, map[], fused)
    ensures answer.Found? && leg.EmbedderDown? ==>
              Fusion.FusionOf(Fusion.Pair(IdsOf(lexicalRows), []), Fusion.RRF_K, map[], fused)
    ensures answer.Found? ==>
              && top <= fused && (|fused| <= limit ==> top == fused) && (|fused| > limit ==> |top| == limit)
              && answer.views == Hydrated(at, project, now, IdsOf(lexicalRows), top)
              && answer.coverage == Coverage(at(2 + |MissingIds(IdsOf(lexicalRows), top)|), project, model, now)
    ensures answer.Found? ==>
              && (leg.Neighbours? ==> answer.considered == |set x | x in IdsOf(lexicalRows) + IdsOf(leg.rows)|)
              && (leg.EmbedderDown? ==> answer.considered == |set x | x in IdsOf(lexicalRows)|)
              && (answer.degraded <==> leg.EmbedderDown?)
  {
    hide WellFormed, Visible, CurrentRevisions, VectorRows, Hydrated, MissingIds, Coverage, Fusion.FusionOf, Unexpired, Matching, DrawnFrom, Listed, IdsOf;
    MatchingIsCurrent(at(0), project, now, types, tags);
    DrawnWithin(lexicalRows, Matching(at(0), project, now, types, tags), CurrentRevisions(at(0), project, now), limit * Fusion.OVERFETCH);
    var lexicalRanking := IdsOf(lexicalRows);
    var semanticRanking: seq<MemoryId> := [];
    var degraded, aborted := false, false;
    match leg {
      case Neighbours(rows) => semanticRanking := IdsOf(rows);
      case EmbedderDown => degraded := true;
      case Cancelled => degraded, aborted := true, true;
      case Failed => return SearchRaised, [], [];
    }
    var names := Fusion.Pair(lexicalRanking, semanticRanking);
    var ranked := Fusion.ReciprocalRankFusion(names, Fusion.RRF_K, map[]);
    fused := ranked;
    var results := ranked[..if |ranked| <= limit then |ranked| else limit];
    top := results;
    TopDistinct(names, ranked, results);
    var memories, statements := Rendered(at, project, now, lexicalRows, limit * Fusion.OVERFETCH, results);
    if aborted {
      // The transaction accepts no further statement, and the coverage query is one.
      return SearchRaised, fused, top;
    }
    ListedTogether(lexicalRanking, semanticRanking);
    var considered := Listed(lexicalRanking) + Listed(semanticRanking);
    return Found(memories, |considered|, Coverage(at(2 + statements), project, model, now), degraded), fused, top;
  }

  // ---- what a search guarantees ----------------------------------------------

  /** Every result was visible to a statement of this search, and shows what that statement saw. */
  lemma {:induction false} ResultWasVisible(
    at: nat -> Db, project: ProjectId, now: Time, lexical: seq<MemoryId>, top: seq<Fusion.Fused>, i: nat)
    requires i < |Hydrated(at, project, now, lexical, top)|
    ensures var v := Hydrated(at, project, now, lexical, top)[i];
            exists n: nat :: Visible(at(n), project, v.id, now) && v == ViewOf(at(n), v.id)
  {
    var init, x := top[..|top| - 1], top[|top| - 1].id;
    if i < |Hydrated(at, project, now, lexical, init)| {
      ResultWasVisible(at, project, now, lexical, init, i);
    } else {
      var n := ReadBy(lexical, init, x);
      assert Visible(at(n), project, x, now);
    }
  }

  /** A result that could be seen by every statement of the search is returned. */
  lemma {:induction false} VisibleIsReturned(
    at: nat -> Db, project: ProjectId, now: Time, lexical: seq<MemoryId>, top: seq<Fusion.Fused>, m: nat)
    requires m < |top| && forall n :: Visible(at(n), project, top[m].id, now)
    ensures exists i :: 0 <= i < |Hydrated(at, project, now, lexical, top)| && Hydrated(at, project, now, lexical, top)[i].id == top[m].id
  {
    hide Visible;
    var init, x := top[..|top| - 1], top[|top| - 1].id;
    var before, all := Hydrated(at, project, now, lexical, init), Hydrated(at, project, now, lexical, top);
    if m < |init| {
      VisibleIsReturned(at, project, now, lexical, init, m);
      var i :| 0 <= i < |before| && before[i].id == top[m].id;
      assert all[i] == before[i];
    } else {
      assert all[|before|].id == x;
    }
  }

  /** A search that starts after a memory was retired, purged or had expired, or after a
      revision was replaced, never returns it, whatever the rankings and the limit are and
      whatever else commits while it runs. */
  lemma SearchNeverStale(
    db: Db, log: seq<Event>, at: nat -> Db, cut: nat -> nat, project: ProjectId, t: Time, now: Time,
    lexical: seq<MemoryId>, top: seq<Fusion.Fused>, i: nat, k: RevKey)
    requires WellFormed(db) && Faithful(db, log) && t <= now
    requires forall n :: cut(n) <= |log| && at(n) == Replay(db, log[..cut(n)])
    requires (k.id in db.birth && !Visible(db, project, k.id, t)) || (k in db.revisions && !db.revisions[k].isCurrent)
    requires i < |Hydrated(at, project, now, lexical, top)|
    ensures var v := Hydrated(at, project, now, lexical, top)[i];
            RevKey(v.id, v.no) != k && (k.id in db.birth && !Visible(db, project, k.id, t) ==> v.id != k.id)
  {
    hide WellFormed, Hydrated, Faithful;
    ResultWasVisible(at, project, now, lexical, top, i);
    var v := Hydrated(at, project, now, lexical, top)[i];
    var n: nat :| Visible(at(n), project, v.id, now) && v == ViewOf(at(n), v.id);
    FaithfulPrefix(db, log, cut(n));
    RunWellFormed(db, log[..cut(n)]);
    RowIsCurrent(at(n), project, now, RevKey(v.id, v.no));
    NeverAgain(db, log[..cut(n)], project, "", k, t, now);
    GetFindsTheVisible(at(n), project, v.id, now);
  }

  lemma {:induction false} AllFetched(lexical: seq<MemoryId>, top: seq<Fusion.Fused>)
    requires forall i | 0 <= i < |top| :: top[i].id in lexical
    ensures MissingIds(lexical, top) == []
  {
    if top != [] {
      AllFetched(lexical, top[..|top| - 1]);
    }
  }

  /** Rows hydrated one for one, all from the first snapshot. */
  lemma {:induction false} HydratedLexically(
    at: nat -> Db, project: ProjectId, now: Time, lexical: seq<MemoryId>, top: seq<Fusion.Fused>)
    requires forall i | 0 <= i < |top| :: top[i].id in lexical && Visible(at(0), project, top[i].id, now)
    ensures |Hydrated(at, project, now, lexical, top)| == |top|
    ensures forall i | 0 <= i < |top| ::
              [Hydrated(at, project, now, lexical, top)[i]] == Shown(at(0), project, top[i].id, now)
  {
    if top != [] {
      HydratedLexically(at, project, now, lexical, top[..|top| - 1]);
    }
  }

  /** Without the semantic half the answer is the lexical answer cut to the limit: same rows,
      same order, no further statement to read them. */
  lemma DegradesToLexical(
    at: nat -> Db, project: ProjectId, now: Time, rows: seq<RevKey>, limit: nat, fused: seq<Fusion.Fused>)
    requires WellFormed(at(0))
    requires DrawnFrom(rows, CurrentRevisions(at(0), project, now), limit * Fusion.OVERFETCH)
    requires Fusion.FusionOf(Fusion.Pair(IdsOf(rows), []), Fusion.RRF_K, map[], fused)
    ensures var top := fused[..if |fused| <= limit then |fused| else limit];
            && MissingIds(IdsOf(rows), top) == []
            && var views := Hydrated(at, project, now, IdsOf(rows), top);
            && (|rows| <= limit ==> |views| == |rows|)
            && (|rows| > limit ==> |views| == limit)
            && forall i | 0 <= i < |views| ::
                 views[i] == View(rows[i].id, rows[i].no, at(0).revisions[rows[i]].content)
  {
    hide WellFormed, Fusion.FusionOf, CurrentRevisions;
    var lexical := IdsOf(rows);
    RankingDistinct(at(0), project, now, rows, CurrentRevisions(at(0), project, now), limit * Fusion.OVERFETCH);
    Fusion.LexicalOnly(lexical, fused);
    var top := fused[..if |fused| <= limit then |fused| else limit];
    forall i | 0 <= i < |top|
      ensures top[i].id == rows[i].id && top[i].id in lexical
    {
      assert Fusion.Ids(fused)[i] == lexical[i];
    }
    AllFetched(lexical, top);
    HydratedLexically(at, project, now, lexical, top);
  }

  lemma {:induction false} HydratedFrom(
    at: nat -> Db, project: ProjectId, now: Time, lexical: seq<MemoryId>, top: seq<Fusion.Fused>, i: nat) returns (m: nat)
    requires i < |Hydrated(at, project, now, lexical, top)|
    ensures m < |top| && top[m].id == Hydrated(at, project, now, lexical, top)[i].id
  {
    hide Visible;
    var init := top[..|top| - 1];
    if i < |Hydrated(at, project, now, lexical, init)| {
      m := HydratedFrom(at, project, now, lexical, init, i);
    } else {
      m := |init|;
    }
  }

  /** Hydration drops results but never reorders them. */
  lemma {:induction false} HydratedInOrder(
    at: nat -> Db, project: ProjectId, now: Time, lexical: seq<MemoryId>, top: seq<Fusion.Fused>, i: nat, j: nat)
    returns (m: nat, n: nat)
    requires i < j < |Hydrated(at, project, now, lexical, top)|
    ensures m < n < |top|
    ensures top[m].id == Hydrated(at, project, now, lexical, top)[i].id
    ensures top[n].id == Hydrated(at, project, now, lexical, top)[j].id
  {
    hide Visible;
    var init := top[..|top| - 1];
    if j < |Hydrated(at, project, now, lexical, init)| {
      m, n := HydratedInOrder(at, project, now, lexical, init, i, j);
    } else {
      m := HydratedFrom(at, project, now, lexical, init, i);
      n := |init|;
    }
  }

  /** Asked for at most twenty results, a search returns what both halves found before
      anything that only one of them found, whatever the rankings. */
  lemma AgreementLeadsTheResults(
    at: nat -> Db, project: ProjectId, model: Model, now: Time, rows: seq<RevKey>, found: seq<RevKey>, limit: nat,
    fused: seq<Fusion.Fused>, i: nat, j: nat)
    requires AllWellFormed(at) && limit <= 20
    requires DrawnFrom(rows, CurrentRevisions(at(0), project, now), limit * Fusion.OVERFETCH)
    requires DrawnFrom(found, VectorRows(at(1), project, model, now), limit * Fusion.OVERFETCH)
    requires Fusion.FusionOf(Fusion.Pair(IdsOf(rows), IdsOf(found)), Fusion.RRF_K, map[], fused)
    requires var views := Hydrated(at, project, now, IdsOf(rows), fused[..if |fused| <= limit then |fused| else limit]);
             && i < |views| && j < |views|
             && views[i].id in IdsOf(rows) && views[i].id in IdsOf(found)
             && !(views[j].id in IdsOf(rows) && views[j].id in IdsOf(found))
    ensures i < j
  {
    hide WellFormed, CurrentRevisions, VectorRows, Hydrated, Fusion.FusionOf;
    var top := fused[..if |fused| <= limit then |fused| else limit];
    var views := Hydrated(at, project, now, IdsOf(rows), top);
    RankingDistinct(at(0), project, now, rows, CurrentRevisions(at(0), project, now), limit * Fusion.OVERFETCH);
    VectorsAreStageZero(at(1), project, model, now);
    RankingDistinct(at(1), project, now, found, VectorRows(at(1), project, model, now), limit * Fusion.OVERFETCH);
    if j < i {
      var m, n := HydratedInOrder(at, project, now, IdsOf(rows), top, j, i);
      BothPrecedes(IdsOf(rows), IdsOf(found), limit, fused, n, m);
    }
  }

  lemma BothPrecedes(lexical: seq<MemoryId>, semantic: seq<MemoryId>, limit: nat, fused: seq<Fusion.Fused>, m: nat, n: nat)
    requires Fusion.Distinct(lexical) && Fusion.Distinct(semantic) && limit <= 20
    requires |lexical| <= limit * Fusion.OVERFETCH && |semantic| <= limit * Fusion.OVERFETCH
    requires Fusion.FusionOf(Fusion.Pair(lexical, semantic), Fusion.RRF_K, map[], fused) && m < |fused| && n < |fused|
    requires fused[m].id in lexical && fused[m].id in semantic && !(fused[n].id in lexical && fused[n].id in semantic)
    ensures m < n
  {
    hide Fusion.Score, Fusion.PlaceUnder, Fusion.Occurs;
    Fusion.PairPlaces(lexical, semantic, fused[m].id);
    Fusion.PairPlaces(lexical, semantic, fused[n].id);
    Fusion.AgreementPrecedes(lexical, semantic, limit, fused, m, n);
  }

  // ---- filters ---------------------------------------------------------------

  ghost predicate AllPass(db: Db, types: set<MemoryType>, tags: seq<string>, views: seq<View>) {
    forall i | 0 <= i < |views| ::
      var k := RevKey(views[i].id, views[i].no);
      && k in db.revisions && k.id in db.memories
      && (types == {} || db.memories[k.id].kind in types)
      && (forall t | t in tags :: t in db.revisions[k].tags)
  }

  /** What a search over one unchanging store returns. */
  ghost function Results(db: Db, project: ProjectId, now: Time, rows: seq<RevKey>, fused: seq<Fusion.Fused>, limit: nat): seq<View> {
    Hydrated(_ => db, project, now, IdsOf(rows), fused[..if |fused| <= limit then |fused| else limit])
  }

  /** Whatever is drawn and fused, every result passes the filters. */
  ghost predicate AlwaysPasses(db: Db, project: ProjectId, model: Model, now: Time, types: set<MemoryType>, tags: seq<string>, limit: nat) {
    forall rows, found, fused |
      && DrawnFrom(rows, Matching(db, project, now, types, tags), limit * Fusion.OVERFETCH)
      && DrawnFrom(found, VectorRows(db, project, model, now), limit * Fusion.OVERFETCH)
      && Fusion.FusionOf(Fusion.Pair(IdsOf(rows), IdsOf(found)), Fusion.RRF_K, map[], fused) ::
      AllPass(db, types, tags, Results(db, project, now, rows, fused, limit))
  }

  /** A result is the current row of an id that some half of the search listed. */
  lemma ResultRow(db: Db, project: ProjectId, now: Time, rows: seq<RevKey>, found: seq<RevKey>, pool: set<RevKey>,
                  fused: seq<Fusion.Fused>, limit: nat, i: nat)
    requires WellFormed(db) && pool <= CurrentRevisions(db, project, now)
    requires (forall k | k in rows :: k in pool) && (forall k | k in found :: k in pool)
    requires Fusion.FusionOf(Fusion.Pair(IdsOf(rows), IdsOf(found)), Fusion.RRF_K, map[], fused)
    requires i < |Results(db, project, now, rows, fused, limit)|
    ensures var v := Results(db, project, now, rows, fused, limit)[i]; RevKey(v.id, v.no) in pool
  {
    hide WellFormed, Hydrated, CurrentRevisions, Fusion.Score, Fusion.PlaceUnder;
    var top := fused[..if |fused| <= limit then |fused| else limit];
    var v := Results(db, project, now, rows, fused, limit)[i];
    var m := HydratedFrom(_ => db, project, now, IdsOf(rows), top, i);
    ResultWasVisible(_ => db, project, now, IdsOf(rows), top, i);
    assert top[m] == fused[m];
    Fusion.PairPlaces(IdsOf(rows), IdsOf(found), fused[m].id);
    var k := RowOfId(rows, found, v.id);
    RowIsCurrent(db, project, now, k);
  }

  lemma RowOfId(rows: seq<RevKey>, found: seq<RevKey>, x: MemoryId) returns (k: RevKey)
    requires x in IdsOf(rows) || x in IdsOf(found)
    ensures k.id == x && (k in rows || k in found)
  {
    if x in IdsOf(rows) {
      var n :| 0 <= n < |IdsOf(rows)| && IdsOf(rows)[n] == x;
      k := rows[n];
    } else {
      var n :| 0 <= n < |IdsOf(found)| && IdsOf(found)[n] == x;
      k := found[n];
    }
  }

  /** One vector hit that does not match, and nothing lexical: the search returns it. */
  lemma Unfiltered(db: Db, project: ProjectId, model: Model, now: Time, types: set<MemoryType>, tags: seq<string>, limit: nat, k: RevKey)
    requires WellFormed(db) && limit >= 1
    requires k in VectorRows(db, project, model, now) && k !in Matching(db, project, now, types, tags)
    ensures !AlwaysPasses(db, project, model, now, types, tags, limit)
  {
    hide WellFormed, Fusion.FusionOf, Fusion.Score, Fusion.PlaceUnder, Matching, VectorRows;
    var rows: seq<RevKey>, found := [], [k];
    var fused := [Fusion.Fused(k.id, Fusion.Score(Fusion.Pair([], [k.id]), Fusion.RRF_K, map[], k.id), None,
                               Fusion.PlaceUnder(Fusion.Pair([], [k.id]), "semantic", k.id))];
    Fusion.OneFound(k.id);
    assert IdsOf(rows) == [] && IdsOf(found) == [k.id];
    VectorsAreStageZero(db, project, model, now);
    RowIsCurrent(db, project, now, k);
    assert fused[..if |fused| <= limit then |fused| else limit] == fused;
    OnlyResult(db, project, now, fused[0], k);
    NotPassing(db, project, now, types, tags, k);
    var views := Results(db, project, now, rows, fused, limit);
    assert views[0] == ViewOf(db, k.id);
    assert DrawnFrom(rows, Matching(db, project, now, types, tags), limit * Fusion.OVERFETCH);
    assert DrawnFrom(found, VectorRows(db, project, model, now), limit * Fusion.OVERFETCH);
    assert !AllPass(db, types, tags, views);
  }

  lemma OnlyResult(db: Db, project: ProjectId, now: Time, f: Fusion.Fused, k: RevKey)
    requires Visible(db, project, k.id, now) && f.id == k.id
    ensures Hydrated(_ => db, project, now, [], [f]) == [ViewOf(db, k.id)]
  {
    assert [f][..0] == [];
    assert Hydrated(_ => db, project, now, [], [f][..0]) == [];
  }

  lemma NotPassing(db: Db, project: ProjectId, now: Time, types: set<MemoryType>, tags: seq<string>, k: RevKey)
    requires k in CurrentRevisions(db, project, now) && k !in Matching(db, project, now, types, tags)
    ensures k in db.revisions && k.id in db.memories && !Passes(db, k, types, tags)
  {
  }

  /** The type and tag filters hold of the results, whatever the rankings, if and only if everything
      vector search can reach passes them: they are applied to the lexical half alone. */
  lemma FiltersHoldExactly(db: Db, project: ProjectId, model: Model, now: Time, types: set<MemoryType>, tags: seq<string>, limit: nat)
    requires WellFormed(db) && limit >= 1
    ensures AlwaysPasses(db, project, model, now, types, tags, limit)
            <==> forall k | k in VectorRows(db, project, model, now) ::
                   && k in db.revisions && k.id in db.memories
                   && (types == {} || db.memories[k.id].kind in types)
                   && (forall t | t in tags :: t in db.revisions[k].tags)
  {
    hide WellFormed, Fusion.FusionOf, VectorRows, Matching, CurrentRevisions, Results, AllPass;
    ReachableMatches(db, project, model, now, types, tags);
    var pool := Matching(db, project, now, types, tags);
    if VectorRows(db, project, model, now) <= pool {
      MatchingIsCurrent(db, project, now, types, tags);
      forall rows, found, fused |
        && DrawnFrom(rows, pool, limit * Fusion.OVERFETCH)
        && DrawnFrom(found, VectorRows(db, project, model, now), limit * Fusion.OVERFETCH)
        && Fusion.FusionOf(Fusion.Pair(IdsOf(rows), IdsOf(found)), Fusion.RRF_K, map[], fused)
        ensures AllPass(db, types, tags, Results(db, project, now, rows, fused, limit))
      {
        ResultsPass(db, project, now, types, tags, rows, found, fused, limit);
      }
    } else {
      var k :| k in VectorRows(db, project, model, now) && k !in pool;
      Unfiltered(db, project, model, now, types, tags, limit, k);
    }
  }

  lemma ReachableMatches(db: Db, project: ProjectId, model: Model, now: Time, types: set<MemoryType>, tags: seq<string>)
    ensures VectorRows(db, project, model, now) <= Matching(db, project, now, types, tags)
            <==> forall k | k in VectorRows(db, project, model, now) ::
                   && k in db.revisions && k.id in db.memories
                   && (types == {} || db.memories[k.id].kind in types)
                   && (forall t | t in tags :: t in db.revisions[k].tags)
  {
  }

  lemma ResultsPass(db: Db, project: ProjectId, now: Time, types: set<MemoryType>, tags: seq<string>,
                    rows: seq<RevKey>, found: seq<RevKey>, fused: seq<Fusion.Fused>, limit: nat)
    requires WellFormed(db)
    requires forall k | k in rows :: k in Matching(db, project, now, types, tags)
    requires forall k | k in found :: k in Matching(db, project, now, types, tags)
    requires Fusion.FusionOf(Fusion.Pair(IdsOf(rows), IdsOf(found)), Fusion.RRF_K, map[], fused)
    ensures AllPass(db, types, tags, Results(db, project, now, rows, fused, limit))
  {
    hide WellFormed, Fusion.FusionOf, Results;
    var views := Results(db, project, now, rows, fused, limit);
    forall i: nat | i < |views|
      ensures RevKey(views[i].id, views[i].no) in Matching(db, project, now, types, tags)
    {
      ResultRow(db, project, now, rows, found, Matching(db, project, now, types, tags), fused, limit, i);
    }
  }
}
