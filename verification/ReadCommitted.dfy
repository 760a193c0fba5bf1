/** Service calls running statement by statement, many at a time, under READ COMMITTED.

    Each live transaction is somewhere between two statements.  A statement sees the
    latest committed rows; an UPDATE that finds a matching row locked waits for the
    holder and then evaluates its WHERE clause again on the newest committed version.
    Writes stay private until COMMIT; an error or a crash discards them. */
module ReadCommitted {
  import opened Basics
  import opened Schema
  import opened Calls
  import opened Invariants
  import opened History
  import Sorting

  /** An idempotency row is locked exclusively by its inserter, in share mode by its readers. */
  datatype KeyHold = NotHeld | Owned | Shared

  /** The statement a transaction will execute next. */
  datatype Pc =
    | AtKey(attempt: nat)                 // INSERT the idempotency key ... ON CONFLICT DO NOTHING
    | AtWait(attempt: nat)                // SELECT the idempotency key ... FOR SHARE
    | AtReplay(found: MemoryId)           // re-read the memory of a stored response
    | AtClaim                             // remember: INSERT the dedup key of the speculative row
    | AtHolder                            // remember: who holds the dedup key
    | AtExisting(found: MemoryId)         // remember: read the holder
    | AtTarget(i: nat, matched: bool)     // remember: supersede the i-th target, or wait for its row
    | AtGet                               // revise: read the memory
    | AtCas(matched: bool)                // revise: compare and set, or wait for the row
    | AtReread                            // revise: report what won
    | AtExists                            // forget: does the memory exist
    | AtForget(matched: bool)             // forget: tombstone, or wait for the row
    | Ready(outcome: Outcome)             // writes done, COMMIT next
    | Read(outcome: Outcome)              // answered from what it read, COMMIT next
    | Failing(error: Error)               // an exception: ROLLBACK next

  /** `rows` are the memory rows this transaction has updated and keeps locked;
      `claimed` says that it has inserted the dedup key of its new memory, `attested` that
      it has counted its client for the memory it found instead. */
  datatype Txn = Txn(
    call: Call,
    id: MemoryId,
    pc: Pc,
    hold: KeyHold,
    claimed: bool,
    rows: seq<MemoryId>,
    skipped: seq<MemoryId>,
    attested: bool)

  /** `done` holds the committed calls with their answers and `trail` lists them in the order
      they committed; `earlier` says which were already committed when a transaction began.
      `log` is the serial order claimed for the run and `residue` the key rows of transactions
      answered but not yet committed.  All of these are history: no step looks at them. */
  datatype Sys = Sys(
    db: Db,
    live: map<nat, Txn>,
    done: map<nat, Event>,
    trail: seq<Event>,
    earlier: map<nat, set<nat>>,
    log: seq<Event>,
    residue: map<IdemKey, IdemRow>)

  datatype Move =
    | Begin(t: nat, call: Call, id: MemoryId)
    | Advance(t: nat)
    | Attest(t: nat)
    | Commit(t: nat)
    | Abort(t: nat)
    | Background(t: nat, call: Call)

  function Initial(db: Db): Sys {
    Sys(db, map[], map[], [], map[], [], map[])
  }

  // ---- beginning -------------------------------------------------------------

  predicate IsWrite(c: Call) {
    c.Remember? || c.Revise? || c.Forget?
  }

  /** The memory ids a caller names. */
  function Mentions(c: Call): set<MemoryId>
    requires IsWrite(c)
  {
    if c.Remember? then set x | x in c.supersedes else {c.target}
  }

  /** The expected revision of a revise is one that has been committed, as it is for a caller who
      has read it.  The machine does not ask for this. */
  predicate HasRead(db: Db, c: Call) {
    c.Revise? && c.target in db.memories ==> c.expected <= db.memories[c.target].current
  }

  function BodyPc(c: Call): Pc
    requires IsWrite(c)
  {
    if c.Remember? then AtClaim else if c.Revise? then AtGet else AtExists
  }

  function StartPc(c: Call): Pc
    requires IsWrite(c)
  {
    if !c.Forget? && !ArgumentsOk(c) then Failing(ValidationFailed)
    else if !Keyed(c) then BodyPc(c)
    else if !KeyLengthOk(Strip(c.key.value)) then Failing(ValidationFailed)
    else AtKey(0)
  }

  /** A new id is random: never issued before, and nobody can name it before it is reported. */
  ghost predicate FreshId(s: Sys, c: Call, id: MemoryId)
    requires IsWrite(c)
  {
    && id !in s.db.birth && id !in Mentions(c)
    && forall u | u in s.live ::
         && s.live[u].id != id && s.live[u].id !in Mentions(c)
         && IsWrite(s.live[u].call) && id !in Mentions(s.live[u].call)
  }

  // ---- waiting ---------------------------------------------------------------

  function Order(c: Call): seq<MemoryId>
    requires c.Remember?
  {
    Sorting.Ascending(c.supersedes)
  }

  /** The memory row whose lock this transaction is waiting to get. */
  function WantedRow(x: Txn): Option<MemoryId> {
    match x.pc
    case AtTarget(i, true) =>
      if x.call.Remember? && i < |Order(x.call)| then Some(Order(x.call)[i]) else None
    case AtCas(true) => if x.call.Revise? then Some(x.call.target) else None
    case AtForget(true) => if x.call.Forget? then Some(x.call.target) else None
    case _ => None
  }

  predicate WaitsForKey(x: Txn, y: Txn) {
    && x.pc.AtKey? && Keyed(x.call)
    && y.hold == Owned && Keyed(y.call) && KeyFor(x.call) == KeyFor(y.call)
  }

  /** ON CONFLICT waits for a transaction inserting the same dedup key, and for one deleting it. */
  predicate WaitsForDedup(db: Db, x: Txn, y: Txn) {
    && x.pc.AtClaim? && x.call.Remember?
    && (|| (y.claimed && y.call.Remember? && DedupKeyFor(x.call) == DedupKeyFor(y.call))
        || (!y.call.Revise? && DedupKeyFor(x.call) in db.dedup && db.dedup[DedupKeyFor(x.call)] in y.rows))
  }

  predicate WaitsForRow(x: Txn, y: Txn) {
    WantedRow(x).Some? && WantedRow(x).value in y.rows
  }

  /** A deduplicated remember that has yet to count its client. */
  predicate Attests(x: Txn) {
    x.call.Remember? && x.pc.Read? && x.pc.outcome.Deduplicated? && !x.attested
  }

  /** The upsert of an attestation waits for another upsert of the same row.  The row a creating
      remember attests is of a memory nobody else can name yet, so nobody waits for that one. */
  predicate WaitsForAttestation(x: Txn, y: Txn) {
    && Attests(x)
    && y.attested && y.call.Remember? && y.pc.Read? && y.pc.outcome.Deduplicated?
    && x.pc.outcome.view.id == y.pc.outcome.view.id && x.call.author == y.call.author
  }

  /** x cannot execute its next statement before y ends. */
  predicate Waits(db: Db, x: Txn, y: Txn) {
    WaitsForKey(x, y) || WaitsForDedup(db, x, y) || WaitsForRow(x, y) || WaitsForAttestation(x, y)
  }

  predicate Blocked(s: Sys, t: nat)
    requires t in s.live
  {
    exists u | u in s.live :: u != t && Waits(s.db, s.live[t], s.live[u])
  }

  // ---- one statement ---------------------------------------------------------

  function SeeMemory(db: Db, c: Call, x: MemoryId, answer: View -> Outcome): Pc
    requires IsWrite(c)
  {
    if Visible(db, c.project, x, c.now) then Read(answer(ViewOf(db, x))) else Failing(MemoryNotFound)
  }

  function KeyStep(db: Db, x: Txn): Txn
    requires (x.call.Remember? || x.call.Revise?) && Keyed(x.call) && (x.pc.AtKey? || x.pc.AtWait? || x.pc.AtReplay?)
  {
    match x.pc
    case AtKey(a) =>
      if KeyFor(x.call) in db.idem then x.(pc := AtWait(a))
      else x.(hold := Owned, pc := BodyPc(x.call))
    case AtWait(a) =>
      if KeyFor(x.call) !in db.idem then
        x.(pc := if a + 1 < MAX_CLAIM_ATTEMPTS then AtKey(a + 1) else Failing(ClaimExhausted))
      else
        (match JudgeRow(db.idem[KeyFor(x.call)], x.call)
         case Replaying(m) => x.(hold := Shared, pc := AtReplay(m))
         case Refused(e) => x.(hold := Shared, pc := Failing(e))
         case _ => x)
    case AtReplay(m) => x.(pc := SeeMemory(db, x.call, m, v => Replayed(v)))
  }

  /** After the last target: complete the key under the name the caller wrote, or fail. */
  function FinishRemember(x: Txn): Txn
    requires x.call.Remember?
  {
    x.(pc := if Completable(x.call) then Ready(Created(View(x.id, 1, x.call.text), x.rows, x.skipped))
             else Failing(KeyVanished))
  }

  function TargetStep(db: Db, x: Txn): Txn
    requires x.call.Remember? && x.pc.AtTarget?
  {
    var i := x.pc.i;
    if i >= |Order(x.call)| then FinishRemember(x)
    else
      var m := Order(x.call)[i];
      if m == x.id || !Retirable(db.memories, x.call.project, m) then
        x.(pc := AtTarget(i + 1, false), skipped := x.skipped + [m])
      else if !x.pc.matched then x.(pc := AtTarget(i, true))
      else x.(pc := AtTarget(i + 1, false), rows := x.rows + [m])
  }

  function RememberStep(db: Db, x: Txn): Txn
    requires x.call.Remember? && (x.pc.AtClaim? || x.pc.AtHolder? || x.pc.AtExisting? || x.pc.AtTarget?)
  {
    var k := DedupKeyFor(x.call);
    match x.pc
    case AtClaim => if k in db.dedup then x.(pc := AtHolder) else x.(claimed := true, pc := AtTarget(0, false))
    case AtHolder => x.(pc := if k in db.dedup then AtExisting(db.dedup[k]) else Failing(MemoryNotFound))
    case AtExisting(m) => x.(pc := SeeMemory(db, x.call, m, v => Deduplicated(v)))
    case AtTarget(_, _) => TargetStep(db, x)
  }

  function ReviseStep(db: Db, x: Txn): Txn
    requires x.call.Revise? && (x.pc.AtGet? || x.pc.AtCas? || x.pc.AtReread?)
  {
    var c := x.call;
    match x.pc
    case AtGet => x.(pc := if Visible(db, c.project, c.target, c.now) then AtCas(false) else Failing(MemoryNotFound))
    case AtCas(matched) =>
      if !CasMatches(db.memories, c.project, c.target, c.expected) then x.(pc := AtReread)
      else if !matched then x.(pc := AtCas(true))
      else
        var n := db.memories[c.target].current;
        x.(rows := [c.target],
           pc := if Completable(c) then Ready(Revised(View(c.target, n + 1, c.text), n)) else Failing(KeyVanished))
    case AtReread => x.(pc := SeeMemory(db, c, c.target, v => Conflicted(v)))
  }

  function ForgetStep(db: Db, x: Txn): Txn
    requires x.call.Forget? && (x.pc.AtExists? || x.pc.AtForget?)
  {
    var c := x.call;
    match x.pc
    case AtExists =>
      x.(pc := if c.target in db.memories && db.memories[c.target].project == c.project then AtForget(false)
               else Failing(MemoryNotFound))
    case AtForget(matched) =>
      if !Retirable(db.memories, c.project, c.target) then x.(pc := Read(AlreadyForgotten(c.target)))
      else if !matched then x.(pc := AtForget(true))
      else x.(rows := [c.target], pc := Ready(Forgotten(c.target)))
  }

  /** The statement at hand belongs to the call being made. */
  predicate Fits(x: Txn) {
    match x.pc
    case AtKey(_) => Keyed(x.call)
    case AtWait(_) => Keyed(x.call)
    case AtReplay(_) => Keyed(x.call)
    case AtClaim => x.call.Remember?
    case AtHolder => x.call.Remember?
    case AtExisting(_) => x.call.Remember?
    case AtTarget(_, _) => x.call.Remember?
    case AtGet => x.call.Revise?
    case AtCas(_) => x.call.Revise?
    case AtReread => x.call.Revise?
    case AtExists => x.call.Forget?
    case AtForget(_) => x.call.Forget?
    case _ => false
  }

  function StepTxn(db: Db, x: Txn): Txn
    requires Fits(x)
  {
    if x.pc.AtKey? || x.pc.AtWait? || x.pc.AtReplay? then KeyStep(db, x)
    else if x.call.Remember? then RememberStep(db, x)
    else if x.call.Revise? then ReviseStep(db, x)
    else ForgetStep(db, x)
  }

  // ---- ending ----------------------------------------------------------------

  function Locked(x: Txn): set<MemoryId> {
    set m | m in x.rows
  }

  /** What COMMIT makes visible: the private rows of the transaction. */
  function Install(db: Db, x: Txn): Db
    requires IsWrite(x.call)
  {
    if x.call.Remember? then CreateWith(db, x.call, x.id, Locked(x))
    else if x.call.target !in db.memories then db
    else if x.call.Revise? then ReviseWith(db, x.call)
    else ForgetWith(db, x.call.project, x.call.target, x.call.now)
  }

  predicate LeavesOpenKey(x: Txn) {
    x.pc.Read? && x.hold == Owned && Keyed(x.call)
  }

  function Without(log: seq<Event>, t: nat): seq<Event> {
    if log == [] then []
    else
      var e := log[|log| - 1];
      Without(log[..|log| - 1], t) + (if e.txn == t then [] else [e])
  }

  // ---- the machine -----------------------------------------------------------

  ghost predicate Enabled(s: Sys, m: Move) {
    match m
    case Begin(t, c, id) => t !in s.earlier && IsWrite(c) && FreshId(s, c, id)
    case Advance(t) => t in s.live && Fits(s.live[t]) && !Blocked(s, t)
    case Attest(t) => t in s.live && Attests(s.live[t]) && !Blocked(s, t)
    case Commit(t) =>
      && t in s.live && IsWrite(s.live[t].call)
      && (s.live[t].pc.Ready? || s.live[t].pc.Read?) && !Attests(s.live[t])
    case Abort(t) => t in s.live
    case Background(t, c) =>
      && t !in s.earlier && (c.Collect? || c.Embed?) && Admissible(s.db, c, 0)
      && (c.Collect? ==> forall u | u in s.live && s.live[u].hold != NotHeld && Keyed(s.live[u].call) ::
            KeyFor(s.live[u].call) !in c.keys)
  }

  function NewTxn(c: Call, id: MemoryId): Txn
    requires IsWrite(c)
  {
    Txn(c, id, StartPc(c), NotHeld, false, [], [], false)
  }

  function EventOf(t: nat, x: Txn, o: Outcome): Event {
    Event(t, x.call, x.id, o)
  }

  function Answered(s: Sys, t: nat, x: Txn): Sys
    requires x.pc.Read?
  {
    s.(live := s.live[t := x],
       log := s.log + [Event(t, x.call, x.id, x.pc.outcome)],
       residue := if LeavesOpenKey(x) then s.residue[KeyFor(x.call) := OpenRow(x.call)] else s.residue)
  }

  ghost function Apply(s: Sys, m: Move): Sys
    requires Enabled(s, m)
  {
    match m
    case Begin(t, c, id) =>
      s.(live := s.live[t := NewTxn(c, id)],
         earlier := s.earlier[t := s.done.Keys])
    case Advance(t) =>
      var x := StepTxn(s.db, s.live[t]);
      if x.pc.Read? then Answered(s, t, x) else s.(live := s.live[t := x])
    case Attest(t) => s.(live := s.live[t := s.live[t].(attested := true)])
    case Commit(t) =>
      var x := s.live[t];
      var e := EventOf(t, x, x.pc.outcome);
      if x.pc.Read? then
        s.(db := if LeavesOpenKey(x) then WithOpenKey(s.db, x.call) else s.db,
           live := s.live - {t},
           done := s.done[t := e],
           trail := s.trail + [e],
           residue := if LeavesOpenKey(x) then s.residue - {KeyFor(x.call)} else s.residue)
      else
        s.(db := Install(s.db, x),
           live := s.live - {t},
           done := s.done[t := e],
           trail := s.trail + [e],
           log := s.log + [e])
    case Abort(t) =>
      var x := s.live[t];
      s.(live := s.live - {t},
         log := Without(s.log, t),
         residue := if LeavesOpenKey(x) then s.residue - {KeyFor(x.call)} else s.residue)
    case Background(t, c) =>
      var r := Exec(s.db, c, 0);
      var e := Event(t, c, 0, r.outcome);
      s.(db := r.db,
         done := s.done[t := e],
         trail := s.trail + [e],
         earlier := s.earlier[t := s.done.Keys],
         log := s.log + [e])
  }

  ghost predicate ValidRun(s: Sys, moves: seq<Move>)
    decreases |moves|
  {
    moves == [] || (Enabled(s, moves[0]) && ValidRun(Apply(s, moves[0]), moves[1..]))
  }

  /** Every revise of the run names a revision that was committed when it began. */
  ghost predicate ReadFirst(s: Sys, moves: seq<Move>)
    requires ValidRun(s, moves)
    decreases |moves|
  {
    moves == []
    || ((moves[0].Begin? ==> HasRead(s.db, moves[0].call)) && ReadFirst(Apply(s, moves[0]), moves[1..]))
  }

  ghost function Run(s: Sys, moves: seq<Move>): Sys
    requires ValidRun(s, moves)
    decreases |moves|
  {
    if moves == [] then s else Run(Apply(s, moves[0]), moves[1..])
  }
}
