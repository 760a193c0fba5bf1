/** Project resolution: hints that must agree, aliases that are learnt and never re-pointed. */
module Projects {
  import opened Basics

  type ProjectId = nat

  datatype AliasKind = GIT_REMOTE | WORKSPACE_PATH
  datatype Alias = Alias(kind: AliasKind, value: string)

  /** The hints of one call, already normalised; an empty one counts as not supplied. */
  datatype Hints = Hints(id: Option<ProjectId>, slug: Option<string>, remote: Option<string>, path: Option<string>)

  datatype Registry = Registry(slugs: map<ProjectId, string>, aliases: map<Alias, ProjectId>)

  datatype Outcome =
    | Resolved(id: ProjectId, created: bool)
    | ValidationFailed
    | NotFound
    | Ambiguous(candidates: set<ProjectId>)
    | AlreadyExists

  /** Slugs are unique and every alias belongs to an existing project. */
  ghost predicate RegistryOk(r: Registry) {
    && (forall p, q | p in r.slugs && q in r.slugs && r.slugs[p] == r.slugs[q] :: p == q)
    && (forall a | a in r.aliases :: r.aliases[a] in r.slugs)
  }

  // ---- what hints name -------------------------------------------------------

  ghost predicate SlugNames(r: Registry, s: string, p: ProjectId) {
    p in r.slugs && r.slugs[p] == s
  }

  ghost predicate AliasNames(r: Registry, kind: AliasKind, value: string, p: ProjectId) {
    Alias(kind, value) in r.aliases && r.aliases[Alias(kind, value)] == p
  }

  /** Some supplied hint names p. */
  ghost predicate Named(r: Registry, h: Hints, p: ProjectId) {
    || (h.id == Some(p) && p in r.slugs)
    || (h.slug.Some? && SlugNames(r, h.slug.value, p))
    || (h.remote.Some? && AliasNames(r, GIT_REMOTE, h.remote.value, p))
    || (h.path.Some? && AliasNames(r, WORKSPACE_PATH, h.path.value, p))
  }

  ghost function Candidates(r: Registry, h: Hints): set<ProjectId> {
    (set p | p in r.slugs && Named(r, h, p)) + (set a | a in r.aliases && Named(r, h, r.aliases[a]) :: r.aliases[a])
  }

  predicate Supplied(h: Hints) {
    h.id.Some? || h.slug.Some? || h.remote.Some? || h.path.Some?
  }

  ghost predicate SlugKnown(r: Registry, s: string) {
    exists p :: SlugNames(r, s, p)
  }

  /** The aliases a call brings, added where nobody owns them yet. */
  function Learnt(aliases: map<Alias, ProjectId>, h: Hints, p: ProjectId): map<Alias, ProjectId> {
    Learn(Learn(aliases, GIT_REMOTE, h.remote, p), WORKSPACE_PATH, h.path, p)
  }

  function Learn(aliases: map<Alias, ProjectId>, kind: AliasKind, value: Option<string>, p: ProjectId): map<Alias, ProjectId> {
    if value.None? || Alias(kind, value.value) in aliases then aliases else aliases[Alias(kind, value.value) := p]
  }

  ghost predicate IdMissing(r: Registry, h: Hints) {
    h.id.Some? && h.id.value !in r.slugs
  }

  ghost predicate SlugMissing(r: Registry, h: Hints) {
    h.slug.Some? && !SlugKnown(r, h.slug.value)
  }

  /** How a call ends, by what was found.  `newId` is the id a new project would be given. */
  ghost function Decide(h: Hints, create: bool, newId: ProjectId, idMissing: bool, slugMissing: bool, c: set<ProjectId>): Outcome {
    if !Supplied(h) then ValidationFailed
    else if idMissing || (slugMissing && !create) then NotFound
    else if |c| > 1 || (slugMissing && c != {}) then Ambiguous(c)
    else if p :| p in c then Resolved(p, false)
    else if !create then NotFound
    else if h.slug.None? then ValidationFailed
    else Resolved(newId, true)
  }

  function Effect(r: Registry, h: Hints, o: Outcome): Registry {
    if !o.Resolved? then r
    else Registry(if o.created && h.slug.Some? then r.slugs[o.id := h.slug.value] else r.slugs, Learnt(r.aliases, h, o.id))
  }

  ghost function OutcomeOf(r: Registry, h: Hints, create: bool, newId: ProjectId): Outcome {
    Decide(h, create, newId, IdMissing(r, h), SlugMissing(r, h), Candidates(r, h))
  }

  /** What one call does. */
  ghost function Use(r: Registry, h: Hints, create: bool, newId: ProjectId): (Registry, Outcome) {
    (Effect(r, h, OutcomeOf(r, h, create, newId)), OutcomeOf(r, h, create, newId))
  }

  /** What one call does that looked its hints up in `r` and writes to `late`, where other sessions
      have committed in between.  A slug taken meanwhile is refused by its unique index. */
  ghost function UseAmong(r: Registry, late: Registry, h: Hints, create: bool, newId: ProjectId): (Registry, Outcome) {
    var o := OutcomeOf(r, h, create, newId);
    if o.Resolved? && o.created && !SlugMissing(late, h) then (late, AlreadyExists)
    else (Effect(late, h, o), o)
  }

  lemma AloneIsAmongNobody(r: Registry, h: Hints, create: bool, newId: ProjectId)
    ensures UseAmong(r, r, h, create, newId) == Use(r, h, create, newId)
  {
    hide Candidates, Effect, IdMissing, SlugMissing, Decide;
    if OutcomeOf(r, h, create, newId).Resolved? {
      CreatesWhere(r, h, create, newId);
      if OutcomeOf(r, h, create, newId).created {
        NothingNamed(r, h);
      }
    }
  }

  // ---- the service -----------------------------------------------------------

  class ProjectService {
    var slugs: map<ProjectId, string>
    var aliases: map<Alias, ProjectId>

    constructor ()
      ensures slugs == map[] && aliases == map[] && Valid()
    {
      slugs, aliases := map[], map[];
    }

    ghost function State(): Registry
      reads this
    {
      Registry(slugs, aliases)
    }

    ghost predicate Valid()
      reads this
    {
      RegistryOk(State())
    }

    method GetBySlug(s: string) returns (found: Option<ProjectId>)
      requires Valid()
      ensures found.Some? ==> SlugNames(State(), s, found.value)
      ensures found.None? ==> !SlugKnown(State(), s)
    {
      if p :| p in slugs && slugs[p] == s {
        return Some(p);
      }
      found := None;
    }

    method ResolveAlias(kind: AliasKind, value: string) returns (found: Option<ProjectId>)
      ensures found == if Alias(kind, value) in aliases then Some(aliases[Alias(kind, value)]) else None
    {
      found := if Alias(kind, value) in aliases then Some(aliases[Alias(kind, value)]) else None;
    }

    /** Records newly seen aliases; an owned one is left with its owner. */
    method EnsureAliases(p: ProjectId, h: Hints)
      modifies `aliases
      ensures aliases == Learnt(old(aliases), h, p)
    {
      var wanted := [(GIT_REMOTE, h.remote), (WORKSPACE_PATH, h.path)];
      for i := 0 to |wanted|
        invariant i == 0 ==> aliases == old(aliases)
        invariant i == 1 ==> aliases == Learn(old(aliases), GIT_REMOTE, h.remote, p)
        invariant i == 2 ==> aliases == Learnt(old(aliases), h, p)
      {
        var (kind, value) := wanted[i];
        if value.Some? {
          var owner := ResolveAlias(kind, value.value);
          if owner.None? {
            aliases := aliases[Alias(kind, value.value) := p];
          }
        }
      }
    }

    /** The explicit identifiers: a miss ends the call, unless a slug is to be created. */
    method LookUpNames(h: Hints, create: bool)
      returns (missing: bool, bySlug: Option<ProjectId>, candidates: map<ProjectId, seq<string>>)
      requires Valid()
      ensures missing <==> IdMissing(State(), h) || (SlugMissing(State(), h) && !create)
      ensures !missing ==> SlugFoundAs(State(), h, bySlug)
      ensures !missing ==> forall p :: p in candidates <==> NamedById(State(), h, p) || bySlug == Some(p)
    {
      hide RegistryOk;
      missing, bySlug, candidates := false, None, map[];
      if h.id.Some? {
        if h.id.value !in slugs {
          missing := true;
          return;
        }
        candidates := Note(candidates, h.id, "project_id");
      }
      if h.slug.Some? {
        bySlug := GetBySlug(h.slug.value);
        SlugFound(State(), h, bySlug);
        if bySlug.None? && !create {
          missing := true;
          return;
        }
        candidates := Note(candidates, bySlug, "slug");
      }
    }

    /** The hints that may miss, added to what the names found. */
    method LookUpAliases(h: Hints, named: map<ProjectId, seq<string>>) returns (candidates: map<ProjectId, seq<string>>)
      ensures forall p :: p in candidates <==> p in named || NamedByAlias(State(), h, p)
    {
      candidates := named;
      if h.remote.Some? {
        var owner := ResolveAlias(GIT_REMOTE, h.remote.value);
        candidates := Note(candidates, owner, "git_remote");
      }
      if h.path.Some? {
        var owner := ResolveAlias(WORKSPACE_PATH, h.path.value);
        candidates := Note(candidates, owner, "workspace_path");
      }
    }

    /** Every supplied hint looked up, none short-circuiting another. */
    method LookUp(h: Hints, create: bool) returns (missing: bool, bySlug: Option<ProjectId>, candidates: map<ProjectId, seq<string>>)
      requires Valid()
      ensures missing <==> IdMissing(State(), h) || (SlugMissing(State(), h) && !create)
      ensures !missing ==> candidates.Keys == Candidates(State(), h)
      ensures !missing ==> (h.slug.Some? && bySlug.None? <==> SlugMissing(State(), h))
    {
      hide Candidates, Named, RegistryOk, NamedById, NamedByAlias, IdMissing, SlugMissing, SlugFoundAs;
      var named;
      missing, bySlug, named := LookUpNames(h, create);
      candidates := map[];
      if !missing {
        candidates := LookUpAliases(h, named);
        CandidatesAre(State(), h, bySlug, candidates.Keys);
        SlugFoundSays(State(), h, bySlug);
      }
    }

    method UseProject(h: Hints, create: bool, newId: ProjectId, late: Registry) returns (o: Outcome)
      requires Valid() && newId !in late.slugs
      requires RegistryOk(late) && Extends(State(), late)
      modifies this
      ensures (State(), o) == UseAmong(old(State()), late, h, create, newId)
      ensures Valid() && Extends(late, State())
    {
      hide RegistryOk, Candidates, IdMissing, SlugMissing, Learnt, Extends;
      UseAmongKeepsOk(State(), late, h, create, newId);
      if !Supplied(h) {
        slugs, aliases := late.slugs, late.aliases;
        return ValidationFailed;
      }
      var missing, bySlug, candidates := LookUp(h, create);
      slugs, aliases := late.slugs, late.aliases;
      if missing {
        return NotFound;
      }
      if |candidates.Keys| > 1 {
        return Ambiguous(candidates.Keys);
      }
      if h.slug.Some? && bySlug.None? && candidates.Keys != {} {
        return Ambiguous(candidates.Keys);
      }
      if candidates.Keys != {} {
        var p :| p in candidates.Keys;
        OnlyOne(candidates.Keys, p);
        EnsureAliases(p, h);
        return Resolved(p, false);
      }
      if !create {
        return NotFound;
      }
      if h.slug.None? {
        return ValidationFailed;
      }
      var taken := GetBySlug(h.slug.value);
      SlugFound(State(), h, taken);
      if taken.Some? {
        return AlreadyExists;
      }
      slugs := slugs[newId := h.slug.value];
      EnsureAliases(newId, h);
      return Resolved(newId, true);
    }
  }

  lemma SlugFound(r: Registry, h: Hints, found: Option<ProjectId>)
    requires h.slug.Some? && (found.Some? ==> SlugNames(r, h.slug.value, found.value))
    requires found.None? ==> !SlugKnown(r, h.slug.value)
    ensures found.None? <==> SlugMissing(r, h)
  {
  }

  function Note(candidates: map<ProjectId, seq<string>>, found: Option<ProjectId>, source: string): map<ProjectId, seq<string>> {
    if found.None? then candidates
    else if found.value in candidates then candidates[found.value := candidates[found.value] + [source]]
    else candidates[found.value := [source]]
  }

  lemma OnlyOne(s: set<ProjectId>, p: ProjectId)
    requires |s| <= 1 && p in s
    ensures s == {p}
  {
    if q :| q in s && q != p {
      assert |{p, q}| == 2 && {p, q} <= s;
      SubsetSize({p, q}, s);
    }
  }

  lemma SubsetSize(a: set<ProjectId>, b: set<ProjectId>)
    requires a <= b
    ensures |a| <= |b|
  {
    assert b == a + (b - a);
  }

  ghost predicate NamedById(r: Registry, h: Hints, p: ProjectId) {
    h.id == Some(p) && p in r.slugs
  }

  ghost predicate NamedByAlias(r: Registry, h: Hints, p: ProjectId) {
    || (h.remote.Some? && AliasNames(r, GIT_REMOTE, h.remote.value, p))
    || (h.path.Some? && AliasNames(r, WORKSPACE_PATH, h.path.value, p))
  }

  ghost predicate SlugFoundAs(r: Registry, h: Hints, found: Option<ProjectId>) {
    if found.Some? then h.slug.Some? && SlugNames(r, h.slug.value, found.value)
    else h.slug.Some? ==> !SlugKnown(r, h.slug.value)
  }

  lemma SlugFoundSays(r: Registry, h: Hints, found: Option<ProjectId>)
    requires SlugFoundAs(r, h, found)
    ensures h.slug.Some? && found.None? <==> SlugMissing(r, h)
  {
  }

  lemma CandidatesAre(r: Registry, h: Hints, bySlug: Option<ProjectId>, found: set<ProjectId>)
    requires RegistryOk(r) && SlugFoundAs(r, h, bySlug)
    requires forall p :: p in found <==> NamedById(r, h, p) || bySlug == Some(p) || NamedByAlias(r, h, p)
    ensures found == Candidates(r, h)
  {
    hide Candidates;
    forall p
      ensures p in found <==> Named(r, h, p)
    {
      BySlugIs(r, h, bySlug, p);
    }
    CandidatesNamed(r, h);
  }

  lemma BySlugIs(r: Registry, h: Hints, found: Option<ProjectId>, p: ProjectId)
    requires RegistryOk(r) && SlugFoundAs(r, h, found)
    ensures found == Some(p) <==> h.slug.Some? && SlugNames(r, h.slug.value, p)
  {
    if h.slug.Some? && SlugNames(r, h.slug.value, p) {
      assert SlugKnown(r, h.slug.value);
    }
  }

  lemma CandidatesNamed(r: Registry, h: Hints)
    ensures forall p :: p in Candidates(r, h) <==> Named(r, h, p)
  {
    forall p
      ensures p in Candidates(r, h) <==> Named(r, h, p)
    {
    }
  }

  // ---- over whole runs -------------------------------------------------------

  /** A new project is created only where the slug is free and no hint names anything. */
  lemma CreatesWhere(r: Registry, h: Hints, create: bool, newId: ProjectId)
    requires OutcomeOf(r, h, create, newId).Resolved?
    ensures var o := OutcomeOf(r, h, create, newId);
            if o.created then o.id == newId && h.id.None? && h.slug.Some? && create && forall p :: !Named(r, h, p)
            else Candidates(r, h) == {o.id} && !IdMissing(r, h) && !SlugMissing(r, h)
  {
    hide Candidates, IdMissing, SlugMissing, Named;
    CandidatesNamed(r, h);
    var c := Candidates(r, h);
    if p :| p in c {
      OnlyOne(c, p);
    } else {
      NothingNamed(r, h);
    }
  }

  lemma CandidateExists(r: Registry, h: Hints, p: ProjectId)
    requires RegistryOk(r) && Candidates(r, h) == {p}
    ensures p in r.slugs
  {
    assert p in Candidates(r, h);
  }

  lemma LearntOwners(aliases: map<Alias, ProjectId>, h: Hints, p: ProjectId)
    ensures forall a | a in Learnt(aliases, h, p) :: Learnt(aliases, h, p)[a] == if a in aliases then aliases[a] else p
    ensures forall a | a in aliases :: a in Learnt(aliases, h, p)
  {
  }

  /** Projects keep their slugs and aliases their owners. */
  ghost predicate Extends(a: Registry, b: Registry) {
    && (forall p | p in a.slugs :: p in b.slugs && b.slugs[p] == a.slugs[p])
    && (forall x | x in a.aliases :: x in b.aliases && b.aliases[x] == a.aliases[x])
  }

  lemma EffectExtends(late: Registry, h: Hints, o: Outcome)
    requires o.Resolved? && o.created ==> o.id !in late.slugs
    ensures Extends(late, Effect(late, h, o))
  {
    hide Learnt;
    if o.Resolved? {
      LearntOwners(late.aliases, h, o.id);
    }
  }

  lemma EffectKeepsOk(late: Registry, h: Hints, o: Outcome)
    requires RegistryOk(late)
    requires o.Resolved? && o.created ==> o.id !in late.slugs && h.slug.Some? && !SlugKnown(late, h.slug.value)
    requires o.Resolved? && !o.created ==> o.id in late.slugs
    ensures RegistryOk(Effect(late, h, o))
  {
    hide Learnt;
    if o.Resolved? {
      LearntOwners(late.aliases, h, o.id);
      if o.created {
        forall p | p in late.slugs
          ensures late.slugs[p] != h.slug.value
        {
          assert !SlugNames(late, h.slug.value, p);
        }
      }
    }
  }

  lemma UseAmongKeepsOk(r: Registry, late: Registry, h: Hints, create: bool, newId: ProjectId)
    requires RegistryOk(r) && RegistryOk(late) && Extends(r, late) && newId !in late.slugs
    ensures RegistryOk(UseAmong(r, late, h, create, newId).0)
    ensures Extends(late, UseAmong(r, late, h, create, newId).0)
  {
    hide Decide, Candidates, IdMissing, Learnt, Effect;
    var o := OutcomeOf(r, h, create, newId);
    if o.Resolved? {
      CreatesWhere(r, h, create, newId);
      if !o.created {
        CandidateExists(r, h, o.id);
      } else {
        NothingNamed(r, h);
      }
    }
    EffectNothing(late, h);
    if !(o.Resolved? && o.created && !SlugMissing(late, h)) {
      EffectExtends(late, h, o);
      EffectKeepsOk(late, h, o);
    } else {
      EffectExtends(late, h, NotFound);
    }
  }

  lemma EffectNothing(late: Registry, h: Hints)
    ensures Effect(late, h, NotFound) == late
  {
  }

  /** One call of a run: it looks its hints up after the first `seen` calls, or after all before it if
      those are fewer, and writes at its place, so calls may overlap in any way. */
  datatype Request = Request(hints: Hints, create: bool, newId: ProjectId, seen: nat)

  /** The state after a run, each call's new id being new. */
  ghost function After(r: Registry, run: seq<Request>): Registry
    decreases |run|
  {
    if run == [] then r
    else
      var init, q := run[..|run| - 1], run[|run| - 1];
      var late := After(r, init);
      if q.newId in late.slugs then late
      else UseAmong(After(r, if q.seen < |init| then init[..q.seen] else init), late, q.hints, q.create, q.newId).0
  }

  /** One more call. */
  lemma AfterNext(r: Registry, run: seq<Request>, q: Request)
    requires q.seen <= |run| && q.newId !in After(r, run).slugs
    ensures After(r, run + [q]) == UseAmong(After(r, run[..q.seen]), After(r, run), q.hints, q.create, q.newId).0
  {
    hide UseAmong;
    assert (run + [q])[..|run|] == run;
    assert q.seen == |run| ==> run[..q.seen] == run;
  }

  /** Two sessions create a project each, with one remote between them, and neither has seen the other:
      both succeed and the remote stays with the first. */
  lemma OverlapHappens(s: string, t: string, remote: string)
    requires s != t
    ensures var first := Request(Hints(None, Some(s), Some(remote), None), true, 0, 0);
            var second := Request(Hints(None, Some(t), Some(remote), None), true, 1, 0);
            After(Registry(map[], map[]), [first, second]) == Registry(map[0 := s, 1 := t], map[Alias(GIT_REMOTE, remote) := 0])
  {
    hide After, UseAmong;
    var r := Registry(map[], map[]);
    var first := Request(Hints(None, Some(s), Some(remote), None), true, 0, 0);
    var second := Request(Hints(None, Some(t), Some(remote), None), true, 1, 0);
    var one := Registry(map[0 := s], map[Alias(GIT_REMOTE, remote) := 0]);
    assert After(r, []) == r by {
      NoCalls(r);
    }
    CreatesAmong(r, first.hints, 0);
    AfterNext(r, [], first);
    CreatesAmong(one, second.hints, 1);
    assert [first][..0] == [] && [] + [first] == [first] && [first] + [second] == [first, second];
    AfterNext(r, [first], second);
  }

  lemma NoCalls(r: Registry)
    ensures After(r, []) == r
  {
  }

  lemma CreatesAmong(late: Registry, h: Hints, newId: ProjectId)
    requires h.id.None? && h.slug.Some? && h.remote.Some? && h.path.None? && forall p | p in late.slugs :: late.slugs[p] != h.slug.value
    ensures UseAmong(Registry(map[], map[]), late, h, true, newId)
            == (Registry(late.slugs[newId := h.slug.value], Learn(late.aliases, GIT_REMOTE, h.remote, newId)), Resolved(newId, true))
  {
    hide Learn;
    var r := Registry(map[], map[]);
    assert Candidates(r, h) == {};
    assert SlugMissing(late, h);
    assert Learnt(late.aliases, h, newId) == Learn(late.aliases, GIT_REMOTE, h.remote, newId) by {
      NothingLearnt(Learn(late.aliases, GIT_REMOTE, h.remote, newId), WORKSPACE_PATH, newId);
    }
  }

  lemma NothingLearnt(aliases: map<Alias, ProjectId>, kind: AliasKind, p: ProjectId)
    ensures Learn(aliases, kind, None, p) == aliases
  {
  }

  lemma ExtendsOnward(a: Registry, b: Registry, c: Registry)
    requires Extends(a, b) && Extends(b, c)
    ensures Extends(a, c)
  {
  }

  lemma {:induction false} PrefixExtends(r: Registry, run: seq<Request>, n: nat)
    requires RegistryOk(r) && n <= |run|
    ensures RegistryOk(After(r, run)) && Extends(After(r, run[..n]), After(r, run))
    decreases |run|
  {
    hide UseAmong, RegistryOk, Extends;
    if n == |run| {
      assert run[..n] == run;
      SameExtends(After(r, run));
    }
    if run != [] {
      var init, q := run[..|run| - 1], run[|run| - 1];
      var late := After(r, init);
      PrefixExtends(r, init, |init|);
      var seen := if q.seen < |init| then q.seen else |init|;
      PrefixExtends(r, init, seen);
      assert init[..|init|] == init;
      PrefixExtends(r, init, 0);
      if q.newId !in late.slugs {
        PrefixExtends(r, init[..seen], 0);
        UseAmongKeepsOk(After(r, init[..seen]), late, q.hints, q.create, q.newId);
      } else {
        SameExtends(late);
      }
      if n < |run| {
        PrefixExtends(r, init, n);
        assert init[..n] == run[..n];
        ExtendsOnward(After(r, run[..n]), late, After(r, run));
      }
    }
  }

  lemma SameExtends(r: Registry)
    ensures Extends(r, r)
  {
  }

  /** No run of calls, overlapping as they may, ever renames a project or re-points an alias. */
  lemma OwnersNeverChange(r: Registry, run: seq<Request>, n: nat)
    requires RegistryOk(r) && n <= |run|
    ensures RegistryOk(After(r, run)) && Extends(After(r, run[..n]), After(r, run)) && Extends(r, After(r, run))
  {
    hide RegistryOk, Extends;
    PrefixExtends(r, run, n);
    PrefixExtends(r, run, 0);
    assert run[..0] == [];
  }

  /** Every supplied hint names p. */
  ghost predicate AllName(r: Registry, h: Hints, p: ProjectId) {
    && p in r.slugs
    && (h.id.Some? ==> h.id.value == p)
    && (h.slug.Some? ==> SlugNames(r, h.slug.value, p))
    && (h.remote.Some? ==> AliasNames(r, GIT_REMOTE, h.remote.value, p))
    && (h.path.Some? ==> AliasNames(r, WORKSPACE_PATH, h.path.value, p))
  }

  /** A call that was not overtaken leaves every supplied hint naming the project returned, and
      beforehand no supplied hint named any other. */
  lemma SuccessAgrees(r: Registry, h: Hints, create: bool, newId: ProjectId, q: ProjectId)
    requires RegistryOk(r) && newId !in r.slugs
    requires Use(r, h, create, newId).1.Resolved?
    ensures var p := Use(r, h, create, newId).1.id;
            AllName(Use(r, h, create, newId).0, h, p) && (Named(r, h, q) ==> q == p)
  {
    hide OutcomeOf, Effect, Named, AllName;
    AloneIsAmongNobody(r, h, create, newId);
    SameExtends(r);
    if Named(r, h, q) {
      OthersNotNamed(r, h, create, newId, q);
    }
    NobodyTookAliases(r, h, create, newId);
    AgreesUnlessTaken(r, r, h, create, newId);
  }

  lemma OthersNotNamed(r: Registry, h: Hints, create: bool, newId: ProjectId, q: ProjectId)
    requires OutcomeOf(r, h, create, newId).Resolved? && Named(r, h, q)
    ensures q == OutcomeOf(r, h, create, newId).id
  {
    hide Decide, Candidates, Named;
    CreatesWhere(r, h, create, newId);
    CandidatesNamed(r, h);
  }

  /** An alias of the call belongs, by the time it writes, to a project other than p. */
  ghost predicate Taken(late: Registry, h: Hints, p: ProjectId) {
    exists q :: q != p && NamedByAlias(late, h, q)
  }

  lemma NobodyTookAliases(r: Registry, h: Hints, create: bool, newId: ProjectId)
    requires OutcomeOf(r, h, create, newId).Resolved?
    ensures !Taken(r, h, OutcomeOf(r, h, create, newId).id)
  {
    hide OutcomeOf;
    forall q | NamedByAlias(r, h, q)
      ensures q == OutcomeOf(r, h, create, newId).id
    {
      assert Named(r, h, q);
      OthersNotNamed(r, h, create, newId, q);
    }
  }

  /** With other sessions at work, a success leaves every supplied hint naming the project it returned
      if and only if none of the aliases it brought had been taken for another project meanwhile. */
  lemma AgreesUnlessTaken(r: Registry, late: Registry, h: Hints, create: bool, newId: ProjectId)
    requires RegistryOk(r) && RegistryOk(late) && Extends(r, late) && newId !in late.slugs
    requires UseAmong(r, late, h, create, newId).1.Resolved?
    ensures var p := UseAmong(r, late, h, create, newId).1.id;
            AllName(UseAmong(r, late, h, create, newId).0, h, p) <==> !Taken(late, h, p)
  {
    hide Decide, Candidates, Learnt, Named, SlugMissing;
    CreatesWhere(r, h, create, newId);
    CandidatesNamed(r, h);
    var p := OutcomeOf(r, h, create, newId).id;
    assert forall x :: Named(r, h, x) ==> x == p;
    AliasesSettle(late, h, p);
    IdIsP(r, h, p);
    if !OutcomeOf(r, h, create, newId).created {
      CandidateExists(r, h, p);
      SlugIsP(r, h, p);
      SlugHeld(r, late, h, p);
    }
  }

  lemma SlugHeld(r: Registry, late: Registry, h: Hints, p: ProjectId)
    requires Extends(r, late) && !SlugMissing(r, h)
    requires h.slug.Some? && SlugKnown(r, h.slug.value) ==> SlugNames(r, h.slug.value, p)
    ensures h.slug.Some? ==> SlugNames(late, h.slug.value, p)
  {
  }

  /** After the aliases are learnt, each names p exactly where nobody else had it. */
  lemma AliasesSettle(late: Registry, h: Hints, p: ProjectId)
    ensures var a := Learnt(late.aliases, h, p);
            && (h.remote.Some? ==> Alias(GIT_REMOTE, h.remote.value) in a)
            && (h.path.Some? ==> Alias(WORKSPACE_PATH, h.path.value) in a)
            && (!Taken(late, h, p) <==>
                  && (h.remote.Some? ==> a[Alias(GIT_REMOTE, h.remote.value)] == p)
                  && (h.path.Some? ==> a[Alias(WORKSPACE_PATH, h.path.value)] == p))
  {
    if h.remote.Some? && Alias(GIT_REMOTE, h.remote.value) in late.aliases {
      assert NamedByAlias(late, h, late.aliases[Alias(GIT_REMOTE, h.remote.value)]);
    }
    if h.path.Some? && Alias(WORKSPACE_PATH, h.path.value) in late.aliases {
      assert NamedByAlias(late, h, late.aliases[Alias(WORKSPACE_PATH, h.path.value)]);
    }
  }

  lemma IdIsP(r: Registry, h: Hints, p: ProjectId)
    requires forall x :: Named(r, h, x) ==> x == p
    ensures h.id.Some? && !IdMissing(r, h) ==> h.id == Some(p)
  {
    if h.id.Some? && !IdMissing(r, h) {
      assert Named(r, h, h.id.value);
    }
  }

  lemma SlugIsP(r: Registry, h: Hints, p: ProjectId)
    requires RegistryOk(r) && forall x :: Named(r, h, x) ==> x == p
    ensures h.slug.Some? && SlugKnown(r, h.slug.value) ==> SlugNames(r, h.slug.value, p)
  {
    if h.slug.Some? && SlugKnown(r, h.slug.value) {
      var x :| SlugNames(r, h.slug.value, x);
      assert Named(r, h, x);
    }
  }

  /** The hints of g are among those of h. */
  ghost predicate Among(g: Hints, h: Hints) {
    && (g.id.Some? ==> g.id == h.id)
    && (g.slug.Some? ==> g.slug == h.slug)
    && (g.remote.Some? ==> g.remote == h.remote)
    && (g.path.Some? ==> g.path == h.path)
  }

  /** When every supplied hint names p, p is returned and nothing is written. */
  lemma AgreementResolves(r: Registry, h: Hints, create: bool, newId: ProjectId, p: ProjectId)
    requires RegistryOk(r) && Supplied(h) && AllName(r, h, p)
    ensures Use(r, h, create, newId) == (r, Resolved(p, false))
  {
    hide Learnt, Candidates;
    OnlyNamed(r, h, p);
    LearntAlready(r.aliases, h, p);
    assert h.slug.Some? ==> SlugKnown(r, h.slug.value);
    assert Candidates(r, h) == {p} && !IdMissing(r, h) && !SlugMissing(r, h);
    assert |Candidates(r, h)| == 1 && p in Candidates(r, h);
  }

  lemma OnlyNamed(r: Registry, h: Hints, p: ProjectId)
    requires RegistryOk(r) && Supplied(h) && AllName(r, h, p)
    ensures Candidates(r, h) == {p}
  {
    hide Candidates;
    CandidatesNamed(r, h);
    assert Named(r, h, p);
  }

  lemma LearntAlready(aliases: map<Alias, ProjectId>, h: Hints, p: ProjectId)
    requires h.remote.Some? ==> Alias(GIT_REMOTE, h.remote.value) in aliases
    requires h.path.Some? ==> Alias(WORKSPACE_PATH, h.path.value) in aliases
    ensures Learnt(aliases, h, p) == aliases
  {
  }

  lemma AllNameStill(a: Registry, b: Registry, h: Hints, g: Hints, p: ProjectId)
    requires Extends(a, b) && AllName(a, h, p) && Among(g, h)
    ensures AllName(b, g, p)
  {
  }

  /** Once a call with hints h has returned p, any later call with some of those hints returns p,
      whatever was called in between and whether or not it may create; if other sessions overlapped
      with the first call, exactly provided none of its aliases had been taken meanwhile. */
  lemma ResolutionIsStable(
    r: Registry, late: Registry, h: Hints, create: bool, newId: ProjectId, run: seq<Request>, g: Hints, again: bool, next: ProjectId)
    requires RegistryOk(r) && RegistryOk(late) && Extends(r, late) && newId !in late.slugs
    requires UseAmong(r, late, h, create, newId).1.Resolved? && !Taken(late, h, UseAmong(r, late, h, create, newId).1.id)
    requires Supplied(g) && Among(g, h)
    ensures var s := After(UseAmong(r, late, h, create, newId).0, run);
            Use(s, g, again, next) == (s, Resolved(UseAmong(r, late, h, create, newId).1.id, false))
  {
    hide UseAmong, Use, Extends, RegistryOk, AllName, Among, Taken, Supplied;
    var s0, p := UseAmong(r, late, h, create, newId).0, UseAmong(r, late, h, create, newId).1.id;
    AgreesUnlessTaken(r, late, h, create, newId);
    UseAmongKeepsOk(r, late, h, create, newId);
    OwnersNeverChange(s0, run, 0);
    AllNameStill(s0, After(s0, run), h, g, p);
    AgreementResolves(After(s0, run), g, again, next, p);
  }

  /** ... and if one had been taken, that alias alone resolves to the other project ever after. */
  lemma TakenAliasResolvesElsewhere(
    r: Registry, late: Registry, h: Hints, create: bool, newId: ProjectId, run: seq<Request>, again: bool, next: ProjectId, q: ProjectId)
    requires RegistryOk(r) && RegistryOk(late) && Extends(r, late) && newId !in late.slugs
    requires UseAmong(r, late, h, create, newId).1.Resolved? && q != UseAmong(r, late, h, create, newId).1.id
    requires h.remote.Some? && AliasNames(late, GIT_REMOTE, h.remote.value, q)
    ensures var s := After(UseAmong(r, late, h, create, newId).0, run);
            Use(s, Hints(None, None, h.remote, None), again, next) == (s, Resolved(q, false))
  {
    hide UseAmong, Use, RegistryOk;
    var s0 := UseAmong(r, late, h, create, newId).0;
    UseAmongKeepsOk(r, late, h, create, newId);
    OwnersNeverChange(s0, run, 0);
    OwnerExists(late, Alias(GIT_REMOTE, h.remote.value));
    AgreementResolves(After(s0, run), Hints(None, None, h.remote, None), again, next, q);
  }

  lemma OwnerExists(r: Registry, a: Alias)
    requires RegistryOk(r) && a in r.aliases
    ensures r.aliases[a] in r.slugs
  {
  }

  /** A project is resolved without being created exactly when the hints that name anything
      name one project, some hint does, and neither the id nor the slug misses. */
  lemma ResolvesExactly(r: Registry, h: Hints, create: bool, newId: ProjectId, p: ProjectId)
    requires RegistryOk(r) && newId !in r.slugs
    ensures Use(r, h, create, newId).1 == Resolved(p, false)
            <==> && Named(r, h, p) && (forall q :: Named(r, h, q) ==> q == p)
                 && !IdMissing(r, h) && !SlugMissing(r, h)
    ensures Use(r, h, create, newId).1 == Resolved(p, true)
            <==> create && p == newId && h.id.None? && h.slug.Some? && forall q :: !Named(r, h, q)
  {
    hide Candidates, Named, SlugMissing;
    CandidatesNamed(r, h);
    var c := Candidates(r, h);
    if Named(r, h, p) && forall q :: Named(r, h, q) ==> q == p {
      assert c == {p};
      NamedMeansSupplied(r, h, p);
    }
    if forall q :: !Named(r, h, q) {
      assert c == {};
      NothingNamed(r, h);
    }
    if OutcomeOf(r, h, create, newId).Resolved? {
      CreatesWhere(r, h, create, newId);
    }
  }

  /** How every other call ends: which is told that something was not found, which that its hints name
      several projects, and which ones, and which that it supplied too little. */
  lemma RefusesExactly(r: Registry, h: Hints, create: bool, newId: ProjectId)
    requires RegistryOk(r)
    ensures var o := Use(r, h, create, newId).1;
            var missing := (h.id.Some? && h.id.value !in r.slugs) || (h.slug.Some? && !create && forall p :: !SlugNames(r, h.slug.value, p));
            var several := exists p, q :: p != q && Named(r, h, p) && Named(r, h, q);
            var strangeSlug := h.slug.Some? && (forall p :: !SlugNames(r, h.slug.value, p)) && exists p :: Named(r, h, p);
            var nothing := forall p :: !Named(r, h, p);
            && (o.Ambiguous? <==> !missing && (several || strangeSlug))
            && (o.Ambiguous? ==> forall p :: p in o.candidates <==> Named(r, h, p))
            && (o == NotFound <==> missing || (Supplied(h) && nothing && !create))
            && (o == ValidationFailed <==> !missing && nothing && (!Supplied(h) || (create && h.slug.None?)))
            && (!o.Resolved? ==> Use(r, h, create, newId).0 == r)
  {
    hide Candidates, Named, SlugNames;
    CandidatesNamed(r, h);
    var c := Candidates(r, h);
    if forall p :: !Named(r, h, p) {
      NothingNamed(r, h);
      assert c == {};
    } else {
      var p :| Named(r, h, p);
      NamedMeansSupplied(r, h, p);
      if q :| Named(r, h, q) && q != p {
        assert {p, q} <= c && |{p, q}| == 2;
        SubsetSize({p, q}, c);
      } else {
        assert c == {p};
      }
    }
  }

  /** What a successful call writes: the slug of a project it created, and the aliases it brought that
      nobody owned, for the project it returns.  Nothing else, and nothing at all if it fails. */
  lemma WritesExactly(r: Registry, late: Registry, h: Hints, create: bool, newId: ProjectId, a: Alias)
    ensures var (s, o) := UseAmong(r, late, h, create, newId);
            if !o.Resolved? then s == late
            else
              && s.slugs == (if o.created && h.slug.Some? then late.slugs[o.id := h.slug.value] else late.slugs)
              && (a in s.aliases <==> a in late.aliases || Some(a.value) == if a.kind == GIT_REMOTE then h.remote else h.path)
              && (a in s.aliases ==> s.aliases[a] == if a in late.aliases then late.aliases[a] else o.id)
  {
    hide Decide, Candidates, IdMissing, SlugMissing;
    var o := OutcomeOf(r, h, create, newId);
    if o.Resolved? {
      LearntExactly(late.aliases, h, o.id, a);
    }
  }

  lemma LearntExactly(aliases: map<Alias, ProjectId>, h: Hints, p: ProjectId, a: Alias)
    ensures a in Learnt(aliases, h, p) <==> a in aliases || Some(a.value) == if a.kind == GIT_REMOTE then h.remote else h.path
    ensures a in Learnt(aliases, h, p) ==> Learnt(aliases, h, p)[a] == if a in aliases then aliases[a] else p
  {
  }

  lemma NamedMeansSupplied(r: Registry, h: Hints, p: ProjectId)
    requires Named(r, h, p)
    ensures Supplied(h)
  {
  }

  lemma NothingNamed(r: Registry, h: Hints)
    requires forall q :: !Named(r, h, q)
    ensures h.id.Some? ==> IdMissing(r, h)
    ensures h.slug.Some? ==> SlugMissing(r, h)
  {
    if h.id.Some? {
      assert !Named(r, h, h.id.value);
    }
    if h.slug.Some? {
      forall p
        ensures !SlugNames(r, h.slug.value, p)
      {
        assert !Named(r, h, p);
      }
    }
  }
}
