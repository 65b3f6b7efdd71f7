/**
 Tenants do not interfere (world_state/service.py): everything the service keeps is scoped by tenant, so what one
 tenant sees after an interleaved run is what it sees after the run of its own operations alone.
 */
module WorldTenants {
  import opened WorldModel
  import opened ConflictIndex
  import opened CommitLog

  ghost predicate AgreeOnStore(a: ConflictStore, b: ConflictStore, tenant: string) {
    && (forall k: ConflictKey | k.entity.tenant == tenant ::
          (k in a.open <==> k in b.open) && (k in a.open ==> a.open[k] == b.open[k]))
    && (forall p: Ref | p.tenant == tenant ::
          (p in a.byId <==> p in b.byId) && (p in a.byId ==> a.byId[p] == b.byId[p]))
  }

  /** The two worlds hold the same for `tenant` in every dictionary. */
  ghost predicate AgreeOn(a: World, b: World, tenant: string) {
    && (forall p: Ref | p.tenant == tenant ::
          (p in a.observations <==> p in b.observations)
              && (p in a.observations ==> a.observations[p] == b.observations[p]))
    && (forall k: EntityKey | k.tenant == tenant ::
          (k in a.states <==> k in b.states) && (k in a.states ==> a.states[k] == b.states[k]))
    && (forall p: Ref | p.tenant == tenant ::
          (p in a.commits <==> p in b.commits) && (p in a.commits ==> a.commits[p] == b.commits[p]))
    && (tenant in a.latest <==> tenant in b.latest)
    && (tenant in a.latest ==> a.latest[tenant] == b.latest[tenant])
    && AgreeOnStore(a.conflicts, b.conflicts, tenant)
  }

  // ---------------------------------------------------------------- another tenant's operation

  lemma {:induction false} OtherFold(tenant: string, obs: Observation, d: Draws, previous: Attributes,
                                     cs: ConflictStore, n: nat, other: string)
    requires n <= |obs.payload| && other != tenant
    ensures AgreeOnStore(FoldPayload(tenant, obs, d, previous, cs, n).conflicts, cs, other)
  {
    hide Project, Blocked, CandidateOf, WithCandidate;
    if n > 0 { OtherFold(tenant, obs, d, previous, cs, n - 1, other); }
  }

  ghost function Stored(w: World, c: Commit, state: OrderState): World {
    AddCommit(w, c).(states := w.states[c.body.entity := state])
  }

  lemma OtherStored(w: World, c: Commit, state: OrderState, other: string)
    requires c.body.entity.tenant != other
    ensures AgreeOn(Stored(w, c, state), w, other)
  {
  }

  lemma AbsorbStores(h: HashCommit, w: World, key: EntityKey, observationId: string, after: Attributes, cause: string,
                     assurance: string, uuid: string)
    ensures var o := Absorb(h, w, key, observationId, after, cause, assurance, uuid);
            if o.created.None? then o.world == w
            else
              && o.created.value.body.entity == key && o.result.Some?
              && o.world == Stored(w, o.created.value, o.result.value)
  {
    hide Diff, NewState, LatestHash, LatestId;
  }

  lemma DecideStores(h: HashCommit, w: World, c: Conflict, r: Resolution)
    ensures var o := Decide(h, w, c, r);
            if o.created.None? then o.world == w
            else o.created.value.body.entity == c.key.entity && c.key.entity in o.world.states
                 && o.world == Stored(w, o.created.value, o.world.states[c.key.entity])
  {
    hide Diff, LatestHash, LatestId, ResolvedAttribute;
  }

  lemma OtherTenantUntouched(h: HashCommit, w: World, op: WorldOp, other: string)
    requires op.tenant != other && IndexAgrees(w.conflicts)
    ensures AgreeOn(Apply(h, w, op).0, w, other)
  {
    AgreeReflexive(w, other);
    match op
    case Observe(tenant, obs, cause, assurance, d) =>
      hide AgreeOn;
      OtherObserves(h, w, tenant, obs, cause, assurance, d, other);
    case Settle(tenant, id, r) =>
      if Ref(tenant, id) in w.conflicts.byId && w.conflicts.byId[Ref(tenant, id)].status.Open? {
        var c := w.conflicts.byId[Ref(tenant, id)];
        assert c.key.entity.tenant == tenant;
        hide AgreeOn, IndexAgrees, Decide;
        OtherDecides(h, w, c, r, other);
        OtherClosed(Decide(h, w, c, r).world, w, c, r, other);
      }
  }

  lemma OtherObserves(h: HashCommit, w: World, tenant: string, obs: Observation, cause: string, assurance: string,
                      d: Draws, other: string)
    requires tenant != other
    ensures AgreeOn(Ingest(h, w, tenant, obs, cause, assurance, d).world, w, other)
  {
    AgreeReflexive(w, other);
    if Ref(tenant, obs.id) !in w.observations {
      var key := EntityOf(tenant, obs);
      var f := FoldPayload(tenant, obs, d, AttributesOf(w.states, key), w.conflicts, |obs.payload|);
      OtherFold(tenant, obs, d, AttributesOf(w.states, key), w.conflicts, |obs.payload|, other);
      hide FoldPayload, Absorb, Stored, AgreeOnStore;
      var w1 := w.(observations := w.observations[Ref(tenant, obs.id) := obs], conflicts := f.conflicts);
      assert AgreeOn(w1, w, other);
      AbsorbStores(h, w1, key, obs.id, f.attributes, cause, assurance, d.commitUuid);
      var o := Absorb(h, w1, key, obs.id, f.attributes, cause, assurance, d.commitUuid);
      hide AgreeOn;
      if o.created.Some? {
        OtherStored(w1, o.created.value, o.result.value, other);
        AgreeTransitive(o.world, w1, w, other);
      }
    }
  }

  lemma OtherDecides(h: HashCommit, w: World, c: Conflict, r: Resolution, other: string)
    requires c.key.entity.tenant != other
    ensures AgreeOn(Decide(h, w, c, r).world, w, other)
  {
    AgreeReflexive(w, other);
    DecideStores(h, w, c, r);
    hide Decide, Stored, AgreeOn;
    var o := Decide(h, w, c, r);
    if o.created.Some? { OtherStored(w, o.created.value, o.world.states[c.key.entity], other); }
  }

  lemma AgreeReflexive(w: World, tenant: string)
    ensures AgreeOn(w, w, tenant)
  {
  }

  lemma OtherClosed(o: World, w: World, c: Conflict, r: Resolution, other: string)
    requires AgreeOn(o, w, other) && c.key.entity.tenant != other
    ensures AgreeOn(o.(conflicts := CloseConflict(w.conflicts, c, r)), w, other)
  {
  }

  // ---------------------------------------------------------------- the tenant's own operation

  lemma SameRecord(a: ConflictStore, b: ConflictStore, key: ConflictKey, id: string, at: int, existing: Attribute,
                   incoming: Attribute)
    requires AgreeOnStore(a, b, key.entity.tenant)
    ensures AgreeOnStore(Record(a, key, id, at, existing, incoming), Record(b, key, id, at, existing, incoming),
                         key.entity.tenant)
  {
    hide CandidateOf, WithCandidate;
  }

  lemma {:induction false} SameFold(tenant: string, obs: Observation, d: Draws, previous: Attributes,
                                    a: ConflictStore, b: ConflictStore, n: nat)
    requires n <= |obs.payload| && AgreeOnStore(a, b, tenant)
    ensures var f, g := FoldPayload(tenant, obs, d, previous, a, n), FoldPayload(tenant, obs, d, previous, b, n);
            f.attributes == g.attributes && AgreeOnStore(f.conflicts, g.conflicts, tenant)
  {
    hide AgreeOnStore, Record, ConflictId;
    if n > 0 {
      SameFold(tenant, obs, d, previous, a, b, n - 1);
      var f, g := FoldPayload(tenant, obs, d, previous, a, n - 1), FoldPayload(tenant, obs, d, previous, b, n - 1);
      var name := obs.payload[n - 1].0;
      var incoming := Project(obs, name, obs.payload[n - 1].1, d.now);
      if Blocked(previous, name, incoming) {
        SameRecord(f.conflicts, g.conflicts, ConflictKey(EntityOf(tenant, obs), name), ConflictId(d.conflictUuid(name)),
                   d.detectedAt(name), previous[name], incoming);
      }
    }
  }

  lemma SameStored(a: World, b: World, c: Commit, state: OrderState)
    requires AgreeOn(a, b, c.body.entity.tenant)
    ensures AgreeOn(Stored(a, c, state), Stored(b, c, state), c.body.entity.tenant)
  {
    hide AgreeOnStore;
  }

  lemma SameNewCommit(h: HashCommit, a: World, b: World, entity: EntityKey, uuid: string, cause: string,
                      observationIds: seq<string>, before: Attributes, after: Attributes, assurance: string)
    requires AgreeOn(a, b, entity.tenant)
    ensures NewCommit(h, a, entity, uuid, cause, observationIds, before, after, assurance)
         == NewCommit(h, b, entity, uuid, cause, observationIds, before, after, assurance)
  {
    hide AgreeOnStore, Diff;
  }

  lemma SameEntity(a: World, b: World, key: EntityKey)
    requires AgreeOn(a, b, key.tenant)
    ensures key in a.states <==> key in b.states
    ensures key in a.states ==> a.states[key] == b.states[key]
    ensures AttributesOf(a.states, key) == AttributesOf(b.states, key)
  {
  }

  lemma SameSeen(a: World, b: World, ref: Ref, obs: Observation, cs: ConflictStore, ds: ConflictStore)
    requires AgreeOn(a, b, ref.tenant)
    ensures ref in a.observations <==> ref in b.observations
    ensures AgreeOnStore(a.conflicts, b.conflicts, ref.tenant)
    ensures AgreeOnStore(cs, ds, ref.tenant) ==>
              AgreeOn(a.(observations := a.observations[ref := obs], conflicts := cs),
                      b.(observations := b.observations[ref := obs], conflicts := ds), ref.tenant)
  {
    hide AgreeOnStore;
  }

  lemma SameAbsorb(h: HashCommit, a: World, b: World, key: EntityKey, observationId: string, after: Attributes,
                   cause: string, assurance: string, uuid: string)
    requires AgreeOn(a, b, key.tenant)
    ensures var x, y := Absorb(h, a, key, observationId, after, cause, assurance, uuid),
              Absorb(h, b, key, observationId, after, cause, assurance, uuid);
            AgreeOn(x.world, y.world, key.tenant) && x.result == y.result && x.created == y.created
  {
    hide Diff, NewState, NewCommit, AgreeOn, AddCommit, Stored, AttributesOf;
    var before := AttributesOf(a.states, key);
    SameEntity(a, b, key);
    SameNewCommit(h, a, b, key, uuid, cause, [observationId], before, after, assurance);
    AbsorbStores(h, a, key, observationId, after, cause, assurance, uuid);
    AbsorbStores(h, b, key, observationId, after, cause, assurance, uuid);
    var x := Absorb(h, a, key, observationId, after, cause, assurance, uuid);
    if x.created.Some? { SameStored(a, b, x.created.value, x.result.value); }
  }

  lemma SameDecide(h: HashCommit, a: World, b: World, c: Conflict, r: Resolution)
    requires AgreeOn(a, b, c.key.entity.tenant)
    ensures var x, y := Decide(h, a, c, r), Decide(h, b, c, r);
            AgreeOn(x.world, y.world, c.key.entity.tenant) && x.created == y.created
  {
    SameEntity(a, b, c.key.entity);
    hide AgreeOn;
    if c.key.entity in a.states { SameDecision(h, a, b, c, r); }
  }

  lemma SameDecision(h: HashCommit, a: World, b: World, c: Conflict, r: Resolution)
    requires AgreeOn(a, b, c.key.entity.tenant)
    requires c.key.entity in a.states && c.key.entity in b.states && a.states[c.key.entity] == b.states[c.key.entity]
    ensures var x, y := Decide(h, a, c, r), Decide(h, b, c, r);
            AgreeOn(x.world, y.world, c.key.entity.tenant) && x.created == y.created
  {
    hide NewCommit, ResolvedAttribute, AgreeOn, AddCommit, Stored;
    var key, attribute := c.key.entity, ResolvedAttribute(c, r);
    SameNewCommit(h, a, b, key, r.commitUuid, "conflict_resolved:" + c.id, attribute.sources, a.states[key].attributes,
                  a.states[key].attributes[c.key.attribute := attribute], "operator_resolved");
    DecideStores(h, a, c, r);
    DecideStores(h, b, c, r);
    var x := Decide(h, a, c, r);
    SameStored(a, b, x.created.value, x.world.states[key]);
  }

  lemma SameApply(h: HashCommit, a: World, b: World, op: WorldOp)
    requires AgreeOn(a, b, op.tenant) && IndexAgrees(a.conflicts)
    ensures AgreeOn(Apply(h, a, op).0, Apply(h, b, op).0, op.tenant)
    ensures Apply(h, a, op).1 == Apply(h, b, op).1
  {
    match op
    case Observe(tenant, obs, cause, assurance, d) =>
      SameObserve(h, a, b, tenant, obs, cause, assurance, d);
    case Settle(tenant, id, r) =>
      SameSettle(h, a, b, tenant, id, r);
  }

  lemma SameObserve(h: HashCommit, a: World, b: World, tenant: string, obs: Observation, cause: string,
                    assurance: string, d: Draws)
    requires AgreeOn(a, b, tenant)
    ensures var x, y := Ingest(h, a, tenant, obs, cause, assurance, d), Ingest(h, b, tenant, obs, cause, assurance, d);
            AgreeOn(x.world, y.world, tenant) && x.created == y.created && x.result == y.result
  {
    hide FoldPayload, Absorb, AgreeOn, AgreeOnStore, AttributesOf;
    var key := EntityOf(tenant, obs);
    var before := AttributesOf(a.states, key);
    SameEntity(a, b, key);
    SameSeen(a, b, Ref(tenant, obs.id), obs, a.conflicts, b.conflicts);
    if Ref(tenant, obs.id) !in a.observations {
      SameFold(tenant, obs, d, before, a.conflicts, b.conflicts, |obs.payload|);
      var f, g := FoldPayload(tenant, obs, d, before, a.conflicts, |obs.payload|),
          FoldPayload(tenant, obs, d, before, b.conflicts, |obs.payload|);
      SameSeen(a, b, Ref(tenant, obs.id), obs, f.conflicts, g.conflicts);
      var a1 := a.(observations := a.observations[Ref(tenant, obs.id) := obs], conflicts := f.conflicts);
      var b1 := b.(observations := b.observations[Ref(tenant, obs.id) := obs], conflicts := g.conflicts);
      SameAbsorb(h, a1, b1, key, obs.id, f.attributes, cause, assurance, d.commitUuid);
    }
  }

  lemma SameSettle(h: HashCommit, a: World, b: World, tenant: string, id: string, r: Resolution)
    requires AgreeOn(a, b, tenant) && IndexAgrees(a.conflicts)
    ensures var x, y := Resolve(h, a, tenant, id, r), Resolve(h, b, tenant, id, r);
            AgreeOn(x.world, y.world, tenant) && x.created == y.created && x.result == y.result
  {
    hide Decide, CloseConflict;
    if Ref(tenant, id) in a.conflicts.byId && a.conflicts.byId[Ref(tenant, id)].status.Open? {
      var c := a.conflicts.byId[Ref(tenant, id)];
      SameDecide(h, a, b, c, r);
      SameClosed(a.conflicts, b.conflicts, c, r);
      SameConflictsSet(Decide(h, a, c, r).world, Decide(h, b, c, r).world, CloseConflict(a.conflicts, c, r),
                       CloseConflict(b.conflicts, c, r), tenant);
    }
  }

  lemma SameClosed(a: ConflictStore, b: ConflictStore, c: Conflict, r: Resolution)
    requires AgreeOnStore(a, b, c.key.entity.tenant)
    ensures AgreeOnStore(CloseConflict(a, c, r), CloseConflict(b, c, r), c.key.entity.tenant)
  {
  }

  lemma SameConflictsSet(a: World, b: World, cs: ConflictStore, ds: ConflictStore, tenant: string)
    requires AgreeOn(a, b, tenant) && AgreeOnStore(cs, ds, tenant)
    ensures AgreeOn(a.(conflicts := cs), b.(conflicts := ds), tenant)
  {
    hide AgreeOnStore;
  }

  // ---------------------------------------------------------------- whole runs

  ghost function OpsOf(ops: seq<WorldOp>, tenant: string): seq<WorldOp> {
    if |ops| == 0 then []
    else
      var rest := OpsOf(ops[..|ops| - 1], tenant);
      if ops[|ops| - 1].tenant == tenant then rest + [ops[|ops| - 1]] else rest
  }

  lemma AgreeTransitive(a: World, b: World, c: World, tenant: string)
    requires AgreeOn(a, b, tenant) && AgreeOn(b, c, tenant)
    ensures AgreeOn(a, c, tenant)
  {
  }

  lemma RunSnoc(h: HashCommit, ops: seq<WorldOp>, op: WorldOp)
    ensures Run(h, ops + [op]) == Step(h, Run(h, ops), op)
  {
    assert (ops + [op])[..|ops|] == ops;
  }

  /** Ids that are new to the whole service are new to the tenant's part of it. */
  lemma FreshInPart(a: World, b: World, op: WorldOp)
    requires AgreeOn(a, b, op.tenant) && FreshDraws(a, op)
    ensures FreshDraws(b, op)
  {
    hide CommitId, ConflictId;
  }

  /**
   For any interleaving, a tenant's part of every dictionary and its commit log are those of its own operations alone,
   which are a supplied run too.
   */
  lemma {:induction false} TenantsDoNotInterfere(h: HashCommit, ops: seq<WorldOp>, tenant: string)
    requires Supplied(h, ops)
    ensures Supplied(h, OpsOf(ops, tenant))
    ensures AgreeOn(Run(h, ops).world, Run(h, OpsOf(ops, tenant)).world, tenant)
    ensures TenantLog(Run(h, ops).log, tenant) == TenantLog(Run(h, OpsOf(ops, tenant)).log, tenant)
    decreases |ops|
  {
    hide Apply, AgreeOn, IndexAgrees, ProperDispute, FreshDraws, TenantLog;
    if |ops| == 0 {
      AgreeEmpty(tenant);
    } else {
      var init, op := ops[..|ops| - 1], ops[|ops| - 1];
      TenantsDoNotInterfere(h, init, tenant);
      RunKeepsStore(h, init);
      var s, own := Run(h, init), Run(h, OpsOf(init, tenant));
      if op.tenant == tenant {
        SameApply(h, s.world, own.world, op);
        FreshInPart(s.world, own.world, op);
        assert (OpsOf(init, tenant) + [op])[..|OpsOf(init, tenant)|] == OpsOf(init, tenant);
        RunSnoc(h, OpsOf(init, tenant), op);
        var created := Apply(h, s.world, op).1;
        if created.Some? {
          TenantLogSnoc(s.log, created.value, tenant);
          TenantLogSnoc(own.log, created.value, tenant);
        }
      } else {
        OtherTenantUntouched(h, s.world, op, tenant);
        AgreeTransitive(Run(h, ops).world, s.world, own.world, tenant);
        OtherTenantsCommit(h, s.world, op);
        var created := Apply(h, s.world, op).1;
        if created.Some? { TenantLogSnoc(s.log, created.value, tenant); }
      }
    }
  }

  lemma AgreeEmpty(tenant: string)
    ensures AgreeOn(EMPTY_WORLD, EMPTY_WORLD, tenant)
  {
  }

  lemma OtherTenantsCommit(h: HashCommit, w: World, op: WorldOp)
    requires IndexAgrees(w.conflicts)
    ensures var created := Apply(h, w, op).1; created.Some? ==> created.value.body.entity.tenant == op.tenant
  {
    hide FoldPayload, Diff, ResolvedAttribute, LatestHash, NewState, CommitId;
  }
}
