/**
 What one observation and one operator decision do (world_state/service.py), told attribute by attribute and field by
 field: which values are taken over and with what freshness, which are disputed, what the commit records and what the
 entity's state is afterwards.
 */
module WorldEffects {
  import opened Basics
  import opened JsonValues
  import opened WorldModel
  import opened ConflictIndex
  import opened CrossSource
  import opened Projection
  import Hydration

  function Before(w: World, key: EntityKey): Attributes {
    if key in w.states then w.states[key].attributes else map[]
  }

  /** What `.get(name)` and its value read; a missing attribute reads as null. */
  function Reads(attributes: Attributes, name: string): Json {
    if name in attributes then attributes[name].value else Null
  }

  // ---------------------------------------------------------------- what an observation takes over

  /** The reported value is new, repeats the known one, or may replace it. */
  predicate MayTake(before: Attributes, obs: Observation, i: nat)
    requires i < |obs.payload|
  {
    var (name, value) := obs.payload[i];
    name in before ==>
      || before[name].value == value || before[name].freshness == Stale
      || before[name].connector == None || before[name].connector == Some(obs.connector)
  }

  /** The attribute as the observation reports it, read at `now`: fresh for five minutes, in microseconds. */
  predicate AsReported(a: Attribute, obs: Observation, i: nat, now: int)
    requires i < |obs.payload|
  {
    var (name, value) := obs.payload[i];
    && a.value == value && a.observedAt == obs.observedAt && a.sources == [obs.id] && a.connector == Some(obs.connector)
    && (a.freshness == Fresh <==> now <= obs.observedAt + 300_000_000)
    && a.confidence == (if name == "id" || name == "status" then 0.98 else 0.9)
  }

  predicate Mentions(obs: Observation, name: string) {
    exists i | 0 <= i < |obs.payload| :: obs.payload[i].0 == name
  }

  /** Every reported attribute that may be taken is as reported; every other one is as it was. */
  ghost predicate TakenOver(before: Attributes, after: Attributes, obs: Observation, now: int) {
    && (forall i: nat | i < |obs.payload| ::
          var name := obs.payload[i].0;
          && name in after
          && (MayTake(before, obs, i) ==> AsReported(after[name], obs, i, now))
          && (!MayTake(before, obs, i) ==> name in before && after[name] == before[name]))
    && (forall name | !Mentions(obs, name) ::
          (name in after <==> name in before) && (name in before ==> after[name] == before[name]))
  }

  /** Some value that may be taken differs from the known one. */
  ghost predicate Changes(before: Attributes, obs: Observation) {
    exists i: nat :: i < |obs.payload| && MayTake(before, obs, i) && Reads(before, obs.payload[i].0) != obs.payload[i].1
  }

  lemma TakenWhenNotBlocked(before: Attributes, obs: Observation, d: Draws, i: nat)
    requires i < |obs.payload|
    ensures Blocked(before, obs.payload[i].0, IncomingAt(obs, d, i)) <==> !MayTake(before, obs, i)
    ensures AsReported(IncomingAt(obs, d, i), obs, i, d.now)
  {
  }

  lemma FoldTakesOver(tenant: string, obs: Observation, d: Draws, before: Attributes, cs: ConflictStore)
    ensures TakenOver(before, FoldPayload(tenant, obs, d, before, cs, |obs.payload|).attributes, obs, d.now)
  {
    FoldedAttributes(tenant, obs, d, before, cs, |obs.payload|);
    hide FoldPayload, Blocked, IncomingAt, MayTake, AsReported;
    var after := FoldPayload(tenant, obs, d, before, cs, |obs.payload|).attributes;
    forall i: nat | i < |obs.payload|
      ensures var name := obs.payload[i].0;
              && name in after
              && (MayTake(before, obs, i) ==> AsReported(after[name], obs, i, d.now))
              && (!MayTake(before, obs, i) ==> name in before && after[name] == before[name])
    {
      TakenWhenNotBlocked(before, obs, d, i);
      BlockedHasValue(before, obs.payload[i].0, IncomingAt(obs, d, i));
    }
  }

  /** A commit is made exactly when some value changes. */
  lemma TakenChanges(before: Attributes, after: Attributes, obs: Observation, now: int)
    requires TakenOver(before, after, obs, now)
    ensures Diff(before, after) == [] <==> !Changes(before, obs)
  {
    hide MayTake;
    if Changes(before, obs) {
      var i: nat :| i < |obs.payload| && MayTake(before, obs, i) && Reads(before, obs.payload[i].0) != obs.payload[i].1;
      assert obs.payload[i].0 in Changed(before, after);
    } else {
      forall n
        ensures ValueOf(before, n) == ValueOf(after, n)
      {
        if i: nat :| i < |obs.payload| && obs.payload[i].0 == n {
          assert MayTake(before, obs, i) ==> Reads(before, n) == obs.payload[i].1;
        } else {
          assert !Mentions(obs, n);
        }
      }
      assert Changed(before, after) == {};
    }
  }

  // ---------------------------------------------------------------- what a commit and a state record

  /** The commit tells what moved the entity from `before` to `after`. */
  ghost predicate Tells(c: Commit, uuid: string, entity: EntityKey, before: Attributes, after: Attributes,
                        cause: string,
                        sources: seq<string>, assurance: string)
  {
    && c.body.commitId == "cmt_" + uuid && c.body.entity == entity && c.body.before == before && c.body.after == after
    && c.body.cause == cause && c.body.observationIds == sources && c.assuranceLevel == assurance
    && (forall n :: n in c.body.changed <==> n in before.Keys + after.Keys && Reads(before, n) != Reads(after, n))
  }

  /** The entity's state after a commit. */
  ghost predicate Stands(s: OrderState, entity: EntityKey, version: int, attributes: Attributes, commitId: string) {
    && s.tenantId == entity.tenant && s.entityId == entity.kind + ":" + entity.id
    && (entity.kind == "order" ==> s.entityType == "Order")
         && (entity.kind == "shipment" ==> s.entityType == "Shipment")
    && s.stateVersion == version && s.attributes == attributes && s.commitId == commitId
  }

  lemma KindTexts()
    ensures Capitalize("order") == "Order" && Capitalize("shipment") == "Shipment"
  {
    OrderText();
    ShipmentText();
    hide Capitalize;
  }

  lemma OrderText()
    ensures Capitalize("order") == "Order"
  {
    LowerTail("order", "rder");
    hide Capitalize, LowerText;
  }

  lemma ShipmentText()
    ensures Capitalize("shipment") == "Shipment"
  {
    LowerTail("shipment", "hipment");
    hide Capitalize, LowerText;
  }

  lemma NewStateStands(entity: EntityKey, version: int, attributes: Attributes, commitId: string)
    ensures Stands(NewState(entity, version, attributes, commitId), entity, version, attributes, commitId)
  {
    KindTexts();
    hide Capitalize;
  }

  lemma LowerTail(word: string, tail: string)
    requires word != [] && word[1..] == tail && forall i | 0 <= i < |tail| :: 'a' <= tail[i] <= 'z'
    ensures Capitalize(word) == [Upper(word[0])] + tail
  {
    Hydration.LowerTextOf(tail);
  }

  lemma NewCommitTells(h: HashCommit, w: World, entity: EntityKey, uuid: string, cause: string, ids: seq<string>,
                       before: Attributes, after: Attributes, assurance: string)
    ensures Tells(NewCommit(h, w, entity, uuid, cause, ids, before, after, assurance), uuid, entity, before, after,
                  cause, ids, assurance)
  {
    hide LatestHash, LatestId;
    assert forall n :: n in Diff(before, after) <==> n in Changed(before, after);
    hide Diff;
  }

  // ---------------------------------------------------------------- ingest

  /** The world after a new observation, `c` being the commit it made. */
  ghost predicate Observed(w: World, w': World, tenant: string, obs: Observation, cause: string, assurance: string,
                           d: Draws, created: Option<Commit>)
  {
    var key := EntityKey(tenant, obs.kind, obs.objectId);
    && w'.observations == w.observations[Ref(tenant, obs.id) := obs]
    && (created.Some? <==> key !in w.states || Changes(Before(w, key), obs))
    && (created.None? ==> w'.states == w.states && w'.commits == w.commits && w'.latest == w.latest)
    && (created.Some? ==>
          var after := created.value.body.after;
          && TakenOver(Before(w, key), after, obs, d.now)
          && Tells(created.value, d.commitUuid, key, Before(w, key), after, cause, [obs.id], assurance)
          && key in w'.states && w'.states == w.states[key := w'.states[key]]
          && Stands(w'.states[key], key, (if key in w.states then w.states[key].stateVersion else 0) + 1, after,
                    created.value.body.commitId))
  }

  lemma AbsorbObserves(h: HashCommit, w: World, w1: World, tenant: string, obs: Observation, cause: string,
                       assurance: string, d: Draws, after: Attributes)
    requires w1 == w.(observations := w.observations[Ref(tenant, obs.id) := obs], conflicts := w1.conflicts)
    requires var key := EntityOf(tenant, obs); TakenOver(Before(w, key), after, obs, d.now)
    ensures var o := Absorb(h, w1, EntityOf(tenant, obs), obs.id, after, cause, assurance, d.commitUuid);
            && Observed(w, o.world, tenant, obs, cause, assurance, d, o.created)
            && EntityOf(tenant, obs) in o.world.states && o.result == Some(o.world.states[EntityOf(tenant, obs)])
            && o.world.conflicts == w1.conflicts
  {
    var key := EntityOf(tenant, obs);
    var before := Before(w, key);
    hide NewCommit, NewState, Diff, Tells, Stands, TakenOver, Changes, LatestId;
    TakenChanges(before, after, obs, d.now);
    NewCommitTells(h, w1, key, d.commitUuid, cause, [obs.id], before, after, assurance);
    var c := NewCommit(h, w1, key, d.commitUuid, cause, [obs.id], before, after, assurance);
    NewStateStands(key, (if key in w.states then w.states[key].stateVersion else 0) + 1, after, c.body.commitId);
    CommitNames(h, w1, key, d.commitUuid, cause, [obs.id], before, after, assurance);
    assert c.body.entity == key && c.body.after == after;
  }

  lemma CommitNames(h: HashCommit, w: World, entity: EntityKey, uuid: string, cause: string, ids: seq<string>,
                    before: Attributes, after: Attributes, assurance: string)
    ensures var c := NewCommit(h, w, entity, uuid, cause, ids, before, after, assurance);
            c.body.entity == entity && c.body.after == after
  {
    hide Diff, LatestHash, LatestId;
  }

  /**
   A new observation changes its entity exactly as said: what is taken over and how it is marked, when a commit is made,
   what it records and what the state is. The result is that state.
   */
  lemma IngestIsExact(h: HashCommit, w: World, tenant: string, obs: Observation, cause: string, assurance: string,
                      d: Draws)
    requires Ref(tenant, obs.id) !in w.observations
    ensures var o := Ingest(h, w, tenant, obs, cause, assurance, d);
            var key := EntityKey(tenant, obs.kind, obs.objectId);
            && Observed(w, o.world, tenant, obs, cause, assurance, d, o.created)
            && key in o.world.states && o.result == Some(o.world.states[key])
  {
    var key := EntityOf(tenant, obs);
    var f := FoldPayload(tenant, obs, d, Before(w, key), w.conflicts, |obs.payload|);
    FoldTakesOver(tenant, obs, d, Before(w, key), w.conflicts);
    hide FoldPayload, Absorb, Observed, TakenOver;
    var w1 := w.(observations := w.observations[Ref(tenant, obs.id) := obs], conflicts := f.conflicts);
    AbsorbObserves(h, w, w1, tenant, obs, cause, assurance, d, f.attributes);
  }

  /** An observation id that was seen before changes nothing; the answer is the entity's state, if it has one. */
  lemma RepeatIsDropped(h: HashCommit, w: World, tenant: string, obs: Observation, cause: string, assurance: string,
                        d: Draws)
    requires Ref(tenant, obs.id) in w.observations
    ensures var o := Ingest(h, w, tenant, obs, cause, assurance, d);
            var key := EntityKey(tenant, obs.kind, obs.objectId);
            && o.world == w && o.created == None
            && (key in w.states ==> o.result == Some(w.states[key])) && (key !in w.states ==> o.result == None)
  {
    hide FoldPayload;
  }

  /**
   After two observations of one attribute the second value stands if the first was older than five minutes when it was
   ingested, or came from the same connector, or was the same; otherwise the first value stands.
   */
  lemma SecondReport(h: HashCommit, w: World, tenant: string, first: Observation, d: Draws, i: nat,
                     second: Observation, d': Draws, j: nat, cause: string, assurance: string)
    requires Ref(tenant, first.id) !in w.observations && second.id != first.id
    requires Ref(tenant, second.id) !in w.observations && first.kind == second.kind && first.objectId == second.objectId
    requires i < |first.payload| && j < |second.payload| && first.payload[i].0 == second.payload[j].0
    requires var key := EntityKey(tenant, first.kind, first.objectId);
             && MayTake(Before(w, key), first, i)
             && Ingest(h, w, tenant, first, cause, assurance, d).created.Some?
    ensures var key, name := EntityKey(tenant, first.kind, first.objectId), first.payload[i].0;
            var w' := Ingest(h, w, tenant, first, cause, assurance, d).world;
            var after := Before(Ingest(h, w', tenant, second, cause, assurance, d').world, key);
            && name in after
            && after[name].value ==
               if d.now > first.observedAt + 300_000_000 || first.connector == second.connector then second.payload[j].1
               else first.payload[i].1
  {
    hide Ingest, Observed, MayTake, AsReported;
    var o := Ingest(h, w, tenant, first, cause, assurance, d);
    var key, name := EntityKey(tenant, first.kind, first.objectId), first.payload[i].0;
    IngestIsExact(h, w, tenant, first, cause, assurance, d);
    ValueAfter(w, o.world, tenant, first, cause, assurance, d, o.created, i);
    MayReplaceReport(Before(o.world, key)[name], Before(o.world, key), first, d.now, i, second, j);
    IngestIsExact(h, o.world, tenant, second, cause, assurance, d');
    var o' := Ingest(h, o.world, tenant, second, cause, assurance, d');
    ValueAfter(o.world, o'.world, tenant, second, cause, assurance, d', o'.created, j);
  }

  /** What one new observation does to one attribute. */
  lemma ValueAfter(w: World, w': World, tenant: string, obs: Observation, cause: string, assurance: string, d: Draws,
                   created: Option<Commit>, i: nat)
    requires Observed(w, w', tenant, obs, cause, assurance, d, created) && i < |obs.payload|
    ensures var key, name := EntityKey(tenant, obs.kind, obs.objectId), obs.payload[i].0;
            var before, after := Before(w, key), Before(w', key);
            && w'.observations == w.observations[Ref(tenant, obs.id) := obs]
            && (name in before || created.Some? ==> name in after)
            && Reads(after, name) == (if MayTake(before, obs, i) then obs.payload[i].1 else Reads(before, name))
            && (created.Some? && MayTake(before, obs, i) ==> AsReported(after[name], obs, i, d.now))
  {
    hide MayTake, AsReported, Tells;
    var key := EntityKey(tenant, obs.kind, obs.objectId);
    if created.Some? {
      hide Changes;
      assert Before(w', key) == created.value.body.after by { hide TakenOver; }
      assert !MayTake(Before(w, key), obs, i) || AsReported(Before(w', key)[obs.payload[i].0], obs, i, d.now);
      ReportedValue(Before(w', key), obs, i, d.now);
    } else {
      hide TakenOver;
      assert MayTake(Before(w, key), obs, i) ==> Reads(Before(w, key), obs.payload[i].0) == obs.payload[i].1;
    }
  }

  lemma ReportedValue(after: Attributes, obs: Observation, i: nat, now: int)
    requires i < |obs.payload| && obs.payload[i].0 in after
    ensures AsReported(after[obs.payload[i].0], obs, i, now) ==> after[obs.payload[i].0].value == obs.payload[i].1
  {
  }

  lemma MayReplaceReport(a: Attribute, attributes: Attributes, first: Observation, now: int, i: nat,
                         second: Observation,
                         j: nat)
    requires i < |first.payload| && AsReported(a, first, i, now)
    requires j < |second.payload| && second.payload[j].0 in attributes && attributes[second.payload[j].0] == a
    ensures MayTake(attributes, second, j) <==>
              || now > first.observedAt + 300_000_000 || first.connector == second.connector
              || first.payload[i].1 == second.payload[j].1
  {
  }

  // ---------------------------------------------------------------- disputes

  /** One side of a dispute, as an attribute gives it. */
  predicate IsClaim(c: Candidate, a: Attribute) {
    && c.value == a.value && c.connector == a.connector && c.observedAt == a.observedAt && c.confidence == a.confidence
    && c.observationId == if a.sources == [] then None else Some(a.sources[|a.sources| - 1])
  }

  predicate ClaimedBefore(candidates: seq<Candidate>, claim: Candidate) {
    exists i | 0 <= i < |candidates| :: candidates[i].connector == claim.connector && candidates[i].value == claim.value
  }

  /** The side that the `i`-th report takes. */
  function Claim(obs: Observation, i: nat): Candidate
    requires i < |obs.payload|
  {
    var (name, value) := obs.payload[i];
    Candidate(value, Some(obs.connector), Some(obs.id), obs.observedAt, if name == "id" || name == "status" then 0.98
              else 0.9)
  }

  lemma ReportIsClaim(obs: Observation, d: Draws, i: nat)
    requires i < |obs.payload|
    ensures CandidateOf(IncomingAt(obs, d, i)) == Claim(obs, i)
  {
  }

  lemma AttributeIsClaim(a: Attribute)
    ensures IsClaim(CandidateOf(a), a)
  {
  }

  lemma JoinsOnce(candidates: seq<Candidate>, claim: Candidate)
    ensures WithCandidate(candidates, claim) == if ClaimedBefore(candidates, claim) then candidates
              else candidates + [claim]
  {
  }

  /** The loop never closes a conflict. */
  lemma {:induction false} FoldKeepsOpen(tenant: string, obs: Observation, d: Draws, previous: Attributes,
                                         cs: ConflictStore,
                                         n: nat)
    requires n <= |obs.payload| && StoreSound(cs) && FreshConflictIds(cs, tenant, obs, d)
    ensures var open := FoldPayload(tenant, obs, d, previous, cs, n).conflicts.open;
            forall k | k in cs.open :: k in open && open[k] == cs.open[k]
  {
    hide StoreSound, FreshConflictIds, Recorded;
    if n > 0 {
      FoldKeepsOpen(tenant, obs, d, previous, cs, n - 1);
      FoldKeeps(tenant, obs, d, previous, cs, n - 1);
      OneKeepsOpen(tenant, obs, d, previous, cs, FoldPayload(tenant, obs, d, previous, cs, n - 1), n - 1);
    }
  }

  lemma OneKeepsOpen(tenant: string, obs: Observation, d: Draws, previous: Attributes, cs: ConflictStore, f: Folding,
                     n: nat)
    requires n < |obs.payload| && Recorded(tenant, obs, d, previous, cs, f.conflicts, n)
    ensures var open := FoldOne(tenant, obs, d, previous, f, n).conflicts.open;
            forall k | k in f.conflicts.open :: k in open && open[k] == f.conflicts.open[k]
  {
    hide Project, Blocked, CandidateOf, WithCandidate, ProperDispute, StoreGrows, NewAt, Disputed, ConflictId;
  }

  /** The open conflict about an attribute, after a report about it was refused. */
  ghost predicate DisputedAs(cs: ConflictStore, cs': ConflictStore, k: ConflictKey, claim: Candidate,
                             existing: Attribute,
                             id: string, at: int)
  {
    && k in cs'.open && Ref(k.entity.tenant, cs'.open[k]) in cs'.byId
    && var c := cs'.byId[Ref(k.entity.tenant, cs'.open[k])];
    && c.key == k && c.status == Open
    && if k in cs.open && Ref(k.entity.tenant, cs.open[k]) in cs.byId then
         var known := cs.byId[Ref(k.entity.tenant, cs.open[k])];
         && cs'.open[k] == cs.open[k] && c.detectedAt == known.detectedAt
         && c.candidates == if ClaimedBefore(known.candidates, claim) then known.candidates
              else known.candidates + [claim]
       else
         && cs'.open[k] == id && c.detectedAt == at
         && |c.candidates| == 2 && IsClaim(c.candidates[0], existing) && c.candidates[1] == claim
  }

  /** A report that may not be taken joins the open dispute about its attribute, or opens one with both sides. */
  lemma DisputeIsExact(h: HashCommit, w: World, tenant: string, obs: Observation, cause: string, assurance: string,
                       d: Draws, i: nat)
    requires StoreSound(w.conflicts) && FreshDraws(w, Observe(tenant, obs, cause, assurance, d))
    requires Ref(tenant, obs.id) !in w.observations && i < |obs.payload|
    requires !MayTake(Before(w, EntityKey(tenant, obs.kind, obs.objectId)), obs, i)
    ensures var key, name := EntityKey(tenant, obs.kind, obs.objectId), obs.payload[i].0;
            && name in Before(w, key)
            && DisputedAs(w.conflicts, Ingest(h, w, tenant, obs, cause, assurance, d).world.conflicts,
                          ConflictKey(key, name), Claim(obs, i), Before(w, key)[name],
                          "cnf_" + d.conflictUuid(name), d.detectedAt(name))
  {
    var key, name := EntityOf(tenant, obs), obs.payload[i].0;
    var before, cs := Before(w, key), w.conflicts;
    DrawnIdsAreFresh(cs, tenant, obs, d);
    IngestConflicts(h, w, tenant, obs, cause, assurance, d);
    TakenWhenNotBlocked(before, obs, d, i);
    hide Ingest, FreshDraws;
    FoldKeeps(tenant, obs, d, before, cs, |obs.payload|);
    FoldKeepsOpen(tenant, obs, d, before, cs, |obs.payload|);
    FoldDisputes(tenant, obs, d, before, cs, |obs.payload|, ConflictKey(key, name));
    var cs' := FoldPayload(tenant, obs, d, before, cs, |obs.payload|).conflicts;
    hide FoldPayload;
    FoldedDispute(tenant, obs, d, before, cs, cs', i);
  }

  lemma FoldedDispute(tenant: string, obs: Observation, d: Draws, before: Attributes, cs: ConflictStore,
                      cs': ConflictStore, i: nat)
    requires i < |obs.payload| && StoreSound(cs) && Recorded(tenant, obs, d, before, cs, cs', |obs.payload|)
    requires Blocked(before, obs.payload[i].0, IncomingAt(obs, d, i))
    requires forall k | k in cs.open :: k in cs'.open && cs'.open[k] == cs.open[k]
    requires var k := ConflictKey(EntityOf(tenant, obs), obs.payload[i].0);
             obs.payload[i].0 in before && DisputeAt(cs', k) == Joined(obs, d, before, i, DisputeAt(cs, k))
    ensures var k := ConflictKey(EntityOf(tenant, obs), obs.payload[i].0);
            DisputedAs(cs, cs', k, Claim(obs, i), before[k.attribute], "cnf_" + d.conflictUuid(k.attribute),
                       d.detectedAt(k.attribute))
  {
    var k := ConflictKey(EntityOf(tenant, obs), obs.payload[i].0);
    var existing := before[k.attribute];
    ReportIsClaim(obs, d, i);
    AttributeIsClaim(existing);
    FirstRefusal(existing, IncomingAt(obs, d, i));
    var p := Ref(tenant, cs'.open[k]);
    if k in cs.open {
      JoinsOnce(cs.byId[p].candidates, Claim(obs, i));
      hide WithCandidate, CandidateOf, IncomingAt, Blocked, ProperDispute, Disputed, NewAt;
      assert Grows(cs.byId[p], cs'.byId[p]);
    } else {
      hide WithCandidate, CandidateOf, IncomingAt, Blocked, ProperDispute, Disputed;
      assert p !in cs.byId;
      var j :| 0 <= j < |obs.payload| && NewAt(tenant, obs, d, cs'.byId[p], p, j);
      assert obs.payload[j].0 == obs.payload[i].0;
      assert j == i;
    }
  }

  /** Whether an entity has an open conflict shows in the conflicts themselves. */
  lemma OpenConflictsAreFound(h: HashCommit, ops: seq<WorldOp>, entity: EntityKey)
    requires Supplied(h, ops)
    ensures var cs := Run(h, ops).world.conflicts;
            HasOpenConflicts(cs, entity) <==>
            exists p :: p in cs.byId && cs.byId[p].key.entity == entity && cs.byId[p].status == Open
  {
    hide Run;
    RunKeepsStore(h, ops);
    var cs := Run(h, ops).world.conflicts;
    if HasOpenConflicts(cs, entity) {
      var k :| k in cs.open && k.entity == entity;
      assert cs.byId[Ref(k.entity.tenant, cs.open[k])].status == Open;
    }
  }

  // ---------------------------------------------------------------- what an operator's decision does

  predicate HasSource(c: Candidate) {
    c.observationId.Some? && c.observationId.value != ""
  }

  /** The candidate is a source of the decision: it holds the chosen value, or no candidate with a source does. */
  predicate Backs(candidates: seq<Candidate>, value: Json, i: nat)
    requires i < |candidates|
  {
    && HasSource(candidates[i])
    && (candidates[i].value == value
        || forall j: nat | j < |candidates| :: candidates[j].value == value ==> !HasSource(candidates[j]))
  }

  /** `picked` are the elements of `wanted`, in ascending order. */
  ghost predicate Enumerates(picked: seq<nat>, wanted: set<nat>) {
    && (forall a, b | 0 <= a < b < |picked| :: picked[a] < picked[b])
    && (forall k :: k in picked <==> k in wanted)
  }

  ghost function Backing(candidates: seq<Candidate>, value: Json): set<nat> {
    set k: nat | k < |candidates| && Backs(candidates, value, k)
  }

  /** The sources are the observation ids of the candidates that back the value, in order. */
  ghost predicate SourcesOf(candidates: seq<Candidate>, value: Json, sources: seq<string>) {
    exists picked: seq<nat> :: Enumerates(picked, Backing(candidates, value)) && GiveIds(candidates, picked, sources)
  }

  ghost predicate GiveIds(candidates: seq<Candidate>, picked: seq<nat>, sources: seq<string>) {
    && |sources| == |picked|
    && forall a | 0 <= a < |picked| ::
         picked[a] < |candidates| && candidates[picked[a]].observationId == Some(sources[a])
  }

  /** The highest confidence among the candidates with the chosen value; 0.95 if there is none. */
  ghost predicate ConfidenceOf(candidates: seq<Candidate>, value: Json, confidence: real) {
    && (forall i | 0 <= i < |candidates| && candidates[i].value == value :: candidates[i].confidence <= confidence)
    && if exists i :: 0 <= i < |candidates| && candidates[i].value == value
       then exists i :: 0 <= i < |candidates| && candidates[i].value == value && candidates[i].confidence == confidence
       else confidence == 0.95
  }

  lemma {:induction false} MatchingMax(candidates: seq<Candidate>, value: Json)
    ensures Matching(candidates, value) == [] <==> forall i | 0 <= i < |candidates| :: candidates[i].value != value
    ensures Matching(candidates, value) != [] ==>
              var max := MaxConfidence(Matching(candidates, value));
              && (forall i | 0 <= i < |candidates| && candidates[i].value == value :: candidates[i].confidence <= max)
              && exists i :: 0 <= i < |candidates| && candidates[i].value == value && candidates[i].confidence == max
  {
    if candidates != [] {
      var rest := candidates[1..];
      MatchingMax(rest, value);
      assert forall i | 1 <= i < |candidates| :: candidates[i] == rest[i - 1];
      assert forall i | 0 <= i < |rest| :: rest[i] == candidates[i + 1];
      if candidates[0].value == value {
        assert Matching(candidates, value)[1..] == Matching(rest, value);
      } else {
        assert Matching(candidates, value) == Matching(rest, value);
      }
    }
  }

  lemma ConfidenceIsMax(candidates: seq<Candidate>, value: Json)
    ensures ConfidenceOf(candidates, value, ResolvedConfidence(candidates, value))
  {
    MatchingMax(candidates, value);
    hide Matching, MaxConfidence;
  }

  predicate Keeps(c: Candidate, value: Option<Json>) {
    value == None || value == Some(c.value)
  }

  ghost function Kept(candidates: seq<Candidate>, value: Option<Json>): set<nat> {
    set k: nat | k < |candidates| && HasSource(candidates[k]) && Keeps(candidates[k], value)
  }

  function KeptCandidates(candidates: seq<Candidate>, value: Option<Json>): seq<Candidate> {
    match value case None => candidates case Some(v) => Matching(candidates, v)
  }

  function Shifted(picked: seq<nat>): seq<nat> {
    seq(|picked|, a requires 0 <= a < |picked| => picked[a] + 1)
  }

  lemma IdsOfKept(candidates: seq<Candidate>, value: Option<Json>)
    requires candidates != []
    ensures ObservationIds(KeptCandidates(candidates, value)) ==
            (if HasSource(candidates[0]) && Keeps(candidates[0], value) then [candidates[0].observationId.value]
             else [])
            + ObservationIds(KeptCandidates(candidates[1..], value))
  {
    var kept, rest := KeptCandidates(candidates, value), KeptCandidates(candidates[1..], value);
    if Keeps(candidates[0], value) {
      assert kept[0] == candidates[0] && kept[1..] == rest;
    } else {
      assert kept == rest;
    }
  }

  predicate Takes(candidates: seq<Candidate>, value: Option<Json>)
    requires candidates != []
  {
    HasSource(candidates[0]) && Keeps(candidates[0], value)
  }

  /** The indices for the whole, from those for all but the first. */
  function WithFirst(candidates: seq<Candidate>, value: Option<Json>, later: seq<nat>): seq<nat>
    requires candidates != []
  {
    (if Takes(candidates, value) then [0] else []) + Shifted(later)
  }

  lemma FirstKeepsOrder(candidates: seq<Candidate>, value: Option<Json>, later: seq<nat>)
    requires candidates != [] && forall a, b | 0 <= a < b < |later| :: later[a] < later[b]
    ensures var picked := WithFirst(candidates, value, later);
            forall a, b | 0 <= a < b < |picked| :: picked[a] < picked[b]
  {
    var picked := WithFirst(candidates, value, later);
    var n: nat := |picked| - |later|;
    assert forall a | n <= a < |picked| :: picked[a] == later[a - n] + 1;
  }

  lemma FirstIsEnumerated(candidates: seq<Candidate>, value: Option<Json>, later: seq<nat>)
    requires candidates != [] && Enumerates(later, Kept(candidates[1..], value))
    ensures Enumerates(WithFirst(candidates, value, later), Kept(candidates, value))
  {
    var picked := WithFirst(candidates, value, later);
    var n: nat := |picked| - |later|;
    assert forall a | 0 <= a < |later| :: picked[a + n] == later[a] + 1;
    forall k: nat
      ensures k in picked <==> k in Kept(candidates, value)
    {
      if k > 0 { KeptShifts(candidates, value, later, picked, n, k); }
    }
    FirstKeepsOrder(candidates, value, later);
    hide Kept, WithFirst;
  }

  lemma FirstGivesId(candidates: seq<Candidate>, value: Option<Json>, later: seq<nat>, ids: seq<string>)
    requires candidates != [] && GiveIds(candidates[1..], later, ids)
    ensures GiveIds(candidates, WithFirst(candidates, value, later),
                    (if Takes(candidates, value) then [candidates[0].observationId.value] else []) + ids)
  {
    var picked := WithFirst(candidates, value, later);
    var n: nat := |picked| - |later|;
    assert forall a | n <= a < |picked| :: picked[a] == later[a - n] + 1;
  }

  /** The ids of the candidates of one value, or of all, come from these indices in order. */
  lemma {:induction false} IdsPicked(candidates: seq<Candidate>, value: Option<Json>) returns (picked: seq<nat>)
    ensures Enumerates(picked, Kept(candidates, value))
    ensures GiveIds(candidates, picked, ObservationIds(KeptCandidates(candidates, value)))
    decreases |candidates|
  {
    picked := [];
    if candidates != [] {
      var later := IdsPicked(candidates[1..], value);
      picked := WithFirst(candidates, value, later);
      hide Enumerates, GiveIds, WithFirst;
      FirstIsEnumerated(candidates, value, later);
      FirstGivesId(candidates, value, later, ObservationIds(KeptCandidates(candidates[1..], value)));
      IdsOfKept(candidates, value);
    }
  }

  lemma KeptShifts(candidates: seq<Candidate>, value: Option<Json>, later: seq<nat>, picked: seq<nat>, n: nat, k: nat)
    requires candidates != [] && n <= 1 && |picked| == n + |later| && k > 0
    requires n == 1 ==> picked[0] == 0
    requires forall a | 0 <= a < |later| :: picked[a + n] == later[a] + 1
    requires Enumerates(later, Kept(candidates[1..], value))
    ensures k in picked <==> k in Kept(candidates, value)
  {
    assert k < |candidates| ==> candidates[1..][k - 1] == candidates[k];
    assert k in Kept(candidates, value) <==> k - 1 in Kept(candidates[1..], value);
    if k in picked {
      var a :| 0 <= a < |picked| && picked[a] == k;
      assert picked[(a - n) + n] == later[a - n] + 1;
      assert later[a - n] == k - 1;
    }
    if k - 1 in later {
      var a :| 0 <= a < |later| && later[a] == k - 1;
      assert picked[a + n] == k;
    }
  }

  lemma SourcesAreBackers(candidates: seq<Candidate>, value: Json)
    ensures SourcesOf(candidates, value, ResolvedSources(candidates, value))
  {
    var matching := IdsPicked(candidates, Some(value));
    var any := IdsPicked(candidates, None);
    hide ObservationIds, Matching;
    if matching != [] {
      assert matching[0] in Kept(candidates, Some(value));
      assert Backing(candidates, value) == Kept(candidates, Some(value));
    } else {
      assert forall k: nat | k < |candidates| && HasSource(candidates[k]) && candidates[k].value == value ::
          k in Kept(candidates, Some(value));
      assert Backing(candidates, value) == Kept(candidates, None);
    }
  }

  /** The attribute that a decision sets. */
  ghost predicate Decides(a: Attribute, c: Conflict, r: Resolution) {
    && a.value == r.value && a.observedAt == r.now && a.freshness == Fresh && a.connector == Some("operator")
    && SourcesOf(c.candidates, r.value, a.sources) && ConfidenceOf(c.candidates, r.value, a.confidence)
  }

  /** The world after an open conflict was settled. */
  ghost predicate Settled(w: World, w': World, c: Conflict, r: Resolution, created: Option<Commit>) {
    var key := c.key.entity;
    && w'.observations == w.observations
    && w'.conflicts.open == w.conflicts.open - {c.key}
    && w'.conflicts.byId == w.conflicts.byId[Ref(key.tenant, c.id) :=
                                             c.(status := Resolved(r.value, r.actor, r.now, r.reason))]
    && (created.Some? <==> key in w.states)
    && (key !in w.states ==> w'.states == w.states && w'.commits == w.commits && w'.latest == w.latest)
    && (created.Some? ==>
          var before, after := w.states[key].attributes, created.value.body.after;
          && c.key.attribute in after && Decides(after[c.key.attribute], c, r)
          && after == before[c.key.attribute := after[c.key.attribute]]
          && Tells(created.value, r.commitUuid, key, before, after, "conflict_resolved:" + c.id,
                   after[c.key.attribute].sources, "operator_resolved")
          && w'.states == w.states[key := w.states[key].(stateVersion := w.states[key].stateVersion + 1,
                                                         attributes := after,
                                                         commitId := created.value.body.commitId)])
  }

  lemma DecideSettles(h: HashCommit, w: World, c: Conflict, r: Resolution)
    requires c.key.entity in w.states
    ensures var o := Decide(h, w, c, r);
            o.created.Some? && Settled(w, o.world.(conflicts := CloseConflict(w.conflicts, c, r)), c, r, o.created)
  {
    var key, a := c.key.entity, ResolvedAttribute(c, r);
    var before := w.states[key].attributes;
    var after := before[c.key.attribute := a];
    SourcesAreBackers(c.candidates, r.value);
    ConfidenceIsMax(c.candidates, r.value);
    assert Decides(a, c, r) by { hide ResolvedSources, ResolvedConfidence, SourcesOf, ConfidenceOf; }
    hide ResolvedAttribute, SourcesOf, ConfidenceOf, ResolvedSources, ResolvedConfidence, Decides;
    NewCommitTells(h, w, key, r.commitUuid, "conflict_resolved:" + c.id, a.sources, before, after, "operator_resolved");
    CommitNames(h, w, key, r.commitUuid, "conflict_resolved:" + c.id, a.sources, before, after, "operator_resolved");
    hide NewCommit, Tells;
  }

  /**
   Settling an open conflict sets the chosen value with its sources and confidence, commits, counts the version up and
   closes the conflict, and leaves everything else; without a state of the entity it only closes the conflict.
   */
  lemma ResolveIsExact(h: HashCommit, w: World, tenant: string, id: string, r: Resolution)
    requires Ref(tenant, id) in w.conflicts.byId && w.conflicts.byId[Ref(tenant, id)].status.Open?
    ensures var c, o := w.conflicts.byId[Ref(tenant, id)], Resolve(h, w, tenant, id, r);
            && Settled(w, o.world, c, r, o.created)
            && o.result == Some(c.(status := Resolved(r.value, r.actor, r.now, r.reason)))
  {
    var c := w.conflicts.byId[Ref(tenant, id)];
    if c.key.entity in w.states {
      DecideSettles(h, w, c, r);
      hide Decide, CloseConflict, Settled;
    } else {
      hide Decides, Tells;
    }
  }

  /** A conflict that is resolved or unknown is answered with what is known of it, and nothing changes. */
  lemma ResolvedStays(h: HashCommit, w: World, tenant: string, id: string, r: Resolution)
    requires Ref(tenant, id) in w.conflicts.byId ==> w.conflicts.byId[Ref(tenant, id)].status.Resolved?
    ensures var o := Resolve(h, w, tenant, id, r);
            && o.world == w && o.created == None
            && (Ref(tenant, id) in w.conflicts.byId ==> o.result == Some(w.conflicts.byId[Ref(tenant, id)]))
            && (Ref(tenant, id) !in w.conflicts.byId ==> o.result == None)
  {
  }
}
