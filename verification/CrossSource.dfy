/**
 No silent cross-source overwrite (world_state/service.py): which values an observation may replace, where the
 refused ones go, and how long an operator's decision stands.
 */
module CrossSource {
  import opened Basics
  import opened JsonValues
  import opened WorldModel
  import opened ConflictIndex

  /** The value may be replaced by `connector`: it is not fresh, nobody is known to own it, or `connector` does. */
  predicate Replaceable(a: Attribute, connector: string) {
    a.freshness.Stale? || a.connector.None? || a.connector == Some(connector)
  }

  predicate Reports(obs: Observation, name: string) {
    exists i | 0 <= i < |obs.payload| :: obs.payload[i].0 == name
  }

  /** What the loop of `ingest` makes of each attribute, whatever the order of the payload. */
  lemma {:induction false} FoldedAttributes(tenant: string, obs: Observation, d: Draws, previous: Attributes,
                                            cs: ConflictStore, n: nat)
    requires n <= |obs.payload|
    ensures var after := FoldPayload(tenant, obs, d, previous, cs, n).attributes;
            && (forall i | 0 <= i < n ::
                  var name := obs.payload[i].0;
                  if Blocked(previous, name, IncomingAt(obs, d, i)) then name in after && after[name] == previous[name]
                  else name in after && after[name] == IncomingAt(obs, d, i))
            && (forall name | forall i | 0 <= i < n :: obs.payload[i].0 != name ::
                  (name in after <==> name in previous) && (name in previous ==> after[name] == previous[name]))
  {
    hide FoldOne, Blocked, IncomingAt;
    if n > 0 {
      FoldedAttributes(tenant, obs, d, previous, cs, n - 1);
      FoldedOne(tenant, obs, d, previous, FoldPayload(tenant, obs, d, previous, cs, n - 1), n - 1);
      BlockedHasValue(previous, obs.payload[n - 1].0, IncomingAt(obs, d, n - 1));
      assert forall i | 0 <= i < n - 1 :: obs.payload[i].0 != obs.payload[n - 1].0;
    }
  }

  lemma FoldedOne(tenant: string, obs: Observation, d: Draws, previous: Attributes, f: Folding, i: nat)
    requires i < |obs.payload|
    ensures FoldOne(tenant, obs, d, previous, f, i).attributes ==
            if Blocked(previous, obs.payload[i].0, IncomingAt(obs, d, i)) then f.attributes
            else f.attributes[obs.payload[i].0 := IncomingAt(obs, d, i)]
  {
    hide Record, CandidateOf;
  }

  lemma BlockedHasValue(previous: Attributes, name: string, incoming: Attribute)
    ensures Blocked(previous, name, incoming) ==> name in previous
  {
  }

  ghost function StateAfter(h: HashCommit, w: World, tenant: string, obs: Observation, cause: string, assurance: string,
                            d: Draws): Attributes
  {
    AttributesOf(Ingest(h, w, tenant, obs, cause, assurance, d).world.states, EntityOf(tenant, obs))
  }

  /** Either nothing was stored, or what the loop computed was. */
  lemma StateAfterIngest(h: HashCommit, w: World, tenant: string, obs: Observation, cause: string, assurance: string,
                         d: Draws)
    ensures var key := EntityOf(tenant, obs);
            var before := AttributesOf(w.states, key);
            var folded := FoldPayload(tenant, obs, d, before, w.conflicts, |obs.payload|).attributes;
            var after := StateAfter(h, w, tenant, obs, cause, assurance, d);
            || after == before
            || (Ref(tenant, obs.id) !in w.observations && after == folded)
    ensures Ref(tenant, obs.id) !in w.observations ==>
              var key := EntityOf(tenant, obs);
              var before := AttributesOf(w.states, key);
              var folded := FoldPayload(tenant, obs, d, before, w.conflicts, |obs.payload|).attributes;
              forall n :: ValueOf(StateAfter(h, w, tenant, obs, cause, assurance, d), n) == ValueOf(folded, n)
  {
    hide FoldPayload, NewCommit, Capitalize;
    var before := AttributesOf(w.states, EntityOf(tenant, obs));
    var folded := FoldPayload(tenant, obs, d, before, w.conflicts, |obs.payload|).attributes;
    NoDiffSameValues(before, folded);
  }

  lemma NoDiffSameValues(before: Attributes, after: Attributes)
    ensures Diff(before, after) == [] ==> forall n :: ValueOf(before, n) == ValueOf(after, n)
  {
    forall n | ValueOf(before, n) != ValueOf(after, n)
      ensures n in Diff(before, after)
    {
      assert n in Changed(before, after);
    }
  }

  /**
   An ingest keeps every attribute, and changes the value of a known one only if the reporting connector may replace
   it.
   */
  lemma NoSilentOverwrite(h: HashCommit, w: World, tenant: string, obs: Observation, cause: string, assurance: string,
                          d: Draws, name: string)
    requires name in AttributesOf(w.states, EntityOf(tenant, obs))
    ensures var before := AttributesOf(w.states, EntityOf(tenant, obs))[name];
            var after := StateAfter(h, w, tenant, obs, cause, assurance, d);
            && name in after
            && (after[name].value != before.value ==>
                  && Replaceable(before, obs.connector)
                  && exists i | 0 <= i < |obs.payload| :: obs.payload[i] == (name, after[name].value))
  {
    hide FoldPayload;
    var before := AttributesOf(w.states, EntityOf(tenant, obs));
    FoldedAttributes(tenant, obs, d, before, w.conflicts, |obs.payload|);
    StateAfterIngest(h, w, tenant, obs, cause, assurance, d);
    hide Ingest, StateAfter;
    if i :| 0 <= i < |obs.payload| && obs.payload[i].0 == name {
      assert obs.payload[i] == (name, IncomingAt(obs, d, i).value);
    }
  }

  /** Every value that was refused is kept as a side of an open conflict, and the value it lost to stays. */
  lemma RefusedValueIsDisputed(h: HashCommit, w: World, tenant: string, obs: Observation, cause: string,
                               assurance: string,
                               d: Draws, i: nat)
    requires StoreSound(w.conflicts) && FreshDraws(w, Observe(tenant, obs, cause, assurance, d))
    requires Ref(tenant, obs.id) !in w.observations && i < |obs.payload|
    requires Blocked(AttributesOf(w.states, EntityOf(tenant, obs)), obs.payload[i].0, IncomingAt(obs, d, i))
    ensures var key, name := EntityOf(tenant, obs), obs.payload[i].0;
            var o := Ingest(h, w, tenant, obs, cause, assurance, d);
            && Disputed(o.world.conflicts, ConflictKey(key, name), CandidateOf(IncomingAt(obs, d, i)))
            && HasOpenConflicts(o.world.conflicts, key)
            && ValueOf(AttributesOf(o.world.states, key), name) == AttributesOf(w.states, key)[name].value
  {
    var key, name := EntityOf(tenant, obs), obs.payload[i].0;
    var before := AttributesOf(w.states, key);
    DrawnIdsAreFresh(w.conflicts, tenant, obs, d);
    FoldKeeps(tenant, obs, d, before, w.conflicts, |obs.payload|);
    IngestConflicts(h, w, tenant, obs, cause, assurance, d);
    FoldedAttributes(tenant, obs, d, before, w.conflicts, |obs.payload|);
    StateAfterIngest(h, w, tenant, obs, cause, assurance, d);
    hide Ingest, FoldPayload, StoreSound, StoreGrows, NewAt, Project, CandidateOf, Seen;
    assert ConflictKey(key, name) in Ingest(h, w, tenant, obs, cause, assurance, d).world.conflicts.open;
  }

  // ---------------------------------------------------------------- an operator's decision

  ghost function RunFrom(h: HashCommit, w: World, ops: seq<WorldOp>): World {
    if |ops| == 0 then w else Apply(h, RunFrom(h, w, ops[..|ops| - 1]), ops[|ops| - 1]).0
  }

  /** The operation re-resolves the attribute, restates its value, or reports it as a connector named "operator". */
  ghost predicate Disturbs(w: World, op: WorldOp, key: ConflictKey, value: Json) {
    match op
    case Observe(tenant, obs, _, _, d) =>
      && EntityOf(tenant, obs) == key.entity
      && exists i | 0 <= i < |obs.payload| ::
           obs.payload[i].0 == key.attribute && (obs.payload[i].1 == value || obs.connector == "operator")
    case Settle(tenant, id, _) =>
      Ref(tenant, id) in w.conflicts.byId && w.conflicts.byId[Ref(tenant, id)].key == key
  }

  /** The attribute as an operator's resolution leaves it. */
  ghost predicate DecidedBy(w: World, key: ConflictKey, a: Attribute) {
    && key.entity in w.states
    && key.attribute in w.states[key.entity].attributes
    && w.states[key.entity].attributes[key.attribute] == a
    && a.connector == Some("operator")
    && a.freshness.Fresh?
  }

  lemma ResolveDecides(h: HashCommit, w: World, tenant: string, id: string, r: Resolution)
    requires Ref(tenant, id) in w.conflicts.byId && w.conflicts.byId[Ref(tenant, id)].status.Open?
    requires w.conflicts.byId[Ref(tenant, id)].key.entity in w.states
    ensures var c := w.conflicts.byId[Ref(tenant, id)];
            && DecidedBy(Resolve(h, w, tenant, id, r).world, c.key, ResolvedAttribute(c, r))
            && ResolvedAttribute(c, r).value == r.value
            && c.key !in Resolve(h, w, tenant, id, r).world.conflicts.open
  {
    hide NewCommit, ResolvedSources, ResolvedConfidence;
  }

  lemma StepKeepsDecision(h: HashCommit, w: World, op: WorldOp, key: ConflictKey, a: Attribute)
    requires DecidedBy(w, key, a) && !Disturbs(w, op, key, a.value)
    ensures DecidedBy(Apply(h, w, op).0, key, a)
  {
    match op
    case Observe(tenant, obs, cause, assurance, d) =>
      ObserveKeepsDecision(h, w, tenant, obs, cause, assurance, d, key, a);
    case Settle(tenant, id, r) =>
      hide NewCommit, ResolvedAttribute, CloseConflict;
  }

  lemma ObserveKeepsDecision(h: HashCommit, w: World, tenant: string, obs: Observation, cause: string,
                             assurance: string,
                             d: Draws, key: ConflictKey, a: Attribute)
    requires DecidedBy(w, key, a) && !Disturbs(w, Observe(tenant, obs, cause, assurance, d), key, a.value)
    ensures DecidedBy(Ingest(h, w, tenant, obs, cause, assurance, d).world, key, a)
  {
    if EntityOf(tenant, obs) == key.entity {
      var before := AttributesOf(w.states, key.entity);
      FoldedAttributes(tenant, obs, d, before, w.conflicts, |obs.payload|);
      StateAfterIngest(h, w, tenant, obs, cause, assurance, d);
      assert key.entity in Ingest(h, w, tenant, obs, cause, assurance, d).world.states by {
        hide FoldPayload, Diff, NewCommit, Capitalize;
      }
      hide Ingest, FoldPayload;
      if i :| 0 <= i < |obs.payload| && obs.payload[i].0 == key.attribute {
        assert Blocked(before, key.attribute, IncomingAt(obs, d, i));
      }
    } else {
      hide FoldPayload, Diff, NewCommit, Capitalize;
    }
  }

  /** An operator's decision survives any run that neither re-resolves, restates nor impersonates it. */
  lemma {:induction false} OperatorDecisionSurvives(h: HashCommit, w: World, ops: seq<WorldOp>, key: ConflictKey,
                                                    a: Attribute)
    requires DecidedBy(w, key, a)
    requires forall n | 0 <= n < |ops| :: !Disturbs(RunFrom(h, w, ops[..n]), ops[n], key, a.value)
    ensures DecidedBy(RunFrom(h, w, ops), key, a)
    decreases |ops|
  {
    hide Apply, Disturbs, DecidedBy;
    if |ops| > 0 {
      var init := ops[..|ops| - 1];
      forall n | 0 <= n < |init|
        ensures !Disturbs(RunFrom(h, w, init[..n]), init[n], key, a.value)
      {
        assert init[..n] == ops[..n];
      }
      OperatorDecisionSurvives(h, w, init, key, a);
      StepKeepsDecision(h, RunFrom(h, w, init), ops[|ops| - 1], key, a);
    }
  }

  // ---------------------------------------------------------------- single-source reads

  /** If one connector owns an attribute, what it reports is what the state shows. */
  lemma OwnReportIsEffective(h: HashCommit, w: World, tenant: string, obs: Observation, cause: string,
                             assurance: string,
                             d: Draws, i: nat)
    requires Ref(tenant, obs.id) !in w.observations && i < |obs.payload|
    requires var before := AttributesOf(w.states, EntityOf(tenant, obs));
             obs.payload[i].0 in before ==> before[obs.payload[i].0].connector == Some(obs.connector)
    ensures ValueOf(StateAfter(h, w, tenant, obs, cause, assurance, d), obs.payload[i].0) == obs.payload[i].1
  {
    hide FoldPayload;
    FoldedAttributes(tenant, obs, d, AttributesOf(w.states, EntityOf(tenant, obs)), w.conflicts, |obs.payload|);
    StateAfterIngest(h, w, tenant, obs, cause, assurance, d);
    hide Ingest, StateAfter;
    assert !Blocked(AttributesOf(w.states, EntityOf(tenant, obs)), obs.payload[i].0, IncomingAt(obs, d, i));
  }

  /** If the attribute is there, `connector` owns it. */
  ghost predicate OwnedBy(w: World, entity: EntityKey, name: string, connector: string) {
    var attributes := AttributesOf(w.states, entity);
    name in attributes ==> attributes[name].connector == Some(connector)
  }

  /** Another connector reports the attribute, or an operator decides on it. */
  ghost predicate ForeignWrite(w: World, op: WorldOp, entity: EntityKey, name: string, connector: string) {
    match op
    case Observe(tenant, obs, _, _, _) => EntityOf(tenant, obs) == entity && obs.connector != connector
        && Reports(obs, name)
    case Settle(tenant, id, _) =>
      Ref(tenant, id) in w.conflicts.byId && w.conflicts.byId[Ref(tenant, id)].key == ConflictKey(entity, name)
  }

  lemma StepKeepsOwner(h: HashCommit, w: World, op: WorldOp, entity: EntityKey, name: string, connector: string)
    requires OwnedBy(w, entity, name, connector) && !ForeignWrite(w, op, entity, name, connector)
    ensures OwnedBy(Apply(h, w, op).0, entity, name, connector)
  {
    match op
    case Observe(tenant, obs, cause, assurance, d) =>
      if EntityOf(tenant, obs) == entity {
        ObserveKeepsOwner(h, w, tenant, obs, cause, assurance, d, name, connector);
      } else {
        hide FoldPayload, Diff, NewCommit, Capitalize;
      }
    case Settle(tenant, id, r) =>
      hide NewCommit, ResolvedAttribute, CloseConflict;
  }

  lemma ObserveKeepsOwner(h: HashCommit, w: World, tenant: string, obs: Observation, cause: string, assurance: string,
                          d: Draws, name: string, connector: string)
    requires OwnedBy(w, EntityOf(tenant, obs), name, connector)
    requires obs.connector == connector || !Reports(obs, name)
    ensures OwnedBy(Ingest(h, w, tenant, obs, cause, assurance, d).world, EntityOf(tenant, obs), name, connector)
  {
    FoldedAttributes(tenant, obs, d, AttributesOf(w.states, EntityOf(tenant, obs)), w.conflicts, |obs.payload|);
    StateAfterIngest(h, w, tenant, obs, cause, assurance, d);
    hide FoldPayload, Ingest;
    if i :| 0 <= i < |obs.payload| && obs.payload[i].0 == name {
      assert Reports(obs, name);
    }
  }

  /** An attribute that only one connector writes stays that connector's. */
  lemma {:induction false} SoleWriterOwns(h: HashCommit, w: World, ops: seq<WorldOp>, entity: EntityKey, name: string,
                                          connector: string)
    requires OwnedBy(w, entity, name, connector)
    requires forall n | 0 <= n < |ops| :: !ForeignWrite(RunFrom(h, w, ops[..n]), ops[n], entity, name, connector)
    ensures OwnedBy(RunFrom(h, w, ops), entity, name, connector)
    decreases |ops|
  {
    hide Apply, ForeignWrite, OwnedBy;
    if |ops| > 0 {
      var init := ops[..|ops| - 1];
      forall n | 0 <= n < |init|
        ensures !ForeignWrite(RunFrom(h, w, init[..n]), init[n], entity, name, connector)
      {
        assert init[..n] == ops[..n];
      }
      SoleWriterOwns(h, w, init, entity, name, connector);
      StepKeepsOwner(h, RunFrom(h, w, init), ops[|ops| - 1], entity, name, connector);
    }
  }

  lemma {:induction false} RunIsFromEmpty(h: HashCommit, ops: seq<WorldOp>)
    ensures RunFrom(h, EMPTY_WORLD, ops) == Run(h, ops).world
  {
    hide Apply;
    if |ops| > 0 { RunIsFromEmpty(h, ops[..|ops| - 1]); }
  }

  /** An attribute that only one connector has written since the empty service is that connector's. */
  lemma OwnedFromEmpty(h: HashCommit, ops: seq<WorldOp>, entity: EntityKey, name: string, connector: string)
    requires forall n | 0 <= n < |ops| :: !ForeignWrite(Run(h, ops[..n]).world, ops[n], entity, name, connector)
    ensures OwnedBy(Run(h, ops).world, entity, name, connector)
  {
    hide ForeignWrite, Run;
    forall n | 0 <= n < |ops|
      ensures !ForeignWrite(RunFrom(h, EMPTY_WORLD, ops[..n]), ops[n], entity, name, connector)
    {
      RunIsFromEmpty(h, ops[..n]);
    }
    RunIsFromEmpty(h, ops);
    SoleWriterOwns(h, EMPTY_WORLD, ops, entity, name, connector);
  }
}
