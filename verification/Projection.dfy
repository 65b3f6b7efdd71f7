/**
 The projection is rebuildable (world_state/service.py): states, versions, diffs and open disputes are a pure fold over
 the observations and operator decisions. The fold knows no commit id, no conflict id, no hash and no loop order, so
 nothing it yields depends on them, and it ignores repeated observation ids.
 */
module Projection {
  import opened Basics
  import opened JsonValues
  import opened WorldModel
  import opened ConflictIndex
  import opened CommitLog
  import opened CrossSource

  // ---------------------------------------------------------------- the fold

  datatype Entity = Entity(version: int, attributes: Attributes)

  datatype Delta = Delta(entity: EntityKey, before: Attributes, after: Attributes, changed: seq<string>,
                         observationIds: seq<string>)

  datatype Projected = Projected(
    seen: set<Ref>, entities: map<EntityKey, Entity>, disputes: map<ConflictKey, seq<Candidate>>, history: seq<Delta>)

  /** A conflict is chosen by the attribute it is about: at most one is open per attribute. */
  datatype Input =
    | See(tenant: string, obs: Observation, now: int)
    | Choose(key: ConflictKey, value: Json, now: int)

  const NOTHING := Projected({}, map[], map[], [])

  function Reported(obs: Observation, now: int): Attributes {
    map i | 0 <= i < |obs.payload| :: obs.payload[i].0 := Project(obs, obs.payload[i].0, obs.payload[i].1, now)
  }

  /** Every attribute on its own: the reported one, unless it is refused. */
  function Merged(previous: Attributes, reported: Attributes): Attributes {
    map n | n in previous.Keys + reported.Keys ::
      if n in reported && !Blocked(previous, n, reported[n]) then reported[n] else previous[n]
  }

  function Refused(entity: EntityKey, previous: Attributes, reported: Attributes): set<ConflictKey> {
    set n | n in reported && Blocked(previous, n, reported[n]) :: ConflictKey(entity, n)
  }

  /** A refused value joins the dispute about its attribute, or starts one against the value it met. */
  function Disputes(disputes: map<ConflictKey, seq<Candidate>>, entity: EntityKey, previous: Attributes,
                    reported: Attributes):
    map<ConflictKey, seq<Candidate>>
  {
    map k | k in disputes.Keys + Refused(entity, previous, reported) ::
      if k in Refused(entity, previous, reported) then
        WithCandidate(if k in disputes then disputes[k] else [CandidateOf(previous[k.attribute])],
                      CandidateOf(reported[k.attribute]))
      else disputes[k]
  }

  function AttributesAt(p: Projected, key: EntityKey): Attributes {
    if key in p.entities then p.entities[key].attributes else map[]
  }

  function Move(p: Projected, key: EntityKey, after: Attributes, observationIds: seq<string>): Projected {
    var before := AttributesAt(p, key);
    p.(entities := p.entities[key := Entity(if key in p.entities then p.entities[key].version + 1 else 1, after)],
    history := p.history + [Delta(key, before, after, Diff(before, after), observationIds)])
  }

  function Chosen(candidates: seq<Candidate>, value: Json, now: int): Attribute {
    Attribute(value, ResolvedConfidence(candidates, value), now, Fresh, ResolvedSources(candidates, value),
              Some("operator"))
  }

  function FoldInput(p: Projected, input: Input): Projected {
    match input
    case See(tenant, obs, now) =>
      if Ref(tenant, obs.id) in p.seen then p
      else
        var key, reported := EntityOf(tenant, obs), Reported(obs, now);
        var before := AttributesAt(p, key);
        var after := Merged(before, reported);
        var p1 := p.(seen := p.seen + {Ref(tenant, obs.id)}, disputes := Disputes(p.disputes, key, before, reported));
        if key in p.entities && Diff(before, after) == [] then p1 else Move(p1, key, after, [obs.id])
    case Choose(key, value, now) =>
      if key !in p.disputes then p
      else
        var p1 := p.(disputes := p.disputes - {key});
        if key.entity !in p.entities then p1
        else
          var a := Chosen(p.disputes[key], value, now);
          Move(p1, key.entity, AttributesAt(p, key.entity)[key.attribute := a], a.sources)
  }

  function FoldInputs(inputs: seq<Input>): Projected {
    if inputs == [] then NOTHING else FoldInput(FoldInputs(inputs[..|inputs| - 1]), inputs[|inputs| - 1])
  }

  // ---------------------------------------------------------------- repeated observations

  ghost predicate SeenIn(inputs: seq<Input>, ref: Ref) {
    exists i | 0 <= i < |inputs| :: inputs[i].See? && Ref(inputs[i].tenant, inputs[i].obs.id) == ref
  }

  /** The inputs without the observations whose id came before for the tenant. */
  ghost function WithoutRepeats(inputs: seq<Input>): seq<Input> {
    if inputs == [] then []
    else
      var init, last := inputs[..|inputs| - 1], inputs[|inputs| - 1];
      if last.See? && SeenIn(init, Ref(last.tenant, last.obs.id)) then WithoutRepeats(init)
          else WithoutRepeats(init) + [last]
  }

  lemma {:induction false} SeenIsWhatWasSeen(inputs: seq<Input>, ref: Ref)
    ensures ref in FoldInputs(inputs).seen <==> SeenIn(inputs, ref)
  {
    if inputs != [] {
      hide Disputes, Merged, Diff, Reported, Chosen;
      var init, last := inputs[..|inputs| - 1], inputs[|inputs| - 1];
      SeenIsWhatWasSeen(init, ref);
      assert forall i | 0 <= i < |init| :: init[i] == inputs[i];
      assert SeenIn(inputs, ref) <==> SeenIn(init, ref) || (last.See? && Ref(last.tenant, last.obs.id) == ref);
    }
  }

  /** Dropping repeated observation ids changes nothing. */
  lemma {:induction false} RepeatsDoNotMatter(inputs: seq<Input>)
    ensures FoldInputs(WithoutRepeats(inputs)) == FoldInputs(inputs)
  {
    if inputs != [] {
      hide Disputes, Merged, Diff, Reported, Chosen, Move;
      var init, last := inputs[..|inputs| - 1], inputs[|inputs| - 1];
      RepeatsDoNotMatter(init);
      if last.See? && SeenIn(init, Ref(last.tenant, last.obs.id)) {
        SeenIsWhatWasSeen(init, Ref(last.tenant, last.obs.id));
      } else {
        assert (WithoutRepeats(init) + [last])[..|WithoutRepeats(init)|] == WithoutRepeats(init);
      }
    }
  }

  // ---------------------------------------------------------------- the service computes the fold

  function DisputeAt(cs: ConflictStore, key: ConflictKey): Option<seq<Candidate>> {
    if key in cs.open && Ref(key.entity.tenant, cs.open[key]) in cs.byId
    then Some(cs.byId[Ref(key.entity.tenant, cs.open[key])].candidates) else None
  }

  function DeltaOf(c: Commit): Delta {
    Delta(c.body.entity, c.body.before, c.body.after, c.body.changed, c.body.observationIds)
  }

  ghost predicate ShowsDisputes(cs: ConflictStore, disputes: map<ConflictKey, seq<Candidate>>) {
    forall k :: DisputeAt(cs, k) == if k in disputes then Some(disputes[k]) else None
  }

  ghost predicate ShowsEntities(w: World, entities: map<EntityKey, Entity>) {
    && (forall k :: k in w.states <==> k in entities)
    && (forall k | k in w.states :: entities[k] == Entity(w.states[k].stateVersion, w.states[k].attributes))
  }

  ghost predicate ShowsHistory(log: seq<Commit>, history: seq<Delta>) {
    |log| == |history| && forall i | 0 <= i < |log| :: history[i] == DeltaOf(log[i])
  }

  /** What the service holds, without the ids it made up, is `p`. */
  ghost predicate Shows(s: History, p: Projected) {
    && (forall r :: r in s.world.observations <==> r in p.seen)
    && ShowsEntities(s.world, p.entities)
    && ShowsDisputes(s.world.conflicts, p.disputes)
    && ShowsHistory(s.log, p.history)
  }

  /** The operation as the fold sees it; nothing when the conflict id is unknown or the conflict is closed. */
  function InputOf(w: World, op: WorldOp): Option<Input> {
    match op
    case Observe(tenant, obs, _, _, d) => Some(See(tenant, obs, d.now))
    case Settle(tenant, id, r) =>
      if Ref(tenant, id) in w.conflicts.byId && w.conflicts.byId[Ref(tenant, id)].status.Open?
      then Some(Choose(w.conflicts.byId[Ref(tenant, id)].key, r.value, r.now)) else None
  }

  ghost function InputsOf(h: HashCommit, ops: seq<WorldOp>): seq<Input> {
    if |ops| == 0 then []
    else
      var init := ops[..|ops| - 1];
      InputsOf(h, init) + match InputOf(Run(h, init).world, ops[|ops| - 1]) case None => [] case Some(i) => [i]
  }

  lemma ReportedAt(obs: Observation, d: Draws, n: string)
    ensures n in Reported(obs, d.now) <==> exists i | 0 <= i < |obs.payload| :: obs.payload[i].0 == n
    ensures forall i | 0 <= i < |obs.payload| && obs.payload[i].0 == n ::
              n in Reported(obs, d.now) && Reported(obs, d.now)[n] == IncomingAt(obs, d, i)
  {
    hide Project;
  }

  lemma MergedAt(tenant: string, obs: Observation, d: Draws, previous: Attributes, cs: ConflictStore, n: string)
    ensures var folded := FoldPayload(tenant, obs, d, previous, cs, |obs.payload|).attributes;
            var merged := Merged(previous, Reported(obs, d.now));
            (n in folded <==> n in merged) && (n in folded ==> folded[n] == merged[n])
  {
    hide Blocked, Project, FoldPayload, Reported, IncomingAt;
    FoldedAttributes(tenant, obs, d, previous, cs, |obs.payload|);
    ReportedAt(obs, d, n);
    if i :| 0 <= i < |obs.payload| && obs.payload[i].0 == n {
      BlockedHasValue(previous, n, IncomingAt(obs, d, i));
    }
  }

  lemma FoldAttributesIsMerged(tenant: string, obs: Observation, d: Draws, previous: Attributes, cs: ConflictStore)
    ensures FoldPayload(tenant, obs, d, previous, cs, |obs.payload|).attributes
              == Merged(previous, Reported(obs, d.now))
  {
    hide FoldPayload, Merged;
    forall n
      ensures var folded := FoldPayload(tenant, obs, d, previous, cs, |obs.payload|).attributes;
              var merged := Merged(previous, Reported(obs, d.now));
              (n in folded <==> n in merged) && (n in folded ==> folded[n] == merged[n])
    {
      MergedAt(tenant, obs, d, previous, cs, n);
    }
  }

  lemma FirstRefusal(existing: Attribute, incoming: Attribute)
    requires existing.connector != incoming.connector
    ensures WithCandidate([CandidateOf(existing)], CandidateOf(incoming))
              == [CandidateOf(existing), CandidateOf(incoming)]
  {
    assert !Seen([CandidateOf(existing)], CandidateOf(incoming));
  }

  lemma RecordDispute(cs: ConflictStore, key: ConflictKey, id: string, at: int, existing: Attribute,
                      incoming: Attribute, k: ConflictKey)
    requires StoreSound(cs) && Ref(key.entity.tenant, id) !in cs.byId
    requires existing.connector != incoming.connector
    ensures DisputeAt(Record(cs, key, id, at, existing, incoming), k) ==
            if k == key then
              Some(WithCandidate(match DisputeAt(cs, key) case Some(c) => c case None => [CandidateOf(existing)],
                                 CandidateOf(incoming)))
            else DisputeAt(cs, k)
  {
    FirstRefusal(existing, incoming);
    hide CandidateOf, WithCandidate, ProperDispute;
  }

  /** The `i`-th attribute is refused, and `k` is what the dispute is about. */
  predicate RefusedUnder(tenant: string, obs: Observation, d: Draws, previous: Attributes, i: nat, k: ConflictKey)
    requires i < |obs.payload|
  {
    k == ConflictKey(EntityOf(tenant, obs), obs.payload[i].0)
        && Blocked(previous, obs.payload[i].0, IncomingAt(obs, d, i))
  }

  /** The dispute once the `i`-th attribute has joined it. */
  function Joined(obs: Observation, d: Draws, previous: Attributes, i: nat,
                  dispute: Option<seq<Candidate>>): Option<seq<Candidate>>
    requires i < |obs.payload| && obs.payload[i].0 in previous
  {
    Some(WithCandidate(match dispute case Some(c) => c case None => [CandidateOf(previous[obs.payload[i].0])],
                       CandidateOf(IncomingAt(obs, d, i))))
  }

  lemma RefusedHasValue(tenant: string, obs: Observation, d: Draws, previous: Attributes, k: ConflictKey)
    ensures forall i: nat | i < |obs.payload| && RefusedUnder(tenant, obs, d, previous, i, k) ::
              obs.payload[i].0 in previous
    ensures forall i: nat, j: nat | i < j < |obs.payload| ::
              !(RefusedUnder(tenant, obs, d, previous, i, k) && RefusedUnder(tenant, obs, d, previous, j, k))
  {
  }

  /** The loop changes the dispute about `k` exactly when an attribute is refused under it. */
  lemma {:induction false} FoldDisputes(tenant: string, obs: Observation, d: Draws, previous: Attributes,
                                        cs: ConflictStore, n: nat, k: ConflictKey)
    requires n <= |obs.payload| && StoreSound(cs) && FreshConflictIds(cs, tenant, obs, d)
    ensures forall i: nat | i < n && RefusedUnder(tenant, obs, d, previous, i, k) ::
              obs.payload[i].0 in previous &&
              DisputeAt(FoldPayload(tenant, obs, d, previous, cs, n).conflicts, k)
                  == Joined(obs, d, previous, i, DisputeAt(cs, k))
    ensures (forall i: nat | i < n :: !RefusedUnder(tenant, obs, d, previous, i, k)) ==>
              DisputeAt(FoldPayload(tenant, obs, d, previous, cs, n).conflicts, k) == DisputeAt(cs, k)
  {
    RefusedHasValue(tenant, obs, d, previous, k);
    hide RefusedUnder, Joined, DisputeAt, FoldOne, StoreSound, FreshConflictIds, Recorded;
    if n > 0 {
      var f := FoldPayload(tenant, obs, d, previous, cs, n - 1);
      FoldDisputes(tenant, obs, d, previous, cs, n - 1, k);
      FoldKeeps(tenant, obs, d, previous, cs, n - 1);
      FoldOneDispute(tenant, obs, d, previous, cs, f, n - 1, k);
    }
  }

  lemma FoldOneDispute(tenant: string, obs: Observation, d: Draws, previous: Attributes, cs: ConflictStore,
                       f: Folding, n: nat, k: ConflictKey)
    requires n < |obs.payload| && FreshConflictIds(cs, tenant, obs, d)
    requires Recorded(tenant, obs, d, previous, cs, f.conflicts, n)
    ensures RefusedUnder(tenant, obs, d, previous, n, k) ==>
              obs.payload[n].0 in previous &&
              DisputeAt(FoldOne(tenant, obs, d, previous, f, n).conflicts, k)
                  == Joined(obs, d, previous, n, DisputeAt(f.conflicts, k))
    ensures !RefusedUnder(tenant, obs, d, previous, n, k) ==>
              DisputeAt(FoldOne(tenant, obs, d, previous, f, n).conflicts, k) == DisputeAt(f.conflicts, k)
  {
    var name, incoming := obs.payload[n].0, IncomingAt(obs, d, n);
    if Blocked(previous, name, incoming) {
      NextIdIsFresh(tenant, obs, d, cs, f.conflicts, n);
      RecordDispute(f.conflicts, ConflictKey(EntityOf(tenant, obs), name), ConflictId(d.conflictUuid(name)),
                    d.detectedAt(name),
                    previous[name], incoming, k);
    }
    hide Record, WithCandidate, CandidateOf, DisputeAt, StoreSound, StoreGrows, NewAt, ConflictId;
  }

  /** The dispute side of `See`. */
  lemma ObservedDisputes(tenant: string, obs: Observation, d: Draws, previous: Attributes, cs: ConflictStore,
                         disputes: map<ConflictKey, seq<Candidate>>)
    requires StoreSound(cs) && FreshConflictIds(cs, tenant, obs, d) && ShowsDisputes(cs, disputes)
    ensures ShowsDisputes(FoldPayload(tenant, obs, d, previous, cs, |obs.payload|).conflicts,
                          Disputes(disputes, EntityOf(tenant, obs), previous, Reported(obs, d.now)))
  {
    forall k
      ensures var next := Disputes(disputes, EntityOf(tenant, obs), previous, Reported(obs, d.now));
              DisputeAt(FoldPayload(tenant, obs, d, previous, cs, |obs.payload|).conflicts, k) == if k in next then
                  Some(next[k]) else None
    {
      ObservedDispute(tenant, obs, d, previous, cs, disputes, k);
    }
  }

  lemma ObservedDispute(tenant: string, obs: Observation, d: Draws, previous: Attributes, cs: ConflictStore,
                        disputes: map<ConflictKey, seq<Candidate>>, k: ConflictKey)
    requires StoreSound(cs) && FreshConflictIds(cs, tenant, obs, d) && ShowsDisputes(cs, disputes)
    ensures var next := Disputes(disputes, EntityOf(tenant, obs), previous, Reported(obs, d.now));
            DisputeAt(FoldPayload(tenant, obs, d, previous, cs, |obs.payload|).conflicts, k) == if k in next then
                Some(next[k]) else None
  {
    FoldDisputes(tenant, obs, d, previous, cs, |obs.payload|, k);
    assert DisputeAt(cs, k) == if k in disputes then Some(disputes[k]) else None;
    ReportedAt(obs, d, k.attribute);
    RefusedAt(tenant, obs, d, previous, k);
    hide FoldPayload, StoreSound, FreshConflictIds, ShowsDisputes, DisputeAt, Reported, IncomingAt, CandidateOf,
        WithCandidate, Blocked, Refused;
  }

  lemma RefusedAt(tenant: string, obs: Observation, d: Draws, previous: Attributes, k: ConflictKey)
    ensures k in Refused(EntityOf(tenant, obs), previous, Reported(obs, d.now)) <==>
            exists i | 0 <= i < |obs.payload| ::
              k == ConflictKey(EntityOf(tenant, obs), obs.payload[i].0)
                  && Blocked(previous, obs.payload[i].0, IncomingAt(obs, d, i))
  {
    hide Project, Blocked;
    if i :| 0 <= i < |obs.payload| && k == ConflictKey(EntityOf(tenant, obs), obs.payload[i].0)
            && Blocked(previous, obs.payload[i].0, IncomingAt(obs, d, i)) {
      ReportedAt(obs, d, obs.payload[i].0);
    }
    if k in Refused(EntityOf(tenant, obs), previous, Reported(obs, d.now)) {
      ReportedAt(obs, d, k.attribute);
      var i :| 0 <= i < |obs.payload| && obs.payload[i].0 == k.attribute;
    }
  }

  lemma EntityMoves(h: HashCommit, w: World, w': World, c: Commit, log: seq<Commit>, p: Projected)
    requires Committed(h, w, w', c) && ShowsEntities(w, p.entities) && ShowsHistory(log, p.history)
    ensures var p' := Move(p, c.body.entity, c.body.after, c.body.observationIds);
            ShowsEntities(w', p'.entities) && ShowsHistory(log + [c], p'.history)
  {
    hide Diff;
    var p' := Move(p, c.body.entity, c.body.after, c.body.observationIds);
    var key := c.body.entity;
    assert (key in w.states ==> w.states[key].stateVersion == p.entities[key].version);
    assert p'.history[|log|] == DeltaOf(c);
  }

  /** The parts of an ingest of a new observation. */
  lemma IngestParts(h: HashCommit, w: World, tenant: string, obs: Observation, cause: string, assurance: string,
                    d: Draws)
    requires Ref(tenant, obs.id) !in w.observations
    ensures var key := EntityOf(tenant, obs);
            var before := AttributesOf(w.states, key);
            var f := FoldPayload(tenant, obs, d, before, w.conflicts, |obs.payload|);
            var o := Ingest(h, w, tenant, obs, cause, assurance, d);
            && o.world.observations == w.observations[Ref(tenant, obs.id) := obs]
            && o.world.conflicts == f.conflicts
            && (o.created.None? <==> key in w.states && Diff(before, f.attributes) == [])
            && (o.created.Some? ==>
                  var b := o.created.value.body;
                  b.entity == key && b.after == f.attributes && b.observationIds == [obs.id])
  {
    hide FoldPayload, Diff, Capitalize, CommitId, LatestHash, LatestId;
  }

  lemma ObserveShows(h: HashCommit, s: History, p: Projected, tenant: string, obs: Observation, cause: string,
                     assurance: string, d: Draws)
    requires Shows(s, p) && StoreSound(s.world.conflicts)
              && FreshDraws(s.world, Observe(tenant, obs, cause, assurance, d))
    ensures Shows(Step(h, s, Observe(tenant, obs, cause, assurance, d)), FoldInput(p, See(tenant, obs, d.now)))
  {
    hide Ingest, FoldPayload, StoreSound, FreshDraws, Committed, ShowsDisputes, Merged, Reported, Disputes, Move, Diff;
    var w := s.world;
    if Ref(tenant, obs.id) in w.observations {
      RepeatedIngest(h, w, tenant, obs, cause, assurance, d);
    } else {
      var key := EntityOf(tenant, obs);
      var before := AttributesOf(w.states, key);
      assert before == AttributesAt(p, key);
      DrawnIdsFreshFor(w, tenant, obs, cause, assurance, d);
      ApplyAdvances(h, w, Observe(tenant, obs, cause, assurance, d));
      FoldAttributesIsMerged(tenant, obs, d, before, w.conflicts);
      ObservedDisputes(tenant, obs, d, before, w.conflicts, p.disputes);
      IngestParts(h, w, tenant, obs, cause, assurance, d);
      var disputes, after := Disputes(p.disputes, key, before, Reported(obs, d.now)),
          Merged(before, Reported(obs, d.now));
      MoveParts(p, disputes, Ref(tenant, obs.id), key, after, [obs.id]);
      var o := Ingest(h, w, tenant, obs, cause, assurance, d);
      if o.created.Some? {
        EntityMoves(h, w, o.world, o.created.value, s.log, p);
      } else {
        SameEntitiesShow(w, o.world, p.entities);
      }
    }
  }

  lemma RepeatedIngest(h: HashCommit, w: World, tenant: string, obs: Observation, cause: string, assurance: string,
                       d: Draws)
    requires Ref(tenant, obs.id) in w.observations
    ensures Ingest(h, w, tenant, obs, cause, assurance, d).world == w
    ensures Ingest(h, w, tenant, obs, cause, assurance, d).created.None?
  {
  }

  lemma DrawnIdsFreshFor(w: World, tenant: string, obs: Observation, cause: string, assurance: string, d: Draws)
    requires FreshDraws(w, Observe(tenant, obs, cause, assurance, d))
    ensures FreshConflictIds(w.conflicts, tenant, obs, d)
  {
    DrawnIdsAreFresh(w.conflicts, tenant, obs, d);
  }

  lemma SameEntitiesShow(w: World, w': World, entities: map<EntityKey, Entity>)
    requires w'.states == w.states && ShowsEntities(w, entities)
    ensures ShowsEntities(w', entities)
  {
  }

  lemma SettleShows(h: HashCommit, s: History, p: Projected, tenant: string, id: string, r: Resolution)
    requires Shows(s, p) && StoreSound(s.world.conflicts) && FreshDraws(s.world, Settle(tenant, id, r))
    requires Ref(tenant, id) in s.world.conflicts.byId && s.world.conflicts.byId[Ref(tenant, id)].status.Open?
    ensures Shows(Step(h, s, Settle(tenant, id, r)),
                  FoldInput(p, Choose(s.world.conflicts.byId[Ref(tenant, id)].key, r.value, r.now)))
  {
    var w := s.world;
    var c := w.conflicts.byId[Ref(tenant, id)];
    var key := c.key;
    var o := Resolve(h, w, tenant, id, r);
    assert DisputeAt(w.conflicts, key) == Some(c.candidates);
    assert DisputeAt(w.conflicts, key) == if key in p.disputes then Some(p.disputes[key]) else None;
    ApplyAdvances(h, w, Settle(tenant, id, r));
    ClosedDisputes(w.conflicts, c, r, p.disputes);
    DecideParts(h, w, c, r);
    hide Decide, StoreSound, FreshDraws, Committed, ShowsDisputes, CloseConflict, Move, Diff, ResolvedConfidence,
        ResolvedSources, DisputeAt;
    var after := AttributesAt(p, key.entity)[key.attribute := Chosen(c.candidates, r.value, r.now)];
    MovePartsAfterChoice(p, key, after, Chosen(c.candidates, r.value, r.now).sources);
    if o.created.Some? {
      EntityMoves(h, w, o.world, o.created.value, s.log, p);
    } else {
      SameEntitiesShow(w, o.world, p.entities);
    }
  }

  lemma MovePartsAfterChoice(p: Projected, key: ConflictKey, after: Attributes, ids: seq<string>)
    ensures var p1 := p.(disputes := p.disputes - {key});
            var q, q1 := Move(p, key.entity, after, ids), Move(p1, key.entity, after, ids);
            q1.entities == q.entities && q1.history == q.history && q1.disputes == p1.disputes && q1.seen == p.seen
  {
  }

  lemma DecideParts(h: HashCommit, w: World, c: Conflict, r: Resolution)
    ensures var o := Decide(h, w, c, r);
            var a := Chosen(c.candidates, r.value, r.now);
            && o.world.observations == w.observations
            && (o.created.None? <==> c.key.entity !in w.states)
            && (o.created.Some? ==>
                  var b := o.created.value.body;
                  b.entity == c.key.entity && b.after == w.states[c.key.entity].attributes[c.key.attribute := a]
                      && b.observationIds == a.sources)
  {
    hide Diff, CommitId, LatestHash, LatestId, ResolvedConfidence, ResolvedSources;
  }

  lemma ClosedDisputes(cs: ConflictStore, c: Conflict, r: Resolution, disputes: map<ConflictKey, seq<Candidate>>)
    requires IndexAgrees(cs) && ShowsDisputes(cs, disputes) && RefOf(c) in cs.byId && cs.byId[RefOf(c)] == c
              && c.status.Open?
    ensures ShowsDisputes(CloseConflict(cs, c, r), disputes - {c.key})
  {
    forall k
      ensures DisputeAt(CloseConflict(cs, c, r), k) == if k in disputes - {c.key} then Some((disputes - {c.key})[k])
                else None
    {
      assert DisputeAt(cs, k) == if k in disputes then Some(disputes[k]) else None;
    }
  }

  /** `Move` touches entities and history only. */
  lemma MoveParts(p: Projected, disputes: map<ConflictKey, seq<Candidate>>, ref: Ref, key: EntityKey,
                  after: Attributes, ids: seq<string>)
    ensures var p1 := p.(seen := p.seen + {ref}, disputes := disputes);
            var q, q1 := Move(p, key, after, ids), Move(p1, key, after, ids);
            q1.entities == q.entities && q1.history == q.history && q1.disputes == disputes && q1.seen == p.seen + {ref}
  {
  }

  lemma InputsSnoc(h: HashCommit, ops: seq<WorldOp>)
    requires |ops| > 0
    ensures var init := ops[..|ops| - 1];
            FoldInputs(InputsOf(h, ops)) ==
            match InputOf(Run(h, init).world, ops[|ops| - 1])
            case None => FoldInputs(InputsOf(h, init))
            case Some(i) => FoldInput(FoldInputs(InputsOf(h, init)), i)
  {
    hide FoldInput, InputOf, Run;
    var inputs := InputsOf(h, ops[..|ops| - 1]);
    match InputOf(Run(h, ops[..|ops| - 1]).world, ops[|ops| - 1])
    case None => assert inputs + [] == inputs;
    case Some(i) => assert (inputs + [i])[..|inputs|] == inputs;
  }

  /** The service, after any run, shows exactly the fold of the run's inputs. */
  lemma {:induction false} ServiceShowsFold(h: HashCommit, ops: seq<WorldOp>)
    requires Supplied(h, ops)
    ensures Shows(Run(h, ops), FoldInputs(InputsOf(h, ops)))
    decreases |ops|
  {
    hide Shows, StoreSound, FreshDraws, Step, FoldInput;
    if |ops| == 0 {
      NothingShows();
    } else {
      var init, op := ops[..|ops| - 1], ops[|ops| - 1];
      var s, p := Run(h, init), FoldInputs(InputsOf(h, init));
      ServiceShowsFold(h, init);
      RunKeepsStore(h, init);
      InputsSnoc(h, ops);
      match op
      case Observe(tenant, obs, cause, assurance, d) =>
        ObserveShows(h, s, p, tenant, obs, cause, assurance, d);
      case Settle(tenant, id, r) =>
        if InputOf(s.world, op).Some? {
          SettleShows(h, s, p, tenant, id, r);
        } else {
          IdleSettle(h, s, tenant, id, r);
        }
    }
  }

  lemma IdleSettle(h: HashCommit, s: History, tenant: string, id: string, r: Resolution)
    requires InputOf(s.world, Settle(tenant, id, r)).None?
    ensures Step(h, s, Settle(tenant, id, r)) == s
  {
  }

  lemma NothingShows()
    ensures Shows(History(EMPTY_WORLD, []), NOTHING)
  {
  }

  /**
   Rebuilding: two runs that saw the same inputs - whatever uuids they drew, whatever hash they used, whichever
   repeated observations they dropped - show the same projection, the fold of those inputs without repeats.
   */
  lemma ProjectionIsRebuildable(h: HashCommit, ops: seq<WorldOp>, h': HashCommit, ops': seq<WorldOp>)
    requires Supplied(h, ops) && Supplied(h', ops')
    requires WithoutRepeats(InputsOf(h, ops)) == WithoutRepeats(InputsOf(h', ops'))
    ensures var p := FoldInputs(WithoutRepeats(InputsOf(h, ops)));
            Shows(Run(h, ops), p) && Shows(Run(h', ops'), p)
  {
    hide Shows, FoldInputs;
    ServiceShowsFold(h, ops);
    ServiceShowsFold(h', ops');
    RepeatsDoNotMatter(InputsOf(h, ops));
    RepeatsDoNotMatter(InputsOf(h', ops'));
  }
}
