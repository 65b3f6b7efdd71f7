/**
 What each operation of `WorldStateService` (world_state/service.py) does to its dictionaries, as
 functions on a value. The class in WorldStateService.dfy is proved to compute exactly these.

 Values drawn by the code are inputs: the clock readings and the uuids (`Draws`, `Resolution`).
 `HashCommit` stands for `hash_json` over the hashed part of a commit.
 */
module WorldModel {
  import opened Basics
  import opened StringOrder
  import opened JsonValues

  // ---------------------------------------------------------------- data

  type Kind = s: string | s == "order" || s == "shipment" witness "order"

  datatype Freshness = Fresh | Stale

  ghost predicate DistinctNames(p: seq<(string, Json)>) {
    forall i, j | 0 <= i < j < |p| :: p[i].0 != p[j].0
  }

  /** A Python dictionary with its insertion order. */
  type Payload = p: seq<(string, Json)> | DistinctNames(p) witness []

  datatype Observation = Observation(
    id: string, connector: string, kind: Kind, objectId: string, observedAt: int, payload: Payload)

  datatype Attribute = Attribute(
    value: Json, confidence: real, observedAt: int, freshness: Freshness, sources: seq<string>,
    connector: Option<string>)

  type Attributes = map<string, Attribute>

  datatype EntityKey = EntityKey(tenant: string, kind: string, id: string)

  /** A key scoped by tenant: an observation, commit or conflict id. */
  datatype Ref = Ref(tenant: string, id: string)

  datatype OrderState = OrderState(
    tenantId: string, entityId: string, entityType: string, stateVersion: int, attributes: Attributes,
    commitId: string)

  datatype CommitBody = CommitBody(
    commitId: string, entity: EntityKey, parent: Option<string>, cause: string, observationIds: seq<string>,
    before: Attributes, after: Attributes, changed: seq<string>, previousHash: Option<string>)

  datatype Commit = Commit(body: CommitBody, assuranceLevel: string, hash: string)

  type HashCommit = CommitBody -> string

  datatype Candidate = Candidate(
    value: Json, connector: Option<string>, observationId: Option<string>, observedAt: int, confidence: real)

  datatype ConflictStatus = Open | Resolved(value: Json, actor: string, at: int, reason: string)

  datatype ConflictKey = ConflictKey(entity: EntityKey, attribute: string)

  datatype Conflict = Conflict(
    id: string, key: ConflictKey, candidates: seq<Candidate>, status: ConflictStatus, detectedAt: int)

  /** `_open_conflicts` and `_conflicts_by_id`; the open index names the shared conflict by its id. */
  datatype ConflictStore = ConflictStore(open: map<ConflictKey, string>, byId: map<Ref, Conflict>)

  datatype World = World(
    observations: map<Ref, Observation>,
    states: map<EntityKey, OrderState>,
    commits: map<Ref, Commit>,
    latest: map<string, string>,
    conflicts: ConflictStore)

  function RefOf(c: Conflict): Ref { Ref(c.key.entity.tenant, c.id) }

  const EMPTY_STORE := ConflictStore(map[], map[])
  const EMPTY_WORLD := World(map[], map[], map[], map[], EMPTY_STORE)

  /** One clock reading and one uuid per place where `ingest` may ask for one. */
  datatype Draws = Draws(
    now: int, commitUuid: string, conflictUuid: string -> string, detectedAt: string -> int)

  datatype Resolution = Resolution(value: Json, actor: string, reason: string, now: int, commitUuid: string)

  datatype Outcome<R> = Outcome(world: World, result: R, created: Option<Commit>)

  function CommitId(uuid: string): string { "cmt_" + uuid }

  function ConflictId(uuid: string): string { "cnf_" + uuid }

  // ---------------------------------------------------------------- projection and diff

  const FIVE_MINUTES: int := 300_000_000 // microseconds

  function Project(obs: Observation, name: string, value: Json, now: int): Attribute {
    Attribute(
      value,
      if name == "id" || name == "status" then 0.98 else 0.9,
      obs.observedAt,
      if now - obs.observedAt <= FIVE_MINUTES then Fresh else Stale,
      [obs.id],
      Some(obs.connector))
  }

  /** A fresh value owned by another connector is not overwritten. */
  predicate Blocked(previous: Attributes, name: string, incoming: Attribute) {
    && name in previous
    && previous[name].value != incoming.value
    && previous[name].freshness.Fresh?
    && previous[name].connector.Some?
    && previous[name].connector != incoming.connector
  }

  /** What `_attribute_value` reads: a missing attribute reads as null. */
  function ValueOf(attributes: Attributes, name: string): Json {
    if name in attributes then attributes[name].value else Null
  }

  function Changed(before: Attributes, after: Attributes): set<string> {
    set n | n in before.Keys + after.Keys && ValueOf(before, n) != ValueOf(after, n)
  }

  function Diff(before: Attributes, after: Attributes): seq<string> {
    SortedNames(Changed(before, after))
  }

  // ---------------------------------------------------------------- conflicts

  function LastSource(a: Attribute): Option<string> {
    if a.sources == [] then None else Some(a.sources[|a.sources| - 1])
  }

  function CandidateOf(a: Attribute): Candidate {
    Candidate(a.value, a.connector, LastSource(a), a.observedAt, a.confidence)
  }

  predicate SameClaim(a: Candidate, b: Candidate) {
    a.connector == b.connector && a.value == b.value
  }

  predicate Seen(candidates: seq<Candidate>, c: Candidate) {
    exists i | 0 <= i < |candidates| :: SameClaim(candidates[i], c)
  }

  function WithCandidate(candidates: seq<Candidate>, c: Candidate): seq<Candidate> {
    if Seen(candidates, c) then candidates else candidates + [c]
  }

  /** `_record_conflict`. */
  function Record(cs: ConflictStore, key: ConflictKey, id: string, at: int, existing: Attribute, incoming: Attribute):
    ConflictStore
  {
    var tenant := key.entity.tenant;
    if key in cs.open && Ref(tenant, cs.open[key]) in cs.byId then
      var c := cs.byId[Ref(tenant, cs.open[key])];
      cs.(byId := cs.byId[Ref(tenant, cs.open[key]) :=
                          c.(candidates := WithCandidate(c.candidates, CandidateOf(incoming)))])
    else
      var c := Conflict(id, key, [CandidateOf(existing), CandidateOf(incoming)], Open, at);
      ConflictStore(cs.open[key := id], cs.byId[Ref(tenant, id) := c])
  }

  // ---------------------------------------------------------------- ingest

  function EntityOf(tenant: string, obs: Observation): EntityKey {
    EntityKey(tenant, obs.kind, obs.objectId)
  }

  datatype Folding = Folding(attributes: Attributes, conflicts: ConflictStore)

  /** The loop of `ingest` over the first `n` incoming attributes. */
  function FoldPayload(tenant: string, obs: Observation, d: Draws, previous: Attributes, cs: ConflictStore,
                       n: nat): Folding
    requires n <= |obs.payload|
  {
    if n == 0 then Folding(previous, cs) else
      FoldOne(tenant, obs, d, previous, FoldPayload(tenant, obs, d, previous, cs, n - 1), n - 1)
  }

  function FoldOne(tenant: string, obs: Observation, d: Draws, previous: Attributes, f: Folding, i: nat): Folding
    requires i < |obs.payload|
  {
    var name := obs.payload[i].0;
    var incoming := Project(obs, name, obs.payload[i].1, d.now);
    if Blocked(previous, name, incoming) then
      var key := ConflictKey(EntityOf(tenant, obs), name);
      f.(conflicts := Record(f.conflicts, key, ConflictId(d.conflictUuid(name)), d.detectedAt(name), previous[name],
                             incoming))
    else
      f.(attributes := f.attributes[name := incoming])
  }

  function AttributesOf(states: map<EntityKey, OrderState>, key: EntityKey): Attributes {
    if key in states then states[key].attributes else map[]
  }

  function LatestHash(w: World, tenant: string): Option<string> {
    if tenant in w.latest && Ref(tenant, w.latest[tenant]) in w.commits
    then Some(w.commits[Ref(tenant, w.latest[tenant])].hash) else None
  }

  function LatestId(w: World, tenant: string): Option<string> {
    if tenant in w.latest then Some(w.latest[tenant]) else None
  }

  /** The record built by `_create_commit`. */
  function NewCommit(h: HashCommit, w: World, entity: EntityKey, uuid: string, cause: string,
                     observationIds: seq<string>, before: Attributes, after: Attributes, assurance: string): Commit
  {
    var body := CommitBody(CommitId(uuid), entity, LatestId(w, entity.tenant), cause, observationIds, before, after,
                           Diff(before, after), LatestHash(w, entity.tenant));
    Commit(body, assurance, h(body))
  }

  function AddCommit(w: World, c: Commit): World {
    var tenant := c.body.entity.tenant;
    w.(commits := w.commits[Ref(tenant, c.body.commitId) := c], latest := w.latest[tenant := c.body.commitId])
  }

  function Upper(c: char): char { if 'a' <= c <= 'z' then (c as int - 32) as char else c }

  function Lower(c: char): char { if 'A' <= c <= 'Z' then (c as int + 32) as char else c }

  function LowerText(s: string): string {
    if s == [] then [] else [Lower(s[0])] + LowerText(s[1..])
  }

  function Capitalize(s: string): string {
    if s == [] then [] else [Upper(s[0])] + LowerText(s[1..])
  }

  function NewState(entity: EntityKey, version: int, attributes: Attributes, commitId: string): OrderState {
    OrderState(entity.tenant, entity.kind + ":" + entity.id, Capitalize(entity.kind), version, attributes, commitId)
  }

  /** The end of `ingest`: commit and store the new attributes, unless a known entity did not change. */
  function Absorb(h: HashCommit, w: World, key: EntityKey, observationId: string, after: Attributes, cause: string,
                  assurance: string, uuid: string): Outcome<Option<OrderState>>
  {
    var before := AttributesOf(w.states, key);
    if key in w.states && Diff(before, after) == [] then
      Outcome(w, Some(w.states[key]), None)
    else
      var c := NewCommit(h, w, key, uuid, cause, [observationId], before, after, assurance);
      var version := if key in w.states then w.states[key].stateVersion + 1 else 1;
      var state := NewState(key, version, after, c.body.commitId);
      Outcome(AddCommit(w, c).(states := w.states[key := state]), Some(state), Some(c))
  }

  /** `ingest`. No result is the KeyError of a repeated observation id that names an unknown entity. */
  function Ingest(h: HashCommit, w: World, tenant: string, obs: Observation, cause: string, assurance: string,
                  d: Draws):
    Outcome<Option<OrderState>>
  {
    var key := EntityOf(tenant, obs);
    if Ref(tenant, obs.id) in w.observations then
      Outcome(w, if key in w.states then Some(w.states[key]) else None, None)
    else
      var f := FoldPayload(tenant, obs, d, AttributesOf(w.states, key), w.conflicts, |obs.payload|);
      var w1 := w.(observations := w.observations[Ref(tenant, obs.id) := obs], conflicts := f.conflicts);
      Absorb(h, w1, key, obs.id, f.attributes, cause, assurance, d.commitUuid)
  }

  // ---------------------------------------------------------------- resolve_conflict

  function Matching(candidates: seq<Candidate>, value: Json): seq<Candidate> {
    if candidates == [] then []
    else (if candidates[0].value == value then [candidates[0]] else []) + Matching(candidates[1..], value)
  }

  /** The truthy observation ids, in order. */
  function ObservationIds(candidates: seq<Candidate>): seq<string> {
    if candidates == [] then []
    else
      (match candidates[0].observationId
       case Some(id) => if id != "" then [id] else []
       case None => []) + ObservationIds(candidates[1..])
  }

  function ResolvedSources(candidates: seq<Candidate>, value: Json): seq<string> {
    var ids := ObservationIds(Matching(candidates, value));
    if ids != [] then ids else ObservationIds(candidates)
  }

  function MaxConfidence(candidates: seq<Candidate>): real
    requires candidates != []
  {
    if |candidates| == 1 then candidates[0].confidence else
      var rest := MaxConfidence(candidates[1..]);
      if rest > candidates[0].confidence then rest else candidates[0].confidence
  }

  function ResolvedConfidence(candidates: seq<Candidate>, value: Json): real {
    var matching := Matching(candidates, value);
    if matching == [] then 0.95 else MaxConfidence(matching)
  }

  function ResolvedAttribute(c: Conflict, r: Resolution): Attribute {
    Attribute(r.value, ResolvedConfidence(c.candidates, r.value), r.now, Fresh,
              ResolvedSources(c.candidates, r.value), Some("operator"))
  }

  function CloseConflict(cs: ConflictStore, c: Conflict, r: Resolution): ConflictStore {
    ConflictStore(cs.open - {c.key}, cs.byId[RefOf(c) := Closed(c, r)])
  }

  /** The middle of `resolve_conflict`: the chosen value goes into the entity's state, if there is one. */
  function Decide(h: HashCommit, w: World, c: Conflict, r: Resolution): Outcome<()> {
    var key := c.key.entity;
    if key !in w.states then Outcome(w, (), None)
    else
      var s := w.states[key];
      var attribute := ResolvedAttribute(c, r);
      var after := s.attributes[c.key.attribute := attribute];
      var commit := NewCommit(h, w, key, r.commitUuid, "conflict_resolved:" + c.id, attribute.sources,
                              s.attributes, after, "operator_resolved");
      var state := s.(stateVersion := s.stateVersion + 1, attributes := after, commitId := commit.body.commitId);
      Outcome(AddCommit(w, commit).(states := w.states[key := state]), (), Some(commit))
  }

  function Closed(c: Conflict, r: Resolution): Conflict {
    c.(status := Resolved(r.value, r.actor, r.now, r.reason))
  }

  /** `resolve_conflict`. No result is the KeyError of an unknown conflict id. */
  function Resolve(h: HashCommit, w: World, tenant: string, conflictId: string,
                   r: Resolution): Outcome<Option<Conflict>> {
    if Ref(tenant, conflictId) !in w.conflicts.byId then Outcome(w, None, None)
    else
      var c := w.conflicts.byId[Ref(tenant, conflictId)];
      if c.status.Resolved? then Outcome(w, Some(c), None)
      else
        var o := Decide(h, w, c, r);
        Outcome(o.world.(conflicts := CloseConflict(w.conflicts, c, r)), Some(Closed(c, r)), o.created)
  }

  // ---------------------------------------------------------------- hydration

  /** `split(":", 1)[-1]`. */
  function AfterColon(s: string): string {
    if ':' !in s then s else if s[0] == ':' then s[1..] else AfterColon(s[1..])
  }

  function HydrateKey(state: OrderState): EntityKey {
    EntityKey(state.tenantId, LowerText(state.entityType), AfterColon(state.entityId))
  }

  function Stub(key: EntityKey, id: string, hash: string): Commit {
    Commit(CommitBody(id, key, None, "hydrated", [], map[], map[], [], None), "observed", hash)
  }

  /** The id `n` parents above `id`; none once a record or a parent is missing. */
  function Up(commits: map<Ref, Commit>, tenant: string, id: string, n: nat): Option<string>
    decreases n
  {
    if n == 0 then Some(id)
    else
      match Up(commits, tenant, id, n - 1)
      case None => None
      case Some(x) => if Ref(tenant, x) in commits then commits[Ref(tenant, x)].body.parent else None
  }

  ghost predicate Ancestor(commits: map<Ref, Commit>, tenant: string, candidate: string, descendant: string) {
    exists n: nat :: Up(commits, tenant, descendant, n) == Some(candidate)
  }

  /** `hydrate` with a parent commit id and hash. */
  ghost function Hydrate(w: World, state: OrderState, parentId: string, parentHash: string): World {
    var key := HydrateKey(state);
    var latest :=
      if state.tenantId in w.latest && Ancestor(w.commits, state.tenantId, state.commitId, w.latest[state.tenantId])
      then w.latest else w.latest[state.tenantId := parentId];
    w.(states := w.states[key := state], latest := latest,
    commits := w.commits[Ref(state.tenantId, parentId) := Stub(key, parentId, parentHash)])
  }

  /** `hydrate_conflict`. */
  function HydrateConflict(cs: ConflictStore, c: Conflict): ConflictStore {
    ConflictStore(
      if c.status.Open? then cs.open[c.key := c.id] else cs.open - {c.key},
      cs.byId[RefOf(c) := c])
  }

  predicate HasOpenConflicts(cs: ConflictStore, entity: EntityKey) {
    exists k | k in cs.open :: k.entity == entity
  }

  // ---------------------------------------------------------------- runs

  datatype WorldOp =
    | Observe(tenant: string, obs: Observation, cause: string, assurance: string, d: Draws)
    | Settle(tenant: string, conflictId: string, r: Resolution)

  /** The service together with every commit it ever created, in creation order. */
  datatype History = History(world: World, log: seq<Commit>)

  function Apply(h: HashCommit, w: World, op: WorldOp): (World, Option<Commit>) {
    match op
    case Observe(tenant, obs, cause, assurance, d) =>
      var o := Ingest(h, w, tenant, obs, cause, assurance, d);
      (o.world, o.created)
    case Settle(tenant, id, r) =>
      var o := Resolve(h, w, tenant, id, r);
      (o.world, o.created)
  }

  function Step(h: HashCommit, s: History, op: WorldOp): History {
    var (w, created) := Apply(h, s.world, op);
    History(w, match created case None => s.log case Some(c) => s.log + [c])
  }

  function Run(h: HashCommit, ops: seq<WorldOp>): History {
    if |ops| == 0 then History(EMPTY_WORLD, []) else Step(h, Run(h, ops[..|ops| - 1]), ops[|ops| - 1])
  }

  /** uuid4 never repeats: the ids an operation may take are not in use, nor equal to one another. */
  ghost predicate FreshDraws(w: World, op: WorldOp) {
    match op
    case Observe(tenant, obs, _, _, d) =>
      && Ref(tenant, CommitId(d.commitUuid)) !in w.commits
      && (forall i | 0 <= i < |obs.payload| ::
          Ref(tenant, ConflictId(d.conflictUuid(obs.payload[i].0))) !in w.conflicts.byId)
      && (forall i, j | 0 <= i < j < |obs.payload| ::
          d.conflictUuid(obs.payload[i].0) != d.conflictUuid(obs.payload[j].0))
    case Settle(tenant, _, r) => Ref(tenant, CommitId(r.commitUuid)) !in w.commits
  }

  ghost predicate Supplied(h: HashCommit, ops: seq<WorldOp>) {
    |ops| == 0 || (Supplied(h, ops[..|ops| - 1]) && FreshDraws(Run(h, ops[..|ops| - 1]).world, ops[|ops| - 1]))
  }
}
