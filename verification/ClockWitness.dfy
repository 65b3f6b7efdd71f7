/**
 A run whose clock steps back between two conflicts about one attribute (world_state/service.py): hydrating its
 conflicts in detection order loses the open one from the index.
 */
module ClockWitness {
  import opened Basics
  import opened JsonValues
  import opened WorldModel
  import opened Hydration

  const TENANT := "demo"
  const ENTITY := EntityKey(TENANT, "order", "1001")
  const NAME := "status"
  const KEY := ConflictKey(ENTITY, NAME)

  const ONE := "0000000000000001"
  const TWO := "0000000000000002"
  const THREE := "0000000000000003"
  const FOUR := "0000000000000004"

  function Report(id: string, connector: string, value: string): Observation {
    Observation("obs_" + id, connector, "order", "1001", 0, [(NAME, Str(value))])
  }

  function Drawn(uuid: string, now: int, at: int): Draws {
    Draws(now, uuid, name => uuid, name => at)
  }

  function Reporting(uuid: string, connector: string, value: string, now: int, at: int): WorldOp {
    Observe(TENANT, Report(uuid, connector, value), "observation", "observed", Drawn(uuid, now, at))
  }

  function Shown(uuid: string, connector: string, value: string, now: int): Attribute {
    Project(Report(uuid, connector, value), NAME, Str(value), now)
  }

  const RESOLUTION := Resolution(Str("open"), "ana", "checked with the warehouse", 200, THREE)

  /** What matters of the world between the operations. */
  ghost predicate Holds(w: World, a: Attribute, uuids: set<string>, cs: ConflictStore) {
    && ENTITY in w.states && NAME in w.states[ENTITY].attributes && w.states[ENTITY].attributes[NAME] == a
    && (forall p | p in w.observations :: exists u | u in uuids :: p.id == "obs_" + u)
    && (forall p | p in w.commits :: exists u | u in uuids :: p.id == CommitId(u))
    && w.conflicts == cs
  }

  lemma DistinctUuids()
    ensures ONE != TWO && ONE != THREE && ONE != FOUR && TWO != THREE && TWO != FOUR && THREE != FOUR
  {
    assert ONE[15] == '1' && TWO[15] == '2' && THREE[15] == '3' && FOUR[15] == '4';
  }

  lemma PrefixedIds(u: string, v: string)
    ensures u != v ==> "obs_" + u != "obs_" + v && CommitId(u) != CommitId(v) && ConflictId(u) != ConflictId(v)
  {
    assert ("obs_" + u)[4..] == u && ("obs_" + v)[4..] == v;
    assert CommitId(u)[4..] == u && CommitId(v)[4..] == v;
    assert ConflictId(u)[4..] == u && ConflictId(v)[4..] == v;
  }

  /** An uuid that was not drawn before gives ids that are not in use. */
  lemma NewUuid(w: World, a: Attribute, uuids: set<string>, cs: ConflictStore, uuid: string)
    requires Holds(w, a, uuids, cs) && uuid !in uuids
    ensures Ref(TENANT, "obs_" + uuid) !in w.observations && Ref(TENANT, CommitId(uuid)) !in w.commits
  {
    hide CommitId;
    forall u | u in uuids
      ensures "obs_" + u != "obs_" + uuid && CommitId(u) != CommitId(uuid)
    {
      PrefixedIds(u, uuid);
    }
  }

  lemma SameAttributesNoDiff(a: Attributes)
    ensures Diff(a, a) == []
  {
    assert Changed(a, a) == {};
  }

  lemma FoldOfOne(tenant: string, obs: Observation, d: Draws, previous: Attributes, cs: ConflictStore)
    requires |obs.payload| == 1
    ensures FoldPayload(tenant, obs, d, previous, cs, 1) == FoldOne(tenant, obs, d, previous, Folding(previous, cs), 0)
  {
    hide FoldOne;
  }

  lemma FirstReport(h: HashCommit)
    ensures FreshDraws(EMPTY_WORLD, Reporting(ONE, "shopify", "open", 0, 0))
    ensures Holds(Apply(h, EMPTY_WORLD, Reporting(ONE, "shopify", "open", 0, 0)).0,
                  Shown(ONE, "shopify", "open", 0), {ONE}, EMPTY_STORE)
  {
    var obs, d := Report(ONE, "shopify", "open"), Drawn(ONE, 0, 0);
    FoldOfOne(TENANT, obs, d, map[], EMPTY_STORE);
    hide FoldPayload, Diff, Project, CommitId, Record, Capitalize;
  }

  /** A report that is refused leaves its value with the conflict, and everything else but the observation as it is. */
  lemma RefusedReport(h: HashCommit, w: World, a: Attribute, uuids: set<string>, cs: ConflictStore,
                      uuid: string, connector: string, value: string, now: int, at: int)
    requires Holds(w, a, uuids, cs) && uuid !in uuids && Ref(TENANT, ConflictId(uuid)) !in cs.byId
    requires a.value != Str(value) && a.freshness.Fresh? && a.connector.Some? && a.connector != Some(connector)
    ensures FreshDraws(w, Reporting(uuid, connector, value, now, at))
    ensures Holds(Apply(h, w, Reporting(uuid, connector, value, now, at)).0, a, uuids + {uuid},
                  Record(cs, KEY, ConflictId(uuid), at, a, Shown(uuid, connector, value, now)))
  {
    var obs, d := Report(uuid, connector, value), Drawn(uuid, now, at);
    var before := w.states[ENTITY].attributes;
    NewUuid(w, a, uuids, cs, uuid);
    FoldOfOne(TENANT, obs, d, before, cs);
    SameAttributesNoDiff(before);
    hide FoldPayload, Diff, CommitId, ConflictId, Record, Capitalize;
    var folded := FoldPayload(TENANT, obs, d, before, cs, 1);
    assert folded == Folding(before, Record(cs, KEY, ConflictId(uuid), at, a, Shown(uuid, connector, value, now)));
    hide FoldOne, Project;
    assert Apply(h, w, Reporting(uuid, connector, value, now, at)).0
        == w.(observations := w.observations[Ref(TENANT, obs.id) := obs], conflicts := folded.conflicts);
  }

  /** The operator settles the open conflict. */
  lemma Settled(h: HashCommit, w: World, a: Attribute, uuids: set<string>, cs: ConflictStore, c: Conflict)
    requires Holds(w, a, uuids, cs) && THREE !in uuids && c.key == KEY && c.status.Open?
    requires RefOf(c) in cs.byId && cs.byId[RefOf(c)] == c
    ensures FreshDraws(w, Settle(TENANT, c.id, RESOLUTION))
    ensures Holds(Apply(h, w, Settle(TENANT, c.id, RESOLUTION)).0, ResolvedAttribute(c, RESOLUTION), uuids + {THREE},
                  CloseConflict(cs, c, RESOLUTION))
  {
    NewUuid(w, a, uuids, cs, THREE);
    hide Diff, CommitId, ResolvedAttribute, CloseConflict;
  }

  /** Two disputes about one attribute; the second is detected at an earlier time than the first. */
  lemma ClockStepsBack(h: HashCommit) returns (ops: seq<WorldOp>, listing: seq<Conflict>)
    ensures Supplied(h, ops)
    ensures var cs := Run(h, ops).world.conflicts;
            && ListsConflicts(cs, TENANT, listing) && InDetectionOrder(listing)
            && KEY in cs.open && KEY !in Rehydrated(listing).open
            && !IsTenantPart(cs, TENANT, Rehydrated(listing)) && !OpenDetectedLast(cs, TENANT)
  {
    var resolved, later;
    ops, resolved, later := TwoDisputes(h);
    listing := [later, resolved];
    hide Run, Supplied, OutOfOrder, Rehydrated, ListsConflicts, InDetectionOrder;
    ListedOutOfOrder(Run(h, ops).world.conflicts, resolved, later);
  }

  lemma OneMore(h: HashCommit, ops: seq<WorldOp>, op: WorldOp)
    requires Supplied(h, ops) && FreshDraws(Run(h, ops).world, op)
    ensures Supplied(h, ops + [op]) && Run(h, ops + [op]).world == Apply(h, Run(h, ops).world, op).0
  {
    hide Apply, FreshDraws;
    assert (ops + [op])[..|ops|] == ops;
  }

  lemma NoOperations(h: HashCommit)
    ensures Supplied(h, []) && Run(h, []).world == EMPTY_WORLD
  {
  }

  lemma HeldConflicts(w: World, a: Attribute, uuids: set<string>, cs: ConflictStore)
    requires Holds(w, a, uuids, cs)
    ensures w.conflicts == cs
  {
  }

  lemma SettledStore(c: Conflict)
    requires c.key == KEY
    ensures CloseConflict(ConflictStore(map[KEY := c.id], map[RefOf(c) := c]), c, RESOLUTION)
         == ConflictStore(map[], map[RefOf(c) := Closed(c, RESOLUTION)])
  {
  }

  lemma ShownParts(uuid: string, connector: string, value: string, now: int)
    requires now <= FIVE_MINUTES
    ensures var a := Shown(uuid, connector, value, now);
            a.value == Str(value) && a.freshness.Fresh? && a.connector == Some(connector)
  {
  }

  lemma NewDispute(cs: ConflictStore, id: string, at: int, existing: Attribute, incoming: Attribute)
    requires KEY !in cs.open
    ensures var c := Conflict(id, KEY, [CandidateOf(existing), CandidateOf(incoming)], Open, at);
            Record(cs, KEY, id, at, existing, incoming) == ConflictStore(cs.open[KEY := id], cs.byId[RefOf(c) := c])
  {
    hide CandidateOf, WithCandidate;
  }

  /** Two conflicts about the attribute, the later one detected earlier and still open. */
  ghost predicate OutOfOrder(cs: ConflictStore, resolved: Conflict, later: Conflict) {
    && resolved.key == KEY && later.key == KEY && RefOf(resolved) != RefOf(later)
    && resolved.status.Resolved? && later.status.Open? && later.detectedAt < resolved.detectedAt
    && cs == ConflictStore(map[KEY := later.id], map[RefOf(resolved) := resolved, RefOf(later) := later])
  }

  lemma StoresAgain(c: Conflict, id: string, at: int, existing: Attribute, incoming: Attribute)
    requires c.key == KEY && at < c.detectedAt && id != c.id
    ensures var cs := ConflictStore(map[KEY := c.id], map[RefOf(c) := c]);
            var next := Conflict(id, KEY, [CandidateOf(existing), CandidateOf(incoming)], Open, at);
            OutOfOrder(Record(CloseConflict(cs, c, RESOLUTION), KEY, id, at, existing, incoming),
                       Closed(c, RESOLUTION), next)
  {
    SettledStore(c);
    NewDispute(ConflictStore(map[], map[RefOf(c) := Closed(c, RESOLUTION)]), id, at, existing, incoming);
    hide Record, CandidateOf, CloseConflict;
  }

  lemma ListedOutOfOrder(cs: ConflictStore, resolved: Conflict, later: Conflict)
    requires OutOfOrder(cs, resolved, later)
    ensures var listing := [later, resolved];
            && ListsConflicts(cs, TENANT, listing) && InDetectionOrder(listing)
            && KEY in cs.open && KEY !in Rehydrated(listing).open
  {
    var listing := [later, resolved];
    RehydratedOpen(listing, KEY);
    assert LastAbout(listing, KEY) == 1;
    assert listing[0] == later && listing[1] == resolved;
  }

  lemma {:induction false} TwoDisputes(h: HashCommit) returns (ops: seq<WorldOp>, resolved: Conflict, later: Conflict)
    ensures Supplied(h, ops) && OutOfOrder(Run(h, ops).world.conflicts, resolved, later)
  {
    hide Apply, Run, FreshDraws, Holds, Shown, Reporting, ConflictId, CandidateOf, ResolvedAttribute, Record;
    hide CloseConflict, OutOfOrder;
    DistinctUuids();
    PrefixedIds(TWO, FOUR);
    hide ONE, TWO, THREE, FOUR, TENANT;
    var first, second := Shown(ONE, "shopify", "open", 0), Shown(TWO, "erp", "closed", 0);
    ShownParts(ONE, "shopify", "open", 0);
    var c := Conflict(ConflictId(TWO), KEY, [CandidateOf(first), CandidateOf(second)], Open, 100);
    NewDispute(EMPTY_STORE, ConflictId(TWO), 100, first, second);
    var cs := ConflictStore(map[KEY := ConflictId(TWO)], map[RefOf(c) := c]);

    NoOperations(h);
    FirstReport(h);
    ops := [] + [Reporting(ONE, "shopify", "open", 0, 0)];
    OneMore(h, [], Reporting(ONE, "shopify", "open", 0, 0));
    RefusedReport(h, Run(h, ops).world, first, {ONE}, EMPTY_STORE, TWO, "erp", "closed", 0, 100);
    OneMore(h, ops, Reporting(TWO, "erp", "closed", 0, 100));
    ops := ops + [Reporting(TWO, "erp", "closed", 0, 100)];
    Settled(h, Run(h, ops).world, first, {ONE} + {TWO}, cs, c);
    OneMore(h, ops, Settle(TENANT, c.id, RESOLUTION));
    ops := ops + [Settle(TENANT, c.id, RESOLUTION)];
    var chosen, third := ResolvedAttribute(c, RESOLUTION), Shown(FOUR, "erp", "closed", 40);
    ChosenParts(c);
    SettledStore(c);
    RefusedReport(h, Run(h, ops).world, chosen, {ONE} + {TWO} + {THREE}, CloseConflict(cs, c, RESOLUTION), FOUR, "erp",
                  "closed", 40, 50);
    OneMore(h, ops, Reporting(FOUR, "erp", "closed", 40, 50));
    ops := ops + [Reporting(FOUR, "erp", "closed", 40, 50)];
    HeldConflicts(Run(h, ops).world, chosen, {ONE} + {TWO} + {THREE} + {FOUR},
                  Record(CloseConflict(cs, c, RESOLUTION), KEY, ConflictId(FOUR), 50, chosen, third));
    StoresAgain(c, ConflictId(FOUR), 50, chosen, third);
    resolved := Closed(c, RESOLUTION);
    later := Conflict(ConflictId(FOUR), KEY, [CandidateOf(chosen), CandidateOf(third)], Open, 50);
  }

  lemma ChosenParts(c: Conflict)
    ensures var a := ResolvedAttribute(c, RESOLUTION);
            a.value == Str("open") && a.freshness.Fresh? && a.connector == Some("operator")
  {
  }
}
