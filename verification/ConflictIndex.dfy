/**
 The two conflict dictionaries over whole runs (world_state/service.py): the open index holds exactly the open
 conflicts of the store, candidates only accumulate, and nothing about a resolved conflict changes.
 */
module ConflictIndex {
  import opened Basics
  import opened WorldModel

  /** The open index is exactly the open part of the store: at most one open conflict per attribute. */
  ghost predicate IndexAgrees(cs: ConflictStore) {
    && (forall p | p in cs.byId :: RefOf(cs.byId[p]) == p)
    && (forall k | k in cs.open ::
          && Ref(k.entity.tenant, cs.open[k]) in cs.byId
          && cs.byId[Ref(k.entity.tenant, cs.open[k])].key == k
          && cs.byId[Ref(k.entity.tenant, cs.open[k])].status.Open?)
    && (forall p | p in cs.byId && cs.byId[p].status.Open? ::
          cs.byId[p].key in cs.open && cs.open[cs.byId[p].key] == p.id)
  }

  /** A disagreement has two sides at least, and no side is listed twice. */
  ghost predicate ProperDispute(candidates: seq<Candidate>) {
    && |candidates| >= 2
    && forall i, j | 0 <= i < j < |candidates| :: !SameClaim(candidates[i], candidates[j])
  }

  ghost predicate StoreSound(cs: ConflictStore) {
    IndexAgrees(cs) && forall p | p in cs.byId :: ProperDispute(cs.byId[p].candidates)
  }

  /** What can happen to one stored conflict: new candidates while open, then one resolution, then nothing. */
  ghost predicate Grows(c: Conflict, c': Conflict) {
    && c'.id == c.id && c'.key == c.key && c'.detectedAt == c.detectedAt
    && IsPrefix(c.candidates, c'.candidates)
    && (c.status.Resolved? ==> c' == c)
  }

  ghost predicate StoreGrows(cs: ConflictStore, cs': ConflictStore) {
    forall p | p in cs.byId :: p in cs'.byId && Grows(cs.byId[p], cs'.byId[p])
  }

  lemma StoreGrowsTransitive(a: ConflictStore, b: ConflictStore, c: ConflictStore)
    requires StoreGrows(a, b) && StoreGrows(b, c)
    ensures StoreGrows(a, c)
  {
    forall p | p in a.byId
      ensures p in c.byId && Grows(a.byId[p], c.byId[p])
    {
      assert Grows(b.byId[p], c.byId[p]);
    }
  }

  /** `claim` is one of the candidates of an open conflict about `key`. */
  ghost predicate Disputed(cs: ConflictStore, key: ConflictKey, claim: Candidate) {
    && key in cs.open
    && Ref(key.entity.tenant, cs.open[key]) in cs.byId
    && cs.byId[Ref(key.entity.tenant, cs.open[key])].status.Open?
    && Seen(cs.byId[Ref(key.entity.tenant, cs.open[key])].candidates, claim)
  }

  // ---------------------------------------------------------------- one conflict recorded

  lemma WithCandidateKeeps(candidates: seq<Candidate>, claim: Candidate)
    requires ProperDispute(candidates)
    ensures ProperDispute(WithCandidate(candidates, claim))
    ensures IsPrefix(candidates, WithCandidate(candidates, claim))
    ensures Seen(WithCandidate(candidates, claim), claim)
  {
    var next := WithCandidate(candidates, claim);
    if !Seen(candidates, claim) {
      assert next[|candidates|] == claim;
    }
  }

  /** Everything outside one attribute is left alone. */
  ghost predicate OnlyTouches(cs: ConflictStore, cs': ConflictStore, key: ConflictKey, id: string, at: int) {
    && (forall k | k != key :: (k in cs'.open <==> k in cs.open) && (k in cs.open ==> cs'.open[k] == cs.open[k]))
    && (forall p | p in cs'.byId ::
        p in cs.byId || (p == Ref(key.entity.tenant, id) && cs'.byId[p].key == key && cs'.byId[p].detectedAt == at
                         && cs'.byId[p].status.Open?))
    && (forall p | p in cs.byId && cs.byId[p].key != key :: p in cs'.byId && cs'.byId[p] == cs.byId[p])
  }

  lemma RecordKeeps(cs: ConflictStore, key: ConflictKey, id: string, at: int, existing: Attribute, incoming: Attribute)
    requires StoreSound(cs) && Ref(key.entity.tenant, id) !in cs.byId
    requires existing.connector != incoming.connector
    ensures var cs' := Record(cs, key, id, at, existing, incoming);
            && StoreSound(cs') && StoreGrows(cs, cs') && Disputed(cs', key, CandidateOf(incoming))
            && OnlyTouches(cs, cs', key, id, at)
  {
    if key in cs.open {
      var ref := Ref(key.entity.tenant, cs.open[key]);
      var candidates := WithCandidate(cs.byId[ref].candidates, CandidateOf(incoming));
      WithCandidateKeeps(cs.byId[ref].candidates, CandidateOf(incoming));
      ReplaceKeeps(cs, ref, candidates);
    } else {
      TwoSides(existing, incoming);
      OpenKeeps(cs, Conflict(id, key, [CandidateOf(existing), CandidateOf(incoming)], Open, at));
    }
    hide CandidateOf, WithCandidate, Seen, StoreSound, StoreGrows, OnlyTouches;
  }

  lemma ReplaceKeeps(cs: ConflictStore, ref: Ref, candidates: seq<Candidate>)
    requires StoreSound(cs) && ref in cs.byId && cs.byId[ref].status.Open?
    requires ProperDispute(candidates) && IsPrefix(cs.byId[ref].candidates, candidates)
    ensures var cs' := cs.(byId := cs.byId[ref := cs.byId[ref].(candidates := candidates)]);
            StoreSound(cs') && StoreGrows(cs, cs') && forall at :: OnlyTouches(cs, cs', cs.byId[ref].key, ref.id, at)
  {
    hide ProperDispute;
  }

  lemma OpenKeeps(cs: ConflictStore, c: Conflict)
    requires StoreSound(cs) && RefOf(c) !in cs.byId && c.key !in cs.open && c.status.Open?
              && ProperDispute(c.candidates)
    ensures var cs' := ConflictStore(cs.open[c.key := c.id], cs.byId[RefOf(c) := c]);
            StoreSound(cs') && StoreGrows(cs, cs') && OnlyTouches(cs, cs', c.key, c.id, c.detectedAt)
  {
    hide ProperDispute;
  }

  lemma TwoSides(existing: Attribute, incoming: Attribute)
    requires existing.connector != incoming.connector
    ensures ProperDispute([CandidateOf(existing), CandidateOf(incoming)])
    ensures Seen([CandidateOf(existing), CandidateOf(incoming)], CandidateOf(incoming))
  {
    assert SameClaim([CandidateOf(existing), CandidateOf(incoming)][1], CandidateOf(incoming));
  }

  // ---------------------------------------------------------------- one observation

  ghost predicate FreshConflictIds(cs: ConflictStore, tenant: string, obs: Observation, d: Draws) {
    && (forall i | 0 <= i < |obs.payload| :: Ref(tenant, ConflictId(d.conflictUuid(obs.payload[i].0))) !in cs.byId)
    && (forall i, j | 0 <= i < j < |obs.payload| ::
        ConflictId(d.conflictUuid(obs.payload[i].0)) != ConflictId(d.conflictUuid(obs.payload[j].0)))
  }

  function IncomingAt(obs: Observation, d: Draws, i: nat): Attribute
    requires i < |obs.payload|
  {
    Project(obs, obs.payload[i].0, obs.payload[i].1, d.now)
  }

  /** `c`, stored under `p`, is the conflict that the `i`-th attribute of the observation opened. */
  ghost predicate NewAt(tenant: string, obs: Observation, d: Draws, c: Conflict, p: Ref, i: nat)
    requires i < |obs.payload|
  {
    var name := obs.payload[i].0;
    && p == Ref(tenant, ConflictId(d.conflictUuid(name)))
    && c.key == ConflictKey(EntityOf(tenant, obs), name)
    && c.detectedAt == d.detectedAt(name)
    && c.status.Open?
  }

  /** What the first `n` attributes of an observation leave behind. */
  ghost predicate Recorded(tenant: string, obs: Observation, d: Draws, previous: Attributes, cs: ConflictStore,
                           cs': ConflictStore, n: nat)
    requires n <= |obs.payload|
  {
    && StoreSound(cs') && StoreGrows(cs, cs')
    && (forall p | p in cs'.byId && p !in cs.byId ::
          exists i | 0 <= i < n :: NewAt(tenant, obs, d, cs'.byId[p], p, i))
    && (forall i | 0 <= i < n && Blocked(previous, obs.payload[i].0, IncomingAt(obs, d, i)) ::
          Disputed(cs', ConflictKey(EntityOf(tenant, obs), obs.payload[i].0), CandidateOf(IncomingAt(obs, d, i))))
  }

  lemma {:induction false} FoldKeeps(tenant: string, obs: Observation, d: Draws, previous: Attributes,
                                     cs: ConflictStore, n: nat)
    requires n <= |obs.payload| && StoreSound(cs) && FreshConflictIds(cs, tenant, obs, d)
    ensures Recorded(tenant, obs, d, previous, cs, FoldPayload(tenant, obs, d, previous, cs, n).conflicts, n)
  {
    hide Recorded, StoreSound, FreshConflictIds, FoldOne;
    if n == 0 {
      NothingRecorded(tenant, obs, d, previous, cs);
    } else {
      FoldKeeps(tenant, obs, d, previous, cs, n - 1);
      FoldOneKeeps(tenant, obs, d, previous, cs, FoldPayload(tenant, obs, d, previous, cs, n - 1), n - 1);
    }
  }

  lemma NothingRecorded(tenant: string, obs: Observation, d: Draws, previous: Attributes, cs: ConflictStore)
    requires StoreSound(cs)
    ensures Recorded(tenant, obs, d, previous, cs, cs, 0)
  {
    hide StoreSound;
  }

  lemma FoldOneKeeps(tenant: string, obs: Observation, d: Draws, previous: Attributes, cs: ConflictStore, f: Folding,
                     n: nat)
    requires n < |obs.payload| && FreshConflictIds(cs, tenant, obs, d)
    requires Recorded(tenant, obs, d, previous, cs, f.conflicts, n)
    ensures Recorded(tenant, obs, d, previous, cs, FoldOne(tenant, obs, d, previous, f, n).conflicts, n + 1)
  {
    hide Record, CandidateOf, IndexAgrees, ProperDispute, Grows, ConflictId, NewAt, FreshConflictIds, Disputed,
        StoreSound;
    var (name, value) := obs.payload[n];
    var incoming := Project(obs, name, value, d.now);
    if Blocked(previous, name, incoming) {
      var key, id := ConflictKey(EntityOf(tenant, obs), name), ConflictId(d.conflictUuid(name));
      var cs' := Record(f.conflicts, key, id, d.detectedAt(name), previous[name], incoming);
      NextIdIsFresh(tenant, obs, d, cs, f.conflicts, n);
      RecordKeeps(f.conflicts, key, id, d.detectedAt(name), previous[name], incoming);
      StoreGrowsTransitive(cs, f.conflicts, cs');
      NewConflictsKnown(tenant, obs, d, cs, f.conflicts, cs', n);
      forall i | 0 <= i < n && Blocked(previous, obs.payload[i].0, IncomingAt(obs, d, i))
        ensures Disputed(cs', ConflictKey(EntityOf(tenant, obs), obs.payload[i].0), CandidateOf(IncomingAt(obs, d, i)))
      {
        StillDisputed(f.conflicts, cs', ConflictKey(EntityOf(tenant, obs), obs.payload[i].0), key,
                      CandidateOf(IncomingAt(obs, d, i)));
      }
    }
  }

  lemma NextIdIsFresh(tenant: string, obs: Observation, d: Draws, cs: ConflictStore, mid: ConflictStore, n: nat)
    requires n < |obs.payload| && FreshConflictIds(cs, tenant, obs, d)
    requires forall p | p in mid.byId && p !in cs.byId :: exists i | 0 <= i < n ::
              NewAt(tenant, obs, d, mid.byId[p], p, i)
    ensures Ref(tenant, ConflictId(d.conflictUuid(obs.payload[n].0))) !in mid.byId
  {
  }

  lemma NewConflictsKnown(tenant: string, obs: Observation, d: Draws, cs: ConflictStore, mid: ConflictStore,
                          cs': ConflictStore, n: nat)
    requires n < |obs.payload|
    requires forall p | p in mid.byId && p !in cs.byId :: exists i | 0 <= i < n ::
              NewAt(tenant, obs, d, mid.byId[p], p, i)
    requires var name := obs.payload[n].0;
             OnlyTouches(mid, cs', ConflictKey(EntityOf(tenant, obs), name), ConflictId(d.conflictUuid(name)),
                         d.detectedAt(name))
    ensures forall p | p in cs'.byId && p !in cs.byId :: exists i | 0 <= i < n + 1 ::
              NewAt(tenant, obs, d, cs'.byId[p], p, i)
  {
    hide ConflictId;
    forall p | p in cs'.byId && p !in cs.byId
      ensures exists i | 0 <= i < n + 1 :: NewAt(tenant, obs, d, cs'.byId[p], p, i)
    {
      if p in mid.byId {
        var i :| 0 <= i < n && NewAt(tenant, obs, d, mid.byId[p], p, i);
        assert cs'.byId[p] == mid.byId[p];
        assert NewAt(tenant, obs, d, cs'.byId[p], p, i);
      } else {
        assert NewAt(tenant, obs, d, cs'.byId[p], p, n);
      }
    }
  }

  lemma StillDisputed(cs: ConflictStore, cs': ConflictStore, key: ConflictKey, other: ConflictKey, claim: Candidate)
    requires StoreSound(cs) && Disputed(cs, key, claim) && key != other
    requires exists id, at :: OnlyTouches(cs, cs', other, id, at)
    ensures Disputed(cs', key, claim)
  {
  }

  // ---------------------------------------------------------------- one resolution

  lemma CloseKeeps(cs: ConflictStore, ref: Ref, r: Resolution)
    requires StoreSound(cs) && ref in cs.byId && cs.byId[ref].status.Open?
    ensures var cs' := CloseConflict(cs, cs.byId[ref], r); StoreSound(cs') && StoreGrows(cs, cs')
  {
  }

  // ---------------------------------------------------------------- every run

  lemma ApplyKeepsStore(h: HashCommit, w: World, op: WorldOp)
    requires StoreSound(w.conflicts) && FreshDraws(w, op)
    ensures StoreSound(Apply(h, w, op).0.conflicts) && StoreGrows(w.conflicts, Apply(h, w, op).0.conflicts)
  {
    hide Absorb, Decide, CloseConflict, FoldPayload, IndexAgrees, ProperDispute;
    match op
    case Observe(tenant, obs, cause, assurance, d) =>
      DrawnIdsAreFresh(w.conflicts, tenant, obs, d);
      FoldKeeps(tenant, obs, d, AttributesOf(w.states, EntityOf(tenant, obs)), w.conflicts, |obs.payload|);
      IngestConflicts(h, w, tenant, obs, cause, assurance, d);
    case Settle(tenant, id, r) =>
      if Ref(tenant, id) in w.conflicts.byId && w.conflicts.byId[Ref(tenant, id)].status.Open? {
        CloseKeeps(w.conflicts, Ref(tenant, id), r);
      }
  }

  lemma DrawnIdsAreFresh(cs: ConflictStore, tenant: string, obs: Observation, d: Draws)
    requires forall i | 0 <= i < |obs.payload| :: Ref(tenant, ConflictId(d.conflictUuid(obs.payload[i].0))) !in cs.byId
    requires forall i, j | 0 <= i < j < |obs.payload| ::
              d.conflictUuid(obs.payload[i].0) != d.conflictUuid(obs.payload[j].0)
    ensures FreshConflictIds(cs, tenant, obs, d)
  {
    forall i, j | 0 <= i < j < |obs.payload|
      ensures ConflictId(d.conflictUuid(obs.payload[i].0)) != ConflictId(d.conflictUuid(obs.payload[j].0))
    {
      assert ConflictId(d.conflictUuid(obs.payload[i].0))[4..] == d.conflictUuid(obs.payload[i].0);
      assert ConflictId(d.conflictUuid(obs.payload[j].0))[4..] == d.conflictUuid(obs.payload[j].0);
    }
  }

  /** What `ingest` leaves in the conflict dictionaries is what its loop recorded. */
  lemma IngestConflicts(h: HashCommit, w: World, tenant: string, obs: Observation, cause: string, assurance: string,
                        d: Draws)
    ensures Ingest(h, w, tenant, obs, cause, assurance, d).world.conflicts ==
            if Ref(tenant, obs.id) in w.observations then w.conflicts
            else FoldPayload(tenant, obs, d, AttributesOf(w.states, EntityOf(tenant, obs)), w.conflicts,
                             |obs.payload|).conflicts
  {
    hide FoldPayload, Diff, NewCommit, NewState;
  }

  /** In every reachable state the open index and the store agree and every dispute is proper. */
  lemma {:induction false} RunKeepsStore(h: HashCommit, ops: seq<WorldOp>)
    requires Supplied(h, ops)
    ensures StoreSound(Run(h, ops).world.conflicts)
  {
    hide Apply, IndexAgrees, ProperDispute, FreshDraws;
    if |ops| > 0 {
      var s := Run(h, ops[..|ops| - 1]);
      RunKeepsStore(h, ops[..|ops| - 1]);
      ApplyKeepsStore(h, s.world, ops[|ops| - 1]);
    } else {
      EmptyStoreSound();
    }
  }

  lemma EmptyStoreSound()
    ensures StoreSound(EMPTY_STORE)
  {
  }

  /** Along a run conflicts only gain candidates, are resolved at most once, and then never change. */
  lemma {:induction false} ConflictsOnlyGrow(h: HashCommit, ops: seq<WorldOp>, n: nat)
    requires Supplied(h, ops) && n <= |ops|
    ensures StoreGrows(Run(h, ops[..n]).world.conflicts, Run(h, ops).world.conflicts)
    decreases |ops|
  {
    hide Apply, StoreSound, FreshDraws;
    if n == |ops| {
      assert ops[..n] == ops;
    } else {
      var init := ops[..|ops| - 1];
      assert init[..n] == ops[..n];
      ConflictsOnlyGrow(h, init, n);
      RunKeepsStore(h, init);
      ApplyKeepsStore(h, Run(h, init).world, ops[|ops| - 1]);
      StoreGrowsTransitive(Run(h, init[..n]).world.conflicts, Run(h, init).world.conflicts,
                           Run(h, ops).world.conflicts);
    }
  }
}
