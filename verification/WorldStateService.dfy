/**
 `WorldStateService` (world_state/service.py) with its dictionaries updated in place. An open conflict is
 one object held by two dictionaries; `Valid` says the two agree on which object that is, and `Model`
 is the value that WorldModel.dfy speaks about.
 */
module WorldStateService {
  import opened Basics
  import opened WorldModel
  import opened Lineage

  /** A mutable `Conflict` object: its identity never changes, assigning to another field replaces `value`. */
  class ConflictCell {
    const ref: Ref
    const key: ConflictKey
    var value: Conflict

    constructor (value: Conflict)
      ensures this.value == value && ref == RefOf(value) && key == value.key
    {
      this.ref, this.key, this.value := RefOf(value), value.key, value;
    }
  }

  /** Two attributes of one observation never open conflicts under the same id. */
  lemma DistinctIds(tenant: string, obs: Observation, d: Draws, i: nat)
    requires i < |obs.payload|
    requires forall p, q | 0 <= p < q < |obs.payload| ::
              d.conflictUuid(obs.payload[p].0) != d.conflictUuid(obs.payload[q].0)
    ensures forall j | i < j < |obs.payload| ::
              Ref(tenant, ConflictId(d.conflictUuid(obs.payload[j].0))) != Ref(tenant,
                  ConflictId(d.conflictUuid(obs.payload[i].0)))
  {
    forall j | i < j < |obs.payload|
      ensures ConflictId(d.conflictUuid(obs.payload[j].0)) != ConflictId(d.conflictUuid(obs.payload[i].0))
    {
      assert ConflictId(d.conflictUuid(obs.payload[j].0))[4..] == d.conflictUuid(obs.payload[j].0);
      assert ConflictId(d.conflictUuid(obs.payload[i].0))[4..] == d.conflictUuid(obs.payload[i].0);
    }
  }

  lemma BlockedNeedsValue(before: Attributes, name: string, incoming: Attribute)
    requires Blocked(before, name, incoming)
    ensures name in before
  {
  }

  class Service {
    const hash: HashCommit
    var observations: map<Ref, Observation>
    var states: map<EntityKey, OrderState>
    var commits: map<Ref, Commit>
    var latest: map<string, string>
    var openConflicts: map<ConflictKey, ConflictCell>
    var conflictsById: map<Ref, ConflictCell>

    /** What the two conflict dictionaries stand for, and the objects they hold. */
    ghost var openIds: map<ConflictKey, string>
    ghost var conflictValues: map<Ref, Conflict>
    ghost var cells: set<ConflictCell>

    /** Every conflict object is stored under its own id, and holds what `conflictValues` says. */
    ghost predicate ValuesHold()
      reads this`conflictValues, this`conflictsById, this`cells, cells
    {
      && (forall p :: p in conflictValues <==> p in conflictsById)
      && forall p | p in conflictsById ::
           && conflictsById[p] in cells
           && conflictsById[p].ref == p
           && conflictsById[p].key == conflictValues[p].key
           && conflictsById[p].value == conflictValues[p]
           && RefOf(conflictValues[p]) == p
    }

    /** An open conflict is the same object in both dictionaries, under its own key. */
    ghost predicate IndexShares()
      reads this`openIds, this`conflictsById, this`openConflicts
    {
      && (forall k :: k in openIds <==> k in openConflicts)
      && forall k | k in openConflicts ::
           && openConflicts[k].key == k
           && openConflicts[k].ref == Ref(k.entity.tenant, openIds[k])
           && openConflicts[k].ref in conflictsById
           && conflictsById[openConflicts[k].ref] == openConflicts[k]
    }

    ghost predicate CursorStored()
      reads this`latest, this`commits
    {
      forall t | t in latest :: latest[t] != "" && Ref(t, latest[t]) in commits
    }

    ghost predicate Valid()
      reads this, cells
    {
      ValuesHold() && IndexShares() && CursorStored()
    }

    ghost function Store(): ConflictStore
      reads this`openIds, this`conflictValues
    {
      ConflictStore(openIds, conflictValues)
    }

    ghost function Model(): World
      reads this
    {
      World(observations, states, commits, latest, Store())
    }

    constructor (hash: HashCommit)
      ensures Valid() && Model() == EMPTY_WORLD && this.hash == hash
      ensures cells == {}
    {
      this.hash := hash;
      observations, states, commits, latest := map[], map[], map[], map[];
      openConflicts, conflictsById, openIds, conflictValues, cells := map[], map[], map[], map[], {};
    }

    // -------------------------------------------------------------- conflicts

    /** `_record_conflict`; a new conflict takes the id `id`. */
    method RecordConflict(key: ConflictKey, id: string, at: int, existing: Attribute, incoming: Attribute)
      requires Valid()
      requires Ref(key.entity.tenant, id) !in conflictsById
      modifies this`openConflicts, this`conflictsById, this`openIds, this`conflictValues, this`cells, cells
      ensures Valid() && fresh(cells - old(cells))
      ensures Store() == Record(old(Store()), key, id, at, existing, incoming)
      ensures forall p | p in conflictsById :: p in old(conflictsById) || p == Ref(key.entity.tenant, id)
    {
      hide CandidateOf, Seen, ValuesHold, IndexShares;
      OpenIsStored(key);
      if key in openConflicts {
        AddClaim(openConflicts[key], CandidateOf(incoming));
      } else {
        var c := Conflict(id, key, [CandidateOf(existing), CandidateOf(incoming)], Open, at);
        var cell := new ConflictCell(c);
        Enroll(cell);
      }
    }

    /** Assigning to a field of a stored conflict is seen through both dictionaries. */
    method Assign(cell: ConflictCell, value: Conflict)
      requires ValuesHold() && cell.ref in conflictsById && conflictsById[cell.ref] == cell
      requires value.id == cell.value.id && value.key == cell.value.key
      modifies cell, this`conflictValues
      ensures ValuesHold() && cell.value == value
      ensures conflictValues == old(conflictValues)[cell.ref := value]
    {
      cell.value := value;
      conflictValues := conflictValues[cell.ref := value];
    }

    /** `open_conflict.candidates.append`, unless the claim is there. */
    method AddClaim(cell: ConflictCell, claim: Candidate)
      requires ValuesHold() && cell.ref in conflictsById && conflictsById[cell.ref] == cell
      modifies cell, this`conflictValues
      ensures ValuesHold()
      ensures conflictValues == (var c := old(conflictValues)[cell.ref];
                                 old(conflictValues)[cell.ref := c.(candidates := WithCandidate(c.candidates, claim))])
    {
      assert cell.value == conflictValues[cell.ref];
      hide Seen, ValuesHold;
      if !Seen(cell.value.candidates, claim) {
        Assign(cell, cell.value.(candidates := cell.value.candidates + [claim]));
      }
    }

    /** `_conflicts_by_id[...] = conflict`, while the conflict's key is not in the open index. */
    method Put(cell: ConflictCell)
      requires ValuesHold() && IndexShares()
      requires cell.ref == RefOf(cell.value) && cell.key == cell.value.key && cell.key !in openConflicts
      requires cell.ref in conflictValues ==> conflictValues[cell.ref].key == cell.key
      modifies this`conflictsById, this`conflictValues, this`cells
      ensures ValuesHold() && IndexShares()
      ensures conflictValues == old(conflictValues)[cell.ref := cell.value]
      ensures conflictsById == old(conflictsById)[cell.ref := cell]
      ensures cells == old(cells) + {cell}
    {
      conflictsById, conflictValues := conflictsById[cell.ref := cell], conflictValues[cell.ref := cell.value];
      cells := cells + {cell};
    }

    /** `_open_conflicts[...] = conflict`. */
    method SetOpen(cell: ConflictCell)
      requires IndexShares() && cell.ref in conflictsById && conflictsById[cell.ref] == cell
      requires cell.ref.tenant == cell.key.entity.tenant
      modifies this`openConflicts, this`openIds
      ensures IndexShares() && openIds == old(openIds)[cell.key := cell.ref.id]
    {
      openConflicts, openIds := openConflicts[cell.key := cell], openIds[cell.key := cell.ref.id];
    }

    /** A conflict enters both dictionaries. */
    method Enroll(cell: ConflictCell)
      requires ValuesHold() && IndexShares()
      requires cell.ref == RefOf(cell.value) && cell.key == cell.value.key && cell.key !in openConflicts
      requires cell.ref in conflictValues ==> conflictValues[cell.ref].key == cell.key
      modifies this`openConflicts, this`conflictsById, this`openIds, this`conflictValues, this`cells
      ensures ValuesHold() && IndexShares()
      ensures Store() == ConflictStore(old(openIds)[cell.key := cell.ref.id],
                                       old(conflictValues)[cell.ref := cell.value])
      ensures conflictsById == old(conflictsById)[cell.ref := cell]
      ensures cells == old(cells) + {cell}
    {
      Put(cell);
      hide ValuesHold, IndexShares;
      SetOpen(cell);
    }

    /** What the two dictionaries say about each other. */
    lemma OpenIsStored(key: ConflictKey)
      requires ValuesHold() && IndexShares()
      ensures key in openIds <==> key in openConflicts
      ensures key in openConflicts ==>
                && openConflicts[key].ref == Ref(key.entity.tenant, openIds[key])
                && openConflicts[key].ref in conflictsById
                     && conflictsById[openConflicts[key].ref] == openConflicts[key]
                && openConflicts[key].ref in conflictValues && openConflicts[key] in cells
      ensures forall p :: p in conflictValues <==> p in conflictsById
    {
    }

    method HasOpenConflicts(entity: EntityKey) returns (found: bool)
      requires Valid()
      ensures found == WorldModel.HasOpenConflicts(Store(), entity)
    {
      found := exists k | k in openConflicts :: k.entity == entity;
    }

    // -------------------------------------------------------------- ingest

    /** `_create_commit`. */
    method CreateCommit(entity: EntityKey, uuid: string, cause: string, observationIds: seq<string>,
                        before: Attributes, after: Attributes, assurance: string) returns (c: Commit)
      requires Valid()
      modifies this`commits, this`latest
      ensures Valid()
      ensures c == NewCommit(hash, old(Model()), entity, uuid, cause, observationIds, before, after, assurance)
      ensures Model() == AddCommit(old(Model()), c)
    {
      var tenant := entity.tenant;
      var parent := if tenant in latest then Some(latest[tenant]) else None;
      var previousHash := if tenant in latest then Some(commits[Ref(tenant, latest[tenant])].hash) else None;
      var body := CommitBody(CommitId(uuid), entity, parent, cause, observationIds, before, after,
                             Diff(before, after), previousHash);
      c := Commit(body, assurance, hash(body));
      commits := commits[Ref(tenant, body.commitId) := c];
      latest := latest[tenant := body.commitId];
    }

    /** `ingest`. */
    method Ingest(tenant: string, obs: Observation, cause: string, assurance: string, d: Draws)
      returns (result: Option<OrderState>)
      requires Valid() && FreshDraws(Model(), Observe(tenant, obs, cause, assurance, d))
      modifies this, cells
      ensures Valid() && fresh(cells - old(cells))
      ensures Model() == WorldModel.Ingest(hash, old(Model()), tenant, obs, cause, assurance, d).world
      ensures result == WorldModel.Ingest(hash, old(Model()), tenant, obs, cause, assurance, d).result
    {
      hide WorldModel.Absorb, FoldPayload;
      var key := EntityOf(tenant, obs);
      if Ref(tenant, obs.id) in observations {
        return if key in states then Some(states[key]) else None;
      }
      var attributes := FoldAttributes(tenant, obs, if key in states then states[key].attributes else map[], d);
      observations := observations[Ref(tenant, obs.id) := obs];
      result := Absorb(key, obs.id, attributes, cause, assurance, d.commitUuid);
    }

    /** The loop of `ingest` over the incoming attributes. */
    method FoldAttributes(tenant: string, obs: Observation, before: Attributes, d: Draws)
      returns (attributes: Attributes)
      requires Valid()
      requires forall i | 0 <= i < |obs.payload| ::
                Ref(tenant, ConflictId(d.conflictUuid(obs.payload[i].0))) !in conflictsById
      requires forall i, j | 0 <= i < j < |obs.payload| ::
                d.conflictUuid(obs.payload[i].0) != d.conflictUuid(obs.payload[j].0)
      modifies this`openConflicts, this`conflictsById, this`openIds, this`conflictValues, this`cells, cells
      ensures Valid() && fresh(cells - old(cells))
      ensures Folding(attributes, Store()) == FoldPayload(tenant, obs, d, before, old(Store()), |obs.payload|)
    {
      hide Project, Blocked, Record;
      attributes := before;
      for i := 0 to |obs.payload|
        invariant Valid() && fresh(cells - old(cells))
        invariant Folding(attributes, Store()) == FoldPayload(tenant, obs, d, before, old(Store()), i)
        invariant forall j | i <= j < |obs.payload| ::
                  Ref(tenant, ConflictId(d.conflictUuid(obs.payload[j].0))) !in conflictsById
      {
        var name := obs.payload[i].0;
        var incoming := Project(obs, name, obs.payload[i].1, d.now);
        if Blocked(before, name, incoming) {
          DistinctIds(tenant, obs, d, i);
          var id := ConflictId(d.conflictUuid(name));
          BlockedNeedsValue(before, name, incoming);
          RecordConflict(ConflictKey(EntityOf(tenant, obs), name), id, d.detectedAt(name), before[name], incoming);
        } else {
          attributes := attributes[name := incoming];
        }
      }
    }

    /** The end of `ingest`. */
    method Absorb(key: EntityKey, observationId: string, after: Attributes, cause: string, assurance: string,
                  uuid: string)
      returns (result: Option<OrderState>)
      requires Valid()
      modifies this`states, this`commits, this`latest
      ensures Valid()
      ensures var o := WorldModel.Absorb(hash, old(Model()), key, observationId, after, cause, assurance, uuid);
              Model() == o.world && result == o.result
    {
      hide NewCommit, NewState, Diff;
      var before := if key in states then states[key].attributes else map[];
      var changed := Diff(before, after);
      if key in states && changed == [] {
        return Some(states[key]);
      }
      var c := CreateCommit(key, uuid, cause, [observationId], before, after, assurance);
      var version := if key in states then states[key].stateVersion + 1 else 1;
      var state := NewState(key, version, after, c.body.commitId);
      states := states[key := state];
      return Some(state);
    }

    // -------------------------------------------------------------- resolve_conflict

    /** `resolve_conflict`. The result is the conflict object that both dictionaries held. */
    method ResolveConflict(tenant: string, conflictId: string, r: Resolution) returns (result: Option<ConflictCell>)
      requires Valid()
      modifies this, cells
      ensures Valid() && conflictsById == old(conflictsById) && cells == old(cells)
      ensures Model() == Resolve(hash, old(Model()), tenant, conflictId, r).world
      ensures result.Some? <==> Ref(tenant, conflictId) in conflictsById
      ensures result.Some? ==> result.value == conflictsById[Ref(tenant, conflictId)]
      ensures (match result case None => None case Some(c) => Some(c.value))
           == Resolve(hash, old(Model()), tenant, conflictId, r).result
    {
      hide WorldModel.Decide;
      if Ref(tenant, conflictId) !in conflictsById {
        return None;
      }
      var cell := conflictsById[Ref(tenant, conflictId)];
      if cell.value.status.Open? {
        Decide(cell.value, r);
        Close(cell, r);
      }
      return Some(cell);
    }

    /** The end of `resolve_conflict`. */
    method Close(cell: ConflictCell, r: Resolution)
      requires ValuesHold() && IndexShares() && cell.ref in conflictsById && conflictsById[cell.ref] == cell
      modifies cell, this`conflictValues, this`openConflicts, this`openIds
      ensures ValuesHold() && IndexShares()
      ensures Store() == CloseConflict(old(Store()), old(cell.value), r)
      ensures cell.value == Closed(old(cell.value), r)
    {
      SetStatus(cell, Resolved(r.value, r.actor, r.now, r.reason));
      DropOpen(cell.key);
    }

    /** The middle of `resolve_conflict`. */
    method Decide(c: Conflict, r: Resolution)
      requires Valid()
      modifies this`states, this`commits, this`latest
      ensures Valid()
      ensures Model() == WorldModel.Decide(hash, old(Model()), c, r).world
    {
      hide NewCommit, ResolvedAttribute;
      var key := c.key.entity;
      if key in states {
        var state := states[key];
        var attribute := ResolvedAttribute(c, r);
        var after := state.attributes[c.key.attribute := attribute];
        var commit := CreateCommit(key, r.commitUuid, "conflict_resolved:" + c.id, attribute.sources, state.attributes,
                                   after, "operator_resolved");
        states := states[key := state.(stateVersion := state.stateVersion + 1, attributes := after,
        commitId := commit.body.commitId)];
      }
    }

    method SetStatus(cell: ConflictCell, status: ConflictStatus)
      requires ValuesHold() && cell.ref in conflictsById && conflictsById[cell.ref] == cell
      modifies cell, this`conflictValues
      ensures ValuesHold()
      ensures cell.value == old(cell.value).(status := status)
      ensures conflictValues == old(conflictValues)[cell.ref := cell.value]
    {
      Assign(cell, cell.value.(status := status));
    }

    /** `_open_conflicts.pop(key, None)`. */
    method DropOpen(key: ConflictKey)
      requires IndexShares()
      modifies this`openConflicts, this`openIds
      ensures IndexShares() && openIds == old(openIds) - {key}
    {
      openConflicts, openIds := openConflicts - {key}, openIds - {key};
    }

    // -------------------------------------------------------------- hydration

    /** `_is_ancestor`: the walk stops at a missing record, a missing parent or a commit it has seen. */
    method IsAncestor(tenant: string, candidate: string, descendant: string) returns (found: bool)
      ensures found <==> Ancestor(commits, tenant, candidate, descendant)
    {
      var current := Some(descendant);
      var seen: set<string> := {};
      ghost var n: nat := 0;
      ghost var stored := set p | p in commits :: p.id;
      while current.Some? && current.value !in seen
        invariant current == Up(commits, tenant, descendant, n)
        invariant forall m: nat | m < n ::
                  Up(commits, tenant, descendant, m).Some? && Up(commits, tenant, descendant, m).value in seen
        invariant forall x | x in seen :: Ref(tenant, x) in commits && x in stored && x != candidate
        invariant forall x | x in seen ::
                  var p := commits[Ref(tenant, x)].body.parent; p == current || (p.Some? && p.value in seen)
        decreases stored - seen
      {
        if current.value == candidate {
          return true;
        }
        if Ref(tenant, current.value) !in commits {
          forall m: nat
            ensures Up(commits, tenant, descendant, m) != Some(candidate)
          {
            StaysInside(commits, tenant, descendant, seen + {current.value}, m);
          }
          return false;
        }
        seen := seen + {current.value};
        assert Ref(tenant, current.value) in commits && current.value in stored;
        current := commits[Ref(tenant, current.value)].body.parent;
        n := n + 1;
      }
      forall m: nat
        ensures Up(commits, tenant, descendant, m) != Some(candidate)
      {
        StaysInside(commits, tenant, descendant, seen, m);
      }
      return false;
    }

    /** `list_commits`. No result is the KeyError of an unknown cursor. */
    method ListCommits(tenant: string, since: Option<string>) returns (result: Option<seq<Commit>>)
      requires Valid()
      ensures since.None? ==> result == Some(Listed(Model(), tenant))
      ensures since.Some? ==> result == ListedSince(Model(), tenant, since.value)
    {
      if tenant !in latest {
        return Some([]);
      }
      var found: seq<Commit> := [];
      var seen: set<string> := {};
      var current := Some(latest[tenant]);
      ghost var stored := StoredIds(commits);
      while current.Some? && current.value !in seen
        invariant found + Upwards(commits, tenant, current, seen) == Upwards(commits, tenant, Some(latest[tenant]), {})
        decreases stored - seen
      {
        if Ref(tenant, current.value) !in commits {
          break;
        }
        var commit := commits[Ref(tenant, current.value)];
        assert current.value in stored;
        found := found + [commit];
        seen := seen + {current.value};
        current := commit.body.parent;
      }
      assert found == Upwards(commits, tenant, Some(latest[tenant]), {});
      var listed := Reversed(found);
      if since.None? {
        return Some(listed);
      }
      result := FindCursor(listed, since.value);
    }

    /** The cursor loop of `list_commits`. */
    static method FindCursor(listed: seq<Commit>, since: string) returns (result: Option<seq<Commit>>)
      ensures result == After(listed, since)
    {
      for i := 0 to |listed|
        invariant After(listed, since) == After(listed[i..], since)
      {
        assert listed[i..][1..] == listed[i + 1..];
        if listed[i].body.commitId == since {
          return Some(listed[i + 1..]);
        }
      }
      return None;
    }

    /** `hydrate` with the id and hash of the commit that produced the state. */
    method Hydrate(state: OrderState, parentId: string, parentHash: string)
      requires Valid() && parentId != "" && parentHash != ""
      modifies this`states, this`latest, this`commits
      ensures Valid()
      ensures Model() == WorldModel.Hydrate(old(Model()), state, parentId, parentHash)
    {
      hide HydrateKey, Stub, Ancestor;
      var key := HydrateKey(state);
      var known := state.tenantId in latest;
      if known {
        known := IsAncestor(state.tenantId, state.commitId, latest[state.tenantId]);
      }
      states := states[key := state];
      if !known {
        latest := latest[state.tenantId := parentId];
      }
      commits := commits[Ref(state.tenantId, parentId) := Stub(key, parentId, parentHash)];
    }

    /** `hydrate_conflict`: the given object itself is stored. */
    method HydrateConflict(cell: ConflictCell)
      requires Valid()
      requires cell.ref == RefOf(cell.value) && cell.key == cell.value.key
      requires cell.ref in conflictValues ==> conflictValues[cell.ref].key == cell.key
      modifies this`openConflicts, this`conflictsById, this`openIds, this`conflictValues, this`cells
      ensures Valid() && cells == old(cells) + {cell}
      ensures conflictsById == old(conflictsById)[cell.ref := cell]
      ensures Store() == WorldModel.HydrateConflict(old(Store()), cell.value)
    {
      hide ValuesHold, IndexShares;
      DropOpen(cell.key);
      OpenIsStored(cell.key);
      if cell.value.status.Open? {
        Enroll(cell);
        assert openIds == old(openIds)[cell.key := cell.ref.id];
      } else {
        Put(cell);
      }
    }
  }
}
