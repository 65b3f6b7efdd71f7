/**
 The commit log over whole runs of `ingest` and `resolve_conflict` (world_state/service.py): per tenant it is
 complete, ordered, hash-linked and append-only, and per entity it is a gapless history.
 */
module CommitLog {
  import opened Basics
  import opened Links
  import opened StringOrder
  import opened WorldModel
  import opened Lineage
  import opened ConflictIndex

  // ---------------------------------------------------------------- parts of the log

  ghost function TenantLog(log: seq<Commit>, tenant: string): seq<Commit> {
    if log == [] then []
    else
      var rest := TenantLog(log[..|log| - 1], tenant);
      var last := log[|log| - 1];
      if last.body.entity.tenant == tenant then rest + [last] else rest
  }

  ghost function EntityLog(log: seq<Commit>, key: EntityKey): seq<Commit> {
    if log == [] then []
    else
      var rest := EntityLog(log[..|log| - 1], key);
      var last := log[|log| - 1];
      if last.body.entity == key then rest + [last] else rest
  }

  lemma TenantLogSnoc(log: seq<Commit>, c: Commit, tenant: string)
    ensures TenantLog(log + [c], tenant) ==
            if c.body.entity.tenant == tenant then TenantLog(log, tenant) + [c] else TenantLog(log, tenant)
  {
    assert (log + [c])[..|log|] == log;
  }

  lemma EntityLogSnoc(log: seq<Commit>, c: Commit, key: EntityKey)
    ensures EntityLog(log + [c], key) ==
            if c.body.entity == key then EntityLog(log, key) + [c] else EntityLog(log, key)
  {
    assert (log + [c])[..|log|] == log;
  }

  // ---------------------------------------------------------------- what one operation adds

  ghost predicate SameCommits(w: World, w': World) {
    w'.states == w.states && w'.commits == w.commits && w'.latest == w.latest
  }

  /** `c` is a new commit on top of the tenant's log, and its entity's state moved from `before` to `after`. */
  ghost predicate Committed(h: HashCommit, w: World, w': World, c: Commit) {
    var b := c.body;
    && Ref(b.entity.tenant, b.commitId) !in w.commits
    && b.parent == LatestId(w, b.entity.tenant)
    && b.previousHash == LatestHash(w, b.entity.tenant)
    && b.before == AttributesOf(w.states, b.entity)
    && b.changed == Diff(b.before, b.after)
    && c.hash == h(b)
    && w'.commits == w.commits[Ref(b.entity.tenant, b.commitId) := c]
    && w'.latest == w.latest[b.entity.tenant := b.commitId]
    && b.entity in w'.states
    && w'.states == w.states[b.entity := w'.states[b.entity]]
    && w'.states[b.entity].attributes == b.after
    && w'.states[b.entity].commitId == b.commitId
    && w'.states[b.entity].stateVersion == (if b.entity in w.states then w.states[b.entity].stateVersion else 0) + 1
  }

  ghost predicate Advanced(h: HashCommit, w: World, w': World, created: Option<Commit>) {
    match created
    case None => SameCommits(w, w')
    case Some(c) => Committed(h, w, w', c)
  }

  lemma ApplyAdvances(h: HashCommit, w: World, op: WorldOp)
    requires StoreSound(w.conflicts) && FreshDraws(w, op)
    ensures var (w', created) := Apply(h, w, op); Advanced(h, w, w', created)
  {
    hide FoldPayload, WorldModel.Absorb, Decide, Committed, CommitId;
    match op
    case Observe(tenant, obs, cause, assurance, d) =>
      if Ref(tenant, obs.id) !in w.observations {
        var key := EntityOf(tenant, obs);
        var f := FoldPayload(tenant, obs, d, AttributesOf(w.states, key), w.conflicts, |obs.payload|);
        var w1 := w.(observations := w.observations[Ref(tenant, obs.id) := obs], conflicts := f.conflicts);
        AbsorbAdvances(h, w1, key, obs.id, f.attributes, cause, assurance, d.commitUuid);
        var o := WorldModel.Absorb(h, w1, key, obs.id, f.attributes, cause, assurance, d.commitUuid);
        if o.created.Some? { ConflictsDoNotMatter(h, w1, w, o.world, o.world, o.created.value); }
      }
    case Settle(tenant, id, r) =>
      if Ref(tenant, id) in w.conflicts.byId && w.conflicts.byId[Ref(tenant, id)].status.Open? {
        var c := w.conflicts.byId[Ref(tenant, id)];
        DecideAdvances(h, w, c, r);
        var o := Decide(h, w, c, r);
        if o.created.Some? { ConflictsDoNotMatter(h, w, w, o.world, Apply(h, w, op).0, o.created.value); }
      }
  }

  lemma AbsorbAdvances(h: HashCommit, w: World, key: EntityKey, observationId: string, after: Attributes, cause: string,
                       assurance: string, uuid: string)
    requires Ref(key.tenant, CommitId(uuid)) !in w.commits
    ensures var o := WorldModel.Absorb(h, w, key, observationId, after, cause, assurance, uuid);
            Advanced(h, w, o.world, o.created)
  {
    hide Diff, CommitId, LatestHash, LatestId, AttributesOf, Capitalize;
  }

  lemma DecideAdvances(h: HashCommit, w: World, c: Conflict, r: Resolution)
    requires Ref(c.key.entity.tenant, CommitId(r.commitUuid)) !in w.commits
    ensures var o := Decide(h, w, c, r); Advanced(h, w, o.world, o.created)
  {
    hide Diff, CommitId, LatestHash, LatestId, ResolvedAttribute;
  }

  /** What a commit does is told by states, commits and cursor alone. */
  lemma ConflictsDoNotMatter(h: HashCommit, v: World, w: World, v': World, w': World, c: Commit)
    requires Committed(h, v, v', c) && SameCommits(v, w) && SameCommits(v', w')
    ensures Committed(h, w, w', c)
  {
    hide Diff;
  }

  // ---------------------------------------------------------------- the tenant's chain

  function HashBefore(chain: seq<Commit>, i: nat): Option<string>
    requires i <= |chain|
  {
    if i == 0 then None else Some(chain[i - 1].hash)
  }

  ghost predicate LinkedAt(h: HashCommit, chain: seq<Commit>, i: nat)
    requires i < |chain|
  {
    Fits(h, Link(chain[i].body.previousHash, chain[i].body, chain[i].hash), HashBefore(chain, i))
  }

  /** Every record links to the hash before it and carries the hash of its own content. */
  ghost predicate Linked(h: HashCommit, chain: seq<Commit>) {
    forall i: nat | i < |chain| :: LinkedAt(h, chain, i)
  }

  lemma LinkedNext(h: HashCommit, chain: seq<Commit>, c: Commit)
    requires Linked(h, chain) && c.hash == h(c.body) && c.body.previousHash == HashBefore(chain, |chain|)
    ensures Linked(h, chain + [c])
  {
    var next := chain + [c];
    forall i: nat | i < |next|
      ensures LinkedAt(h, next, i)
    {
      assert HashBefore(next, i) == HashBefore(chain, i);
      assert i < |chain| ==> LinkedAt(h, chain, i);
    }
  }

  lemma ChainAfterCommit(h: HashCommit, w: World, w': World, c: Commit, tenant: string, chain: seq<Commit>)
    requires Represents(w, tenant, chain) && Linked(h, chain)
    requires Committed(h, w, w', c)
    ensures var next := if c.body.entity.tenant == tenant then chain + [c] else chain;
            Represents(w', tenant, next) && Linked(h, next)
  {
    hide Diff;
    if c.body.entity.tenant == tenant {
      assert chain != [] ==> StoredAt(w.commits, tenant, chain, |chain| - 1);
      LinkedNext(h, chain, c);
      RepresentsNext(w, w', c, chain);
    } else {
      RepresentsOther(w, w', tenant, chain);
    }
  }

  lemma RepresentsNext(w: World, w': World, c: Commit, chain: seq<Commit>)
    requires Represents(w, c.body.entity.tenant, chain)
    requires Ref(c.body.entity.tenant, c.body.commitId) !in w.commits
    requires c.body.parent == LatestId(w, c.body.entity.tenant)
    requires w'.commits == w.commits[Ref(c.body.entity.tenant, c.body.commitId) := c]
    requires w'.latest == w.latest[c.body.entity.tenant := c.body.commitId]
    ensures Represents(w', c.body.entity.tenant, chain + [c])
  {
    LeadsBackNext(w, w', c, chain);
    CoveredNext(w, w', c, chain);
  }

  lemma LeadsBackNext(w: World, w': World, c: Commit, chain: seq<Commit>)
    requires LeadsBack(w, c.body.entity.tenant, chain)
    requires Ref(c.body.entity.tenant, c.body.commitId) !in w.commits
    requires c.body.parent == LatestId(w, c.body.entity.tenant)
    requires w'.commits == w.commits[Ref(c.body.entity.tenant, c.body.commitId) := c]
    requires w'.latest == w.latest[c.body.entity.tenant := c.body.commitId]
    ensures LeadsBack(w', c.body.entity.tenant, chain + [c])
  {
    var tenant, next := c.body.entity.tenant, chain + [c];
    assert c.body.parent == IdBefore(chain, |chain|);
    forall i: nat | i < |next|
      ensures StoredAt(w'.commits, tenant, next, i)
      ensures i < |chain| ==> next[i].body.commitId != c.body.commitId
    {
      assert IdBefore(next, i) == IdBefore(chain, i);
      assert next[i] == if i < |chain| then chain[i] else c;
      assert i < |chain| ==> StoredAt(w.commits, tenant, chain, i);
    }
  }

  lemma CoveredNext(w: World, w': World, c: Commit, chain: seq<Commit>)
    requires Represents(w, c.body.entity.tenant, chain)
    requires w'.commits == w.commits[Ref(c.body.entity.tenant, c.body.commitId) := c]
    ensures var next := chain + [c];
            forall p | p in w'.commits && p.tenant == c.body.entity.tenant :: exists i | 0 <= i < |next| ::
                next[i].body.commitId == p.id
  {
    var next := chain + [c];
    forall p | p in w'.commits && p.tenant == c.body.entity.tenant
      ensures exists i | 0 <= i < |next| :: next[i].body.commitId == p.id
    {
      if p in w.commits {
        var i :| 0 <= i < |chain| && chain[i].body.commitId == p.id;
        assert next[i] == chain[i];
      } else {
        assert next[|chain|] == c;
      }
    }
  }

  /** The tenant's commits and cursor are the same in both worlds. */
  ghost predicate SameGraph(w: World, w': World, tenant: string) {
    && (forall p: Ref | p.tenant == tenant ::
          (p in w.commits <==> p in w'.commits) && (p in w.commits ==> w.commits[p] == w'.commits[p]))
    && (tenant in w.latest <==> tenant in w'.latest)
    && (tenant in w.latest ==> w.latest[tenant] == w'.latest[tenant])
  }

  lemma LeadsBackOther(w: World, w': World, tenant: string, chain: seq<Commit>)
    requires LeadsBack(w, tenant, chain) && SameGraph(w, w', tenant)
    ensures LeadsBack(w', tenant, chain)
  {
    forall i: nat | i < |chain|
      ensures StoredAt(w'.commits, tenant, chain, i)
    {
      assert StoredAt(w.commits, tenant, chain, i);
    }
  }

  /** Another tenant's commits and cursor do not matter. */
  lemma RepresentsOther(w: World, w': World, tenant: string, chain: seq<Commit>)
    requires Represents(w, tenant, chain) && SameGraph(w, w', tenant)
    ensures Represents(w', tenant, chain)
  {
    LeadsBackOther(w, w', tenant, chain);
    hide LeadsBack;
    forall p | p in w'.commits && p.tenant == tenant
      ensures exists i | 0 <= i < |chain| :: chain[i].body.commitId == p.id
    {
      assert p in w.commits;
    }
  }

  // ---------------------------------------------------------------- one entity's history

  function AttributesBefore(history: seq<Commit>, i: nat): Attributes
    requires i <= |history|
  {
    if i == 0 then map[] else history[i - 1].body.after
  }

  ghost predicate FollowsAt(history: seq<Commit>, i: nat)
    requires i < |history|
  {
    && history[i].body.before == AttributesBefore(history, i)
    && history[i].body.changed == Diff(history[i].body.before, history[i].body.after)
  }

  /** Each commit of an entity starts from where the one before it ended, the first one from nothing. */
  ghost predicate Gapless(history: seq<Commit>) {
    forall i: nat | i < |history| :: FollowsAt(history, i)
  }

  /** The state of an entity is the end of its history. */
  ghost predicate StateEndsHistory(w: World, key: EntityKey, history: seq<Commit>) {
    && (key in w.states <==> history != [])
    && (history != [] ==>
          var last := history[|history| - 1].body;
          && w.states[key].attributes == last.after
          && w.states[key].commitId == last.commitId
          && w.states[key].stateVersion == |history|)
  }

  lemma HistoryAfterCommit(h: HashCommit, w: World, w': World, c: Commit, key: EntityKey, history: seq<Commit>)
    requires StateEndsHistory(w, key, history) && Gapless(history)
    requires Committed(h, w, w', c)
    ensures var next := if c.body.entity == key then history + [c] else history;
            StateEndsHistory(w', key, next) && Gapless(next)
  {
    hide Diff;
    if c.body.entity == key {
      var next := history + [c];
      assert c.body.before == AttributesBefore(history, |history|);
      forall i: nat | i < |next|
        ensures FollowsAt(next, i)
      {
        assert AttributesBefore(next, i) == AttributesBefore(history, i);
        assert i < |history| ==> FollowsAt(history, i);
      }
    }
  }

  // ---------------------------------------------------------------- every reachable state

  ghost predicate LogSound(h: HashCommit, s: History) {
    && StoreSound(s.world.conflicts)
    && (forall t: string :: Represents(s.world, t, TenantLog(s.log, t)) && Linked(h, TenantLog(s.log, t)))
    && (forall key: EntityKey ::
        StateEndsHistory(s.world, key, EntityLog(s.log, key)) && Gapless(EntityLog(s.log, key)))
  }

  lemma StepKeepsLogSound(h: HashCommit, s: History, op: WorldOp)
    requires LogSound(h, s) && FreshDraws(s.world, op)
    ensures LogSound(h, Step(h, s, op))
  {
    hide Represents, Linked, StateEndsHistory, Gapless, Committed, FreshDraws, StoreSound, Apply;
    var (w', created) := Apply(h, s.world, op);
    ApplyKeepsStore(h, s.world, op);
    ApplyAdvances(h, s.world, op);
    if created.None? {
      SameCommitsKeepLog(h, s, w');
    } else {
      var c := created.value;
      forall t: string
        ensures Represents(w', t, TenantLog(s.log + [c], t)) && Linked(h, TenantLog(s.log + [c], t))
      {
        ChainAfterCommit(h, s.world, w', c, t, TenantLog(s.log, t));
        TenantLogSnoc(s.log, c, t);
      }
      forall key: EntityKey
        ensures StateEndsHistory(w', key, EntityLog(s.log + [c], key)) && Gapless(EntityLog(s.log + [c], key))
      {
        HistoryAfterCommit(h, s.world, w', c, key, EntityLog(s.log, key));
        EntityLogSnoc(s.log, c, key);
      }
    }
  }

  lemma SameCommitsKeepLog(h: HashCommit, s: History, w': World)
    requires LogSound(h, s) && SameCommits(s.world, w') && StoreSound(w'.conflicts)
    ensures LogSound(h, History(w', s.log))
  {
    forall t: string
      ensures Represents(w', t, TenantLog(s.log, t))
    {
      RepresentsOther(s.world, w', t, TenantLog(s.log, t));
    }
    forall key: EntityKey
      ensures StateEndsHistory(w', key, EntityLog(s.log, key))
    {
      assert StateEndsHistory(s.world, key, EntityLog(s.log, key));
    }
  }

  lemma {:induction false} RunKeepsLogSound(h: HashCommit, ops: seq<WorldOp>)
    requires Supplied(h, ops)
    ensures LogSound(h, Run(h, ops))
  {
    if |ops| > 0 {
      RunKeepsLogSound(h, ops[..|ops| - 1]);
      StepKeepsLogSound(h, Run(h, ops[..|ops| - 1]), ops[|ops| - 1]);
    }
  }

  /** In every reachable state `list_commits` is the tenant's whole log in creation order, hash-linked. */
  lemma ListCommitsIsComplete(h: HashCommit, ops: seq<WorldOp>, tenant: string)
    requires Supplied(h, ops)
    ensures Listed(Run(h, ops).world, tenant) == TenantLog(Run(h, ops).log, tenant)
    ensures Linked(h, TenantLog(Run(h, ops).log, tenant))
  {
    RunKeepsLogSound(h, ops);
    ListedIsChain(Run(h, ops).world, tenant, TenantLog(Run(h, ops).log, tenant));
  }

  lemma StepGrowsLog(h: HashCommit, s: History, op: WorldOp, tenant: string)
    ensures IsPrefix(s.log, Step(h, s, op).log)
    ensures IsPrefix(TenantLog(s.log, tenant), TenantLog(Step(h, s, op).log, tenant))
  {
    hide Apply, TenantLog;
    var created := Apply(h, s.world, op).1;
    if created.Some? { TenantLogSnoc(s.log, created.value, tenant); }
  }

  lemma {:induction false} LogOnlyGrows(h: HashCommit, ops: seq<WorldOp>, n: nat, tenant: string)
    requires n <= |ops|
    ensures IsPrefix(Run(h, ops[..n]).log, Run(h, ops).log)
    ensures IsPrefix(TenantLog(Run(h, ops[..n]).log, tenant), TenantLog(Run(h, ops).log, tenant))
    decreases |ops|
  {
    hide Step, TenantLog;
    if n == |ops| {
      assert ops[..n] == ops;
    } else {
      var init := ops[..|ops| - 1];
      assert init[..n] == ops[..n];
      LogOnlyGrows(h, init, n, tenant);
      StepGrowsLog(h, Run(h, init), ops[|ops| - 1], tenant);
    }
  }

  /**
   Polling: what a client last saw stays a prefix, and asking again with the last id it saw returns exactly
   the commits created since, in order.
   */
  lemma PollingDeliversOnce(h: HashCommit, ops: seq<WorldOp>, n: nat, tenant: string)
    requires Supplied(h, ops) && n <= |ops|
    ensures var before, now := Listed(Run(h, ops[..n]).world, tenant), Listed(Run(h, ops).world, tenant);
            && IsPrefix(before, now)
            && (before != [] ==>
                  ListedSince(Run(h, ops).world, tenant, before[|before| - 1].body.commitId) == Some(now[|before|..]))
  {
    hide Run, TenantLog, EntityLog, Linked, Gapless, StateEndsHistory, StoreSound, Supplied, Upwards, Reversed,
        StoredAt, Listed;
    SuppliedPrefix(h, ops, n);
    ListCommitsIsComplete(h, ops[..n], tenant);
    ListCommitsIsComplete(h, ops, tenant);
    LogOnlyGrows(h, ops, n, tenant);
    RunKeepsLogSound(h, ops);
    var before, now := Listed(Run(h, ops[..n]).world, tenant), Listed(Run(h, ops).world, tenant);
    assert Represents(Run(h, ops).world, tenant, now);
    if before != [] {
      AfterCursor(now, |before| - 1);
      assert before[|before| - 1] == now[|before| - 1];
    }
  }

  /**
   `list_commits` with any cursor, in every reachable state: a commit of the tenant is followed by exactly what came
   after it, any other id is an error, and a tenant without commits has nothing to list.
   */
  lemma CursorIsExact(h: HashCommit, ops: seq<WorldOp>, tenant: string, since: string)
    requires Supplied(h, ops)
    ensures var w, log := Run(h, ops).world, TenantLog(Run(h, ops).log, tenant);
            && (log == [] ==> ListedSince(w, tenant, since) == Some([]))
            && (ListedSince(w, tenant, since).None? <==>
                log != [] && forall i | 0 <= i < |log| :: log[i].body.commitId != since)
            && forall i | 0 <= i < |log| && log[i].body.commitId == since ::
                 ListedSince(w, tenant, since) == Some(log[i + 1..])
  {
    hide Run, TenantLog, EntityLog, Linked, Gapless, StateEndsHistory, StoreSound, Supplied, Upwards, Reversed,
        StoredAt, Listed;
    ListCommitsIsComplete(h, ops, tenant);
    RunKeepsLogSound(h, ops);
    var log := TenantLog(Run(h, ops).log, tenant);
    assert Represents(Run(h, ops).world, tenant, log);
    AfterUnknown(log, since);
    forall i | 0 <= i < |log| && log[i].body.commitId == since
      ensures After(log, since) == Some(log[i + 1..])
    {
      AfterCursor(log, i);
    }
  }

  lemma {:induction false} SuppliedPrefix(h: HashCommit, ops: seq<WorldOp>, n: nat)
    requires Supplied(h, ops) && n <= |ops|
    ensures Supplied(h, ops[..n])
    decreases |ops|
  {
    if n == |ops| {
      assert ops[..n] == ops;
    } else {
      assert ops[..|ops| - 1][..n] == ops[..n];
      SuppliedPrefix(h, ops[..|ops| - 1], n);
    }
  }

  /**
   The history of an entity in any reachable state: each commit starts from where the last one ended, and the
   current state is the end of it, with as many versions as commits.
   */
  lemma EntityHistoryIsContinuous(h: HashCommit, ops: seq<WorldOp>, key: EntityKey)
    requires Supplied(h, ops)
    ensures var s := Run(h, ops);
            Gapless(EntityLog(s.log, key)) && StateEndsHistory(s.world, key, EntityLog(s.log, key))
  {
    RunKeepsLogSound(h, ops);
  }

  /**
   An ingest that commits on a known entity changes some value, and its diff names exactly the changed ones, sorted.
   */
  lemma IngestCommitsRealChanges(h: HashCommit, w: World, tenant: string, obs: Observation, cause: string,
                                 assurance: string, d: Draws)
    requires EntityOf(tenant, obs) in w.states
    requires Ingest(h, w, tenant, obs, cause, assurance, d).created.Some?
    ensures var b := Ingest(h, w, tenant, obs, cause, assurance, d).created.value.body;
            && b.before == w.states[EntityOf(tenant, obs)].attributes
            && b.changed != [] && Ascending(b.changed)
            && forall n :: n in b.changed <==>
                 n in b.before.Keys + b.after.Keys && ValueOf(b.before, n) != ValueOf(b.after, n)
  {
    hide FoldPayload, FreshDraws;
  }
}
