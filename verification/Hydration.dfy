/**
 Loading persisted records into the service (world_state/service.py): `hydrate` cuts the commit chain at the
 hydrated commit and keeps the rest, and `hydrate_conflict` rebuilds both conflict dictionaries.
 */
module Hydration {
  import opened Basics
  import opened WorldModel
  import opened Lineage
  import opened ConflictIndex
  import opened CommitLog

  // ---------------------------------------------------------------- hydrate

  lemma {:induction false} UpAlongChain(commits: Commits, tenant: string, chain: seq<Commit>, from: nat, n: nat)
    requires n <= from < |chain|
    requires forall i: nat | i < |chain| :: StoredAt(commits, tenant, chain, i)
    ensures Up(commits, tenant, chain[from].body.commitId, n) == Some(chain[from - n].body.commitId)
    decreases n
  {
    if n > 0 {
      UpAlongChain(commits, tenant, chain, from, n - 1);
      assert StoredAt(commits, tenant, chain, from - n + 1);
    }
  }

  /** What follows the commit on the chain; nothing if it is not there. */
  function Following(chain: seq<Commit>, id: string): seq<Commit> {
    match After(chain, id) case None => [] case Some(rest) => rest
  }

  predicate OnChain(chain: seq<Commit>, id: string) {
    exists i | 0 <= i < |chain| :: chain[i].body.commitId == id
  }

  /** The commits above the cursor are those of the chain. */
  lemma AncestorsAreOnChain(w: World, tenant: string, chain: seq<Commit>, id: string)
    requires LeadsBack(w, tenant, chain) && chain != []
    ensures Ancestor(w.commits, tenant, id, w.latest[tenant]) <==> OnChain(chain, id)
  {
    var last: nat := |chain| - 1;
    if i: nat :| i < |chain| && chain[i].body.commitId == id {
      UpAlongChain(w.commits, tenant, chain, last, last - i);
      assert Up(w.commits, tenant, w.latest[tenant], last - i) == Some(id);
    }
    var ids := set i | 0 <= i < |chain| :: chain[i].body.commitId;
    forall x | x in ids && Ref(tenant, x) in w.commits
      ensures var p := w.commits[Ref(tenant, x)].body.parent; p.None? || p.value in ids
    {
      var i :| 0 <= i < |chain| && chain[i].body.commitId == x;
      assert StoredAt(w.commits, tenant, chain, i);
    }
    forall n: nat
      ensures Up(w.commits, tenant, w.latest[tenant], n) == Some(id) ==> id in ids
    {
      StaysInside(w.commits, tenant, w.latest[tenant], ids, n);
    }
  }

  /**
   Hydrating a state with its own commit, after whatever has been ingested, settled and hydrated before: the log becomes
   that commit's stub and what followed it, and the cursor stays where it was exactly if the commit was on the chain.
   What holds of the chain before holds of it afterwards, so hydrations compose.
   */
  lemma HydrateKeepsSuffix(w: World, state: OrderState, hash: string, chain: seq<Commit>)
    requires LeadsBack(w, state.tenantId, chain)
    ensures var w' := Hydrate(w, state, state.commitId, hash);
            var next := [Stub(HydrateKey(state), state.commitId, hash)] + Following(chain, state.commitId);
            && LeadsBack(w', state.tenantId, next)
            && Listed(w', state.tenantId) == next
            && (OnChain(chain, state.commitId) ==> w'.latest == w.latest)
            && (!OnChain(chain, state.commitId) ==> w'.latest == w.latest[state.tenantId := state.commitId])
  {
    hide HydrateKey, Listed, Ancestor;
    var tenant, id := state.tenantId, state.commitId;
    var w' := Hydrate(w, state, id, hash);
    var stub := Stub(HydrateKey(state), id, hash);
    if chain != [] { AncestorsAreOnChain(w, tenant, chain, id); }
    AfterUnknown(chain, id);
    if i: nat :| i < |chain| && chain[i].body.commitId == id {
      AfterCursor(chain, i);
      SuffixLeadsBack(w, w', tenant, chain, i, stub);
    } else {
      assert [stub] + [] == [stub];
      assert StoredAt(w'.commits, tenant, [stub], 0);
    }
    ListedIsChain(w', tenant, [stub] + Following(chain, id));
  }

  lemma SuffixLeadsBack(w: World, w': World, tenant: string, chain: seq<Commit>, i: nat, stub: Commit)
    requires LeadsBack(w, tenant, chain) && i < |chain|
    requires stub.body.commitId == chain[i].body.commitId && stub.body.parent == None
    requires w'.latest == w.latest && w'.commits == w.commits[Ref(tenant, stub.body.commitId) := stub]
    ensures LeadsBack(w', tenant, [stub] + chain[i + 1..])
  {
    var rest := [stub] + chain[i + 1..];
    forall k: nat | k < |rest|
      ensures StoredAt(w'.commits, tenant, rest, k)
    {
      assert StoredAt(w.commits, tenant, chain, i + k);
      assert k > 0 ==> rest[k] == chain[i + k] && IdBefore(rest, k) == IdBefore(chain, i + k);
    }
    assert forall k | 0 < k < |rest| :: rest[k] == chain[i + k];
    assert rest[|rest| - 1].body.commitId == chain[|chain| - 1].body.commitId;
  }

  /** Every record but the first, which may be a stub, carries the hash of its content and of the record before it. */
  ghost predicate IntactLinks(h: HashCommit, chain: seq<Commit>) {
    forall k: nat | 0 < k < |chain| :: LinkedAt(h, chain, k)
  }

  /** The hash is that of the commit, if the commit is on the chain. */
  ghost predicate TrueHash(chain: seq<Commit>, id: string, hash: string) {
    forall i | 0 <= i < |chain| && chain[i].body.commitId == id :: chain[i].hash == hash
  }

  /**
   Hydrating with the commit's true hash leaves every link after the cut intact, so that it can be done again: the
   ids and hashes are the old suffix and each record still names the one before it.
   */
  lemma HydrateKeepsLinks(h: HashCommit, w: World, state: OrderState, hash: string, chain: seq<Commit>)
    requires LeadsBack(w, state.tenantId, chain) && IntactLinks(h, chain) && TrueHash(chain, state.commitId, hash)
    ensures var listed := Listed(Hydrate(w, state, state.commitId, hash), state.tenantId);
            && IntactLinks(h, listed)
            && (forall i: nat | i < |chain| && chain[i].body.commitId == state.commitId ::
                  && |listed| == |chain| - i
                  && forall k: nat | k < |listed| ::
                       listed[k].body.commitId == chain[i + k].body.commitId && listed[k].hash == chain[i + k].hash)
            && (forall k: nat | 0 < k < |listed| :: listed[k].body.parent == Some(listed[k - 1].body.commitId))
  {
    HydrateKeepsSuffix(w, state, hash, chain);
    AfterUnknown(chain, state.commitId);
    hide Hydrate, Listed, HydrateKey, Stub;
    var stub := Stub(HydrateKey(state), state.commitId, hash);
    assert stub.body.commitId == state.commitId
        && stub.hash == hash by { StubNames(HydrateKey(state), state.commitId, hash); }
    var listed := [stub] + Following(chain, state.commitId);
    if i: nat :| i < |chain| && chain[i].body.commitId == state.commitId {
      AfterCursor(chain, i);
      SuffixLinks(h, w, state.tenantId, chain, i, stub);
    } else {
      assert listed == [stub];
    }
  }

  lemma StubNames(key: EntityKey, id: string, hash: string)
    ensures Stub(key, id, hash).body.commitId == id && Stub(key, id, hash).hash == hash
  {
  }

  lemma SuffixLinks(h: HashCommit, w: World, tenant: string, chain: seq<Commit>, i: nat, stub: Commit)
    requires LeadsBack(w, tenant, chain) && IntactLinks(h, chain) && i < |chain|
    requires stub.body.commitId == chain[i].body.commitId && stub.hash == chain[i].hash
    ensures var rest := [stub] + chain[i + 1..];
            && IntactLinks(h, rest)
            && (forall k: nat | k < |rest| ::
                  rest[k].body.commitId == chain[i + k].body.commitId && rest[k].hash == chain[i + k].hash)
            && (forall k: nat | 0 < k < |rest| :: rest[k].body.parent == Some(rest[k - 1].body.commitId))
  {
    var rest := [stub] + chain[i + 1..];
    assert forall k: nat | 0 < k < |rest| :: rest[k] == chain[i + k];
    forall k: nat | 0 < k < |rest|
      ensures LinkedAt(h, rest, k) && rest[k].body.parent == Some(rest[k - 1].body.commitId)
    {
      assert LinkedAt(h, chain, i + k) && StoredAt(w.commits, tenant, chain, i + k);
      assert HashBefore(rest, k) == HashBefore(chain, i + k);
    }
  }

  // ---------------------------------------------------------------- runs with hydration

  /** The service at work, or loading a state with the hash of its commit. */
  datatype MixedOp = Work(op: WorldOp) | Load(state: OrderState, hash: string)

  ghost function MixedStep(h: HashCommit, w: World, m: MixedOp): World {
    match m
    case Work(op) => Apply(h, w, op).0
    case Load(state, hash) => Hydrate(w, state, state.commitId, hash)
  }

  ghost function MixedRun(h: HashCommit, ms: seq<MixedOp>): World {
    if |ms| == 0 then EMPTY_WORLD else MixedStep(h, MixedRun(h, ms[..|ms| - 1]), ms[|ms| - 1])
  }

  /** The ids drawn are new; a state is loaded with its commit's true hash. */
  ghost predicate Admits(w: World, m: MixedOp) {
    match m
    case Work(op) => FreshDraws(w, op)
    case Load(state, hash) => TrueHash(Listed(w, state.tenantId), state.commitId, hash)
  }

  ghost predicate AdmittedRun(h: HashCommit, ms: seq<MixedOp>) {
    |ms| == 0 || (AdmittedRun(h, ms[..|ms| - 1]) && Admits(MixedRun(h, ms[..|ms| - 1]), ms[|ms| - 1]))
  }

  ghost predicate ListingSound(h: HashCommit, w: World, tenant: string) {
    LeadsBack(w, tenant, Listed(w, tenant)) && IntactLinks(h, Listed(w, tenant))
  }

  ghost predicate MixedSound(h: HashCommit, w: World) {
    StoreSound(w.conflicts) && forall t: string :: ListingSound(h, w, t)
  }

  /** Work extends the listing by what it commits. */
  lemma WorkKeepsListing(h: HashCommit, w: World, op: WorldOp, tenant: string)
    requires StoreSound(w.conflicts) && FreshDraws(w, op) && ListingSound(h, w, tenant)
    ensures var (w', created) := Apply(h, w, op);
            && ListingSound(h, w', tenant)
            && Listed(w', tenant) == Listed(w, tenant) +
               if created.Some? && created.value.body.entity.tenant == tenant then [created.value] else []
  {
    hide Apply, StoreSound, FreshDraws, Listed, IntactLinks, Committed, LeadsBack;
    var chain := Listed(w, tenant);
    var (w', created) := Apply(h, w, op);
    ApplyAdvances(h, w, op);
    if created.Some? && created.value.body.entity.tenant == tenant {
      CommitExtends(h, w, w', created.value, chain);
      ListedIsChain(w', tenant, chain + [created.value]);
    } else {
      assert SameGraph(w, w', tenant) by { OthersGraph(h, w, w', created, tenant); }
      LeadsBackOther(w, w', tenant, chain);
      ListedIsChain(w', tenant, chain);
      assert chain + [] == chain;
    }
  }

  lemma OthersGraph(h: HashCommit, w: World, w': World, created: Option<Commit>, tenant: string)
    requires Advanced(h, w, w', created) && (created.Some? ==> created.value.body.entity.tenant != tenant)
    ensures SameGraph(w, w', tenant)
  {
    hide Diff;
  }

  lemma CommitExtends(h: HashCommit, w: World, w': World, c: Commit, chain: seq<Commit>)
    requires Committed(h, w, w', c) && LeadsBack(w, c.body.entity.tenant, chain) && IntactLinks(h, chain)
    ensures LeadsBack(w', c.body.entity.tenant, chain + [c]) && IntactLinks(h, chain + [c])
  {
    hide Diff;
    LeadsBackNext(w, w', c, chain);
    var next := chain + [c];
    assert chain != [] ==> StoredAt(w.commits, c.body.entity.tenant, chain, |chain| - 1);
    forall k: nat | 0 < k < |next|
      ensures LinkedAt(h, next, k)
    {
      assert HashBefore(next, k) == HashBefore(chain, k);
      assert k < |chain| ==> LinkedAt(h, chain, k);
    }
  }

  lemma LoadKeepsListing(h: HashCommit, w: World, state: OrderState, hash: string, tenant: string)
    requires ListingSound(h, w, tenant) && ListingSound(h, w, state.tenantId)
    requires TrueHash(Listed(w, state.tenantId), state.commitId, hash)
    ensures var w' := Hydrate(w, state, state.commitId, hash);
            && ListingSound(h, w', tenant)
            && Listed(w', tenant) ==
               if tenant == state.tenantId
               then [Stub(HydrateKey(state), state.commitId, hash)] + Following(Listed(w, tenant), state.commitId)
               else Listed(w, tenant)
  {
    hide Listed, HydrateKey, IntactLinks, LeadsBack, Following, TrueHash;
    var w' := Hydrate(w, state, state.commitId, hash);
    if tenant == state.tenantId {
      HydrateKeepsSuffix(w, state, hash, Listed(w, tenant));
      HydrateKeepsLinks(h, w, state, hash, Listed(w, tenant));
    } else {
      LeadsBackOther(w, w', tenant, Listed(w, tenant));
      ListedIsChain(w', tenant, Listed(w, tenant));
    }
  }

  /**
   In every state reached by observing, settling and hydrating in any order, what `list_commits` returns is the chain
   that the cursor leads back to, and every link in it is intact.
   */
  lemma {:induction false} MixedRunsKeepListings(h: HashCommit, ms: seq<MixedOp>)
    requires AdmittedRun(h, ms)
    ensures MixedSound(h, MixedRun(h, ms))
  {
    hide MixedStep, ListingSound, StoreSound, Admits;
    if |ms| == 0 {
      EmptyListings(h);
    } else {
      MixedRunsKeepListings(h, ms[..|ms| - 1]);
      StepKeepsMixed(h, MixedRun(h, ms[..|ms| - 1]), ms[|ms| - 1]);
    }
  }

  lemma StepKeepsMixed(h: HashCommit, w: World, m: MixedOp)
    requires MixedSound(h, w) && Admits(w, m)
    ensures MixedSound(h, MixedStep(h, w, m))
  {
    hide Apply, ListingSound, StoreSound, FreshDraws, TrueHash, Listed;
    match m
    case Work(op) =>
      ApplyKeepsStore(h, w, op);
      forall t: string
        ensures ListingSound(h, MixedStep(h, w, m), t)
      {
        WorkKeepsListing(h, w, op, t);
      }
    case Load(state, hash) =>
      forall t: string
        ensures ListingSound(h, MixedStep(h, w, m), t)
      {
        LoadKeepsListing(h, w, state, hash, t);
      }
  }

  lemma EmptyListings(h: HashCommit)
    ensures MixedSound(h, EMPTY_WORLD)
  {
  }

  // ---------------------------------------------------------------- the hydrated state

  /** `.lower()` on every character, for the letters of ASCII. */
  lemma {:induction false} LowerTextAt(s: string, i: nat)
    requires i < |s|
    ensures |LowerText(s)| == |s|
    ensures LowerText(s)[i] == if 'A' <= s[i] <= 'Z' then (s[i] as int + 32) as char else s[i]
    decreases |s|
  {
    if |s| > 1 { LowerTextAt(s[1..], if i > 0 then i - 1 else 0); }
  }

  /** The state is stored under its tenant, its lower-cased type and what follows the first colon of its entity id. */
  lemma HydrateKeyIsExact(state: OrderState, prefix: string, rest: string)
    requires ':' !in prefix
    ensures HydrateKey(state).tenant == state.tenantId && HydrateKey(state).kind == LowerText(state.entityType)
    ensures state.entityId == prefix + ":" + rest ==> HydrateKey(state).id == rest
    ensures ':' !in state.entityId ==> HydrateKey(state).id == state.entityId
  {
    hide LowerText;
    AfterPrefix(prefix, rest);
  }

  /** A stub tells the id and hash of the commit it stands for, and nothing of what came before. */
  ghost predicate IsStub(c: Commit, entity: EntityKey, id: string, hash: string) {
    && c.body.commitId == id && c.body.entity == entity && c.hash == hash && c.assuranceLevel == "observed"
    && c.body.parent == None && c.body.previousHash == None && c.body.cause == "hydrated"
    && c.body.observationIds == [] && c.body.before == map[] && c.body.after == map[] && c.body.changed == []
  }

  /**
   Hydrating stores exactly the given state, and a stub of its commit; other states, observations and conflicts stay.
   */
  lemma HydrateStores(w: World, state: OrderState, parentId: string, hash: string)
    ensures var w', ref := Hydrate(w, state, parentId, hash), Ref(state.tenantId, parentId);
            && w'.states == w.states[HydrateKey(state) := state]
            && w'.observations == w.observations && w'.conflicts == w.conflicts
            && ref in w'.commits && IsStub(w'.commits[ref], HydrateKey(state), parentId, hash)
            && w'.commits == w.commits[ref := w'.commits[ref]]
  {
    hide HydrateKey, Ancestor;
  }

  function MixedCommit(h: HashCommit, w: World, m: MixedOp): Option<Commit> {
    match m
    case Work(op) => Apply(h, w, op).1
    case Load(_, _) => None
  }

  /** The operation commits on the entity or loads a state of it. */
  predicate Moves(h: HashCommit, w: World, m: MixedOp, key: EntityKey) {
    match m
    case Work(op) => MixedCommit(h, w, m).Some? && MixedCommit(h, w, m).value.body.entity == key
    case Load(state, _) => HydrateKey(state) == key
  }

  ghost predicate SameState(w: World, w': World, key: EntityKey) {
    (key in w'.states <==> key in w.states) && (key in w.states ==> w'.states[key] == w.states[key])
  }

  lemma StateStays(h: HashCommit, w: World, m: MixedOp, key: EntityKey)
    requires MixedSound(h, w) && Admits(w, m) && !Moves(h, w, m, key)
    ensures SameState(w, MixedStep(h, w, m), key)
  {
    hide Apply, FreshDraws, StoreSound, ListingSound, HydrateKey, Ancestor, TrueHash, Diff;
    match m
    case Work(op) => ApplyAdvances(h, w, op);
    case Load(state, hash) =>
  }

  lemma {:induction false} AdmittedPrefix(h: HashCommit, ms: seq<MixedOp>, n: nat)
    requires AdmittedRun(h, ms) && n <= |ms|
    ensures AdmittedRun(h, ms[..n])
    decreases |ms|
  {
    hide Admits, MixedRun;
    if n == |ms| {
      assert ms[..n] == ms;
    } else {
      assert ms[..|ms| - 1][..n] == ms[..n];
      AdmittedPrefix(h, ms[..|ms| - 1], n);
    }
  }

  lemma MixedStepAt(h: HashCommit, ms: seq<MixedOp>, n: nat)
    requires AdmittedRun(h, ms) && n < |ms|
    ensures MixedSound(h, MixedRun(h, ms[..n])) && Admits(MixedRun(h, ms[..n]), ms[n])
    ensures MixedRun(h, ms[..n + 1]) == MixedStep(h, MixedRun(h, ms[..n]), ms[n])
  {
    AdmittedPrefix(h, ms, n + 1);
    AdmittedPrefix(h, ms, n);
    assert ms[..n + 1][..n] == ms[..n] && ms[..n + 1][n] == ms[n];
    hide MixedStep, MixedSound, Admits;
    MixedRunsKeepListings(h, ms[..n]);
  }

  lemma {:induction false} StateWaits(h: HashCommit, ms: seq<MixedOp>, n: nat, m: nat, key: EntityKey)
    requires AdmittedRun(h, ms) && n <= m <= |ms|
    requires forall i: nat | n <= i < m :: !Moves(h, MixedRun(h, ms[..i]), ms[i], key)
    ensures SameState(MixedRun(h, ms[..n]), MixedRun(h, ms[..m]), key)
    decreases m
  {
    hide AdmittedRun, MixedRun, MixedStep, MixedSound, Admits, Moves;
    if n < m {
      StateWaits(h, ms, n, m - 1, key);
      MixedStepAt(h, ms, m - 1);
      StateStays(h, MixedRun(h, ms[..m - 1]), ms[m - 1], key);
    }
  }

  /**
   Over observing, settling and hydrating in any order: the next commit of a hydrated entity starts from the
   attributes of the hydrated state, and its version is one more.
   */
  lemma HydratedStateIsContinued(h: HashCommit, ms: seq<MixedOp>, n: nat, m: nat)
    requires AdmittedRun(h, ms) && n < m < |ms| && ms[n].Load? && ms[m].Work?
    requires var key := HydrateKey(ms[n].state);
             && (forall i: nat | n < i < m :: !Moves(h, MixedRun(h, ms[..i]), ms[i], key))
             && Moves(h, MixedRun(h, ms[..m]), ms[m], key)
    ensures var state, key := ms[n].state, HydrateKey(ms[n].state);
            var c, after := MixedCommit(h, MixedRun(h, ms[..m]), ms[m]).value, MixedRun(h, ms[..m + 1]);
            && c.body.entity == key && c.body.before == state.attributes
            && key in after.states && after.states[key].stateVersion == state.stateVersion + 1
            && after.states[key].attributes == c.body.after && after.states[key].commitId == c.body.commitId
  {
    hide AdmittedRun, MixedRun, MixedSound, HydrateKey, Apply, Hydrate, Diff;
    var state, key := ms[n].state, HydrateKey(ms[n].state);
    MixedStepAt(h, ms, n);
    HydrateStores(MixedRun(h, ms[..n]), state, state.commitId, ms[n].hash);
    StateWaits(h, ms, n + 1, m, key);
    MixedStepAt(h, ms, m);
    CommitContinues(h, MixedRun(h, ms[..m]), ms[m].op);
  }

  /** A commit starts from the entity's attributes and counts its version up. */
  lemma CommitContinues(h: HashCommit, w: World, op: WorldOp)
    requires MixedSound(h, w) && FreshDraws(w, op) && Apply(h, w, op).1.Some?
    ensures var (w', created) := Apply(h, w, op);
            var b := created.value.body;
            && b.before == (if b.entity in w.states then w.states[b.entity].attributes else map[])
            && b.entity in w'.states && w'.states[b.entity].attributes == b.after
            && w'.states[b.entity].commitId == b.commitId
            && w'.states[b.entity].stateVersion == (if b.entity in w.states then w.states[b.entity].stateVersion
                                                    else 0) + 1
  {
    hide Apply, FreshDraws, StoreSound, ListingSound, Diff;
    ApplyAdvances(h, w, op);
  }

  /** A state made by `ingest` is stored under the same key again. */
  lemma HydrateKeyOfIngested(tenant: string, obs: Observation, version: int, attributes: Attributes, commitId: string)
    ensures HydrateKey(NewState(EntityOf(tenant, obs), version, attributes, commitId)) == EntityOf(tenant, obs)
  {
    hide AfterColon, Capitalize, LowerText;
    AfterPrefix(obs.kind, obs.objectId);
    KindRoundTrip(obs.kind);
  }

  lemma KindRoundTrip(kind: Kind)
    ensures LowerText(Capitalize(kind)) == kind
  {
    if kind == "order" {
      LowerTextOf("rder");
      assert Capitalize("order") == "O" + "rder";
      LowerTextCons('O', "rder");
    } else {
      LowerTextOf("hipment");
      assert Capitalize("shipment") == "S" + "hipment";
      LowerTextCons('S', "hipment");
    }
  }

  lemma LowerTextCons(c: char, s: string)
    ensures LowerText([c] + s) == [Lower(c)] + LowerText(s)
  {
    assert ([c] + s)[1..] == s;
  }

  lemma {:induction false} LowerTextOf(s: string)
    requires forall i | 0 <= i < |s| :: Lower(s[i]) == s[i]
    ensures LowerText(s) == s
  {
    if s != [] {
      LowerTextOf(s[1..]);
      assert [s[0]] + s[1..] == s;
    }
  }

  lemma {:induction false} AfterPrefix(prefix: string, rest: string)
    requires ':' !in prefix
    ensures AfterColon(prefix + ":" + rest) == rest
  {
    var s := prefix + ":" + rest;
    assert s[|prefix|] == ':';
    if prefix == [] {
      assert s[1..] == rest;
    } else {
      assert s[0] == prefix[0] && s[1..] == prefix[1..] + ":" + rest;
      AfterPrefix(prefix[1..], rest);
    }
  }

  // ---------------------------------------------------------------- hydrate_conflict

  function Rehydrated(cs: seq<Conflict>): ConflictStore {
    if cs == [] then EMPTY_STORE else HydrateConflict(Rehydrated(cs[..|cs| - 1]), cs[|cs| - 1])
  }

  /** The part of a store that belongs to one tenant. */
  ghost predicate IsTenantPart(cs: ConflictStore, tenant: string, part: ConflictStore) {
    && (forall p :: p in part.byId <==> p in cs.byId && p.tenant == tenant)
    && (forall p | p in part.byId :: part.byId[p] == cs.byId[p])
    && (forall k :: k in part.open <==> k in cs.open && k.entity.tenant == tenant)
    && (forall k | k in part.open :: part.open[k] == cs.open[k])
  }

  /** `listing` names each of the tenant's conflicts once. */
  ghost predicate ListsConflicts(cs: ConflictStore, tenant: string, listing: seq<Conflict>) {
    && (forall i | 0 <= i < |listing| ::
          RefOf(listing[i]) in cs.byId && cs.byId[RefOf(listing[i])] == listing[i]
              && RefOf(listing[i]).tenant == tenant)
    && (forall i, j | 0 <= i < j < |listing| :: RefOf(listing[i]) != RefOf(listing[j]))
    && (forall p | p in cs.byId && p.tenant == tenant :: cs.byId[p] in listing)
  }

  /** No conflict about an attribute comes after the open one about it. */
  ghost predicate OpenComesLast(listing: seq<Conflict>) {
    forall i, j | 0 <= i < j < |listing| && listing[i].key == listing[j].key :: listing[i].status.Resolved?
  }

  lemma {:induction false} RehydratedById(listing: seq<Conflict>)
    requires forall i, j | 0 <= i < j < |listing| :: RefOf(listing[i]) != RefOf(listing[j])
    ensures forall i | 0 <= i < |listing| ::
              RefOf(listing[i]) in Rehydrated(listing).byId && Rehydrated(listing).byId[RefOf(listing[i])] == listing[i]
    ensures forall p | p in Rehydrated(listing).byId :: exists i | 0 <= i < |listing| :: RefOf(listing[i]) == p
  {
    if listing != [] {
      var init, last := listing[..|listing| - 1], listing[|listing| - 1];
      RehydratedById(init);
      forall p | p in Rehydrated(listing).byId
        ensures exists i | 0 <= i < |listing| :: RefOf(listing[i]) == p
      {
        if p == RefOf(last) {
          assert RefOf(listing[|listing| - 1]) == p;
        } else {
          assert p in Rehydrated(init).byId;
          var i :| 0 <= i < |init| && RefOf(init[i]) == p;
          assert RefOf(listing[i]) == p;
        }
      }
      forall i | 0 <= i < |listing|
        ensures RefOf(listing[i]) in Rehydrated(listing).byId
                  && Rehydrated(listing).byId[RefOf(listing[i])] == listing[i]
      {
        if i < |init| { assert init[i] == listing[i]; }
      }
    }
  }

  /** The index of the last conflict about `key`, or -1. */
  function LastAbout(listing: seq<Conflict>, key: ConflictKey): (i: int)
    ensures -1 <= i < |listing|
    ensures i >= 0 ==> listing[i].key == key
    ensures forall j | i < j < |listing| :: listing[j].key != key
  {
    if listing == [] then -1
    else if listing[|listing| - 1].key == key then |listing| - 1
    else LastAbout(listing[..|listing| - 1], key)
  }

  /** The last conflict about an attribute decides whether the rebuilt index holds it. */
  lemma {:induction false} RehydratedOpen(listing: seq<Conflict>, key: ConflictKey)
    ensures var i := LastAbout(listing, key);
            && (key in Rehydrated(listing).open <==> i >= 0 && listing[i].status.Open?)
            && (key in Rehydrated(listing).open ==> Rehydrated(listing).open[key] == listing[i].id)
  {
    if listing != [] && listing[|listing| - 1].key != key {
      RehydratedOpen(listing[..|listing| - 1], key);
    }
  }

  lemma RehydratedMatches(cs: ConflictStore, tenant: string, listing: seq<Conflict>)
    requires IndexAgrees(cs) && ListsConflicts(cs, tenant, listing) && OpenComesLast(listing)
    ensures IsTenantPart(cs, tenant, Rehydrated(listing))
  {
    hide Rehydrated;
    RehydratedById(listing);
    forall k
      ensures k in Rehydrated(listing).open <==> k in cs.open && k.entity.tenant == tenant
      ensures k in Rehydrated(listing).open ==> Rehydrated(listing).open[k] == cs.open[k]
    {
      RehydratedOpen(listing, k);
      var m := LastAbout(listing, k);
      if k in cs.open && k.entity.tenant == tenant {
        var c := cs.byId[Ref(tenant, cs.open[k])];
        var i :| 0 <= i < |listing| && listing[i] == c;
        assert i == m;
      }
    }
  }

  /**
   Hydrating a tenant's conflicts into an empty store always rebuilds the conflicts themselves; it rebuilds the open
   index exactly when no conflict about an attribute comes after the open one about it.
   */
  lemma RehydrateIff(cs: ConflictStore, tenant: string, listing: seq<Conflict>)
    requires IndexAgrees(cs) && ListsConflicts(cs, tenant, listing)
    ensures forall p :: p in Rehydrated(listing).byId <==> p in cs.byId && p.tenant == tenant
    ensures forall p | p in Rehydrated(listing).byId :: Rehydrated(listing).byId[p] == cs.byId[p]
    ensures IsTenantPart(cs, tenant, Rehydrated(listing)) <==> OpenComesLast(listing)
  {
    hide Rehydrated;
    RehydratedById(listing);
    if OpenComesLast(listing) {
      RehydratedMatches(cs, tenant, listing);
    }
    if IsTenantPart(cs, tenant, Rehydrated(listing)) {
      forall i, j | 0 <= i < j < |listing| && listing[i].key == listing[j].key
        ensures listing[i].status.Resolved?
      {
        RehydratedOpen(listing, listing[i].key);
      }
    }
  }

  /** Conflicts about one attribute open one after the other, so none was detected after the open one. */
  ghost predicate OpenIsLatest(cs: ConflictStore) {
    forall p, q | p in cs.byId && q in cs.byId && p != q && cs.byId[p].key == cs.byId[q].key
        && cs.byId[q].status.Open? ::
      cs.byId[p].detectedAt <= cs.byId[q].detectedAt
  }

  ghost predicate ReadsLater(tenant: string, obs: Observation, d: Draws, cs: ConflictStore) {
    forall i, p | 0 <= i < |obs.payload| && p in cs.byId
        && cs.byId[p].key == ConflictKey(EntityOf(tenant, obs), obs.payload[i].0) ::
      cs.byId[p].detectedAt <= d.detectedAt(obs.payload[i].0)
  }

  /** The clock reading for an attribute is no earlier than any detection of a conflict about it so far. */
  ghost predicate ClockAdvances(w: World, op: WorldOp) {
    op.Observe? ==> ReadsLater(op.tenant, op.obs, op.d, w.conflicts)
  }

  lemma StepKeepsOpenLatest(h: HashCommit, w: World, op: WorldOp)
    requires StoreSound(w.conflicts) && FreshDraws(w, op) && ClockAdvances(w, op) && OpenIsLatest(w.conflicts)
    ensures OpenIsLatest(Apply(h, w, op).0.conflicts)
  {
    match op
    case Observe(tenant, obs, cause, assurance, d) =>
      hide IndexAgrees, ProperDispute, FoldPayload, Ingest;
      DrawnIdsAreFresh(w.conflicts, tenant, obs, d);
      FoldKeeps(tenant, obs, d, AttributesOf(w.states, EntityOf(tenant, obs)), w.conflicts, |obs.payload|);
      IngestConflicts(h, w, tenant, obs, cause, assurance, d);
      ObservedOpenLatest(h, w, tenant, obs, cause, assurance, d);
    case Settle(tenant, id, r) =>
      hide Decide;
  }

  lemma ObservedOpenLatest(h: HashCommit, w: World, tenant: string, obs: Observation, cause: string,
                           assurance: string, d: Draws)
    requires StoreSound(w.conflicts) && OpenIsLatest(w.conflicts)
    requires ClockAdvances(w, Observe(tenant, obs, cause, assurance, d))
    requires Ref(tenant, obs.id) !in w.observations ==>
               Recorded(tenant, obs, d, AttributesOf(w.states, EntityOf(tenant, obs)), w.conflicts,
                        Ingest(h, w, tenant, obs, cause, assurance, d).world.conflicts, |obs.payload|)
    requires Ref(tenant, obs.id) in w.observations ==>
              Ingest(h, w, tenant, obs, cause, assurance, d).world.conflicts == w.conflicts
    ensures OpenIsLatest(Ingest(h, w, tenant, obs, cause, assurance, d).world.conflicts)
  {
    hide Ingest;
    var cs, cs' := w.conflicts, Ingest(h, w, tenant, obs, cause, assurance, d).world.conflicts;
    if Ref(tenant, obs.id) !in w.observations {
      forall p, q | p in cs'.byId && q in cs'.byId && p != q && cs'.byId[p].key == cs'.byId[q].key
          && cs'.byId[q].status.Open?
        ensures cs'.byId[p].detectedAt <= cs'.byId[q].detectedAt
      {
        LatestPair(tenant, obs, d, AttributesOf(w.states, EntityOf(tenant, obs)), cs, cs', p, q);
      }
    }
  }

  lemma LatestPair(tenant: string, obs: Observation, d: Draws, previous: Attributes, cs: ConflictStore,
                   cs': ConflictStore, p: Ref, q: Ref)
    requires StoreSound(cs) && OpenIsLatest(cs) && Recorded(tenant, obs, d, previous, cs, cs', |obs.payload|)
    requires ReadsLater(tenant, obs, d, cs)
    requires p in cs'.byId && q in cs'.byId && p != q && cs'.byId[p].key == cs'.byId[q].key && cs'.byId[q].status.Open?
    ensures cs'.byId[p].detectedAt <= cs'.byId[q].detectedAt
  {
    hide ProperDispute, Blocked, Disputed;
    assert p in cs.byId ==> Grows(cs.byId[p], cs'.byId[p]);
    assert q in cs.byId ==> Grows(cs.byId[q], cs'.byId[q]);
    if p in cs.byId && q !in cs.byId {
      var j :| 0 <= j < |obs.payload| && NewAt(tenant, obs, d, cs'.byId[q], q, j);
    }
  }

  ghost predicate ForwardClock(h: HashCommit, ops: seq<WorldOp>) {
    forall n | 0 <= n < |ops| :: ClockAdvances(Run(h, ops[..n]).world, ops[n])
  }

  lemma {:induction false} RunKeepsOpenLatest(h: HashCommit, ops: seq<WorldOp>)
    requires Supplied(h, ops) && ForwardClock(h, ops)
    ensures OpenIsLatest(Run(h, ops).world.conflicts)
    decreases |ops|
  {
    hide Apply, StoreSound, FreshDraws, ClockAdvances;
    if |ops| > 0 {
      var init := ops[..|ops| - 1];
      assert ForwardClock(h, init) by {
        forall n | 0 <= n < |init|
          ensures ClockAdvances(Run(h, init[..n]).world, init[n])
        {
          assert init[..n] == ops[..n];
        }
      }
      RunKeepsOpenLatest(h, init);
      RunKeepsStore(h, init);
      StepKeepsOpenLatest(h, Run(h, init).world, ops[|ops| - 1]);
    }
  }

  /** Every open conflict of the tenant was detected after all others about its attribute. */
  ghost predicate OpenDetectedLast(cs: ConflictStore, tenant: string) {
    forall p, q | p in cs.byId && q in cs.byId && p != q && q.tenant == tenant && cs.byId[p].key == cs.byId[q].key
        && cs.byId[q].status.Open? ::
      cs.byId[p].detectedAt < cs.byId[q].detectedAt
  }

  /** Conflicts about one attribute come in increasing detection order. */
  ghost predicate InDetectionOrder(listing: seq<Conflict>) {
    forall i, j | 0 <= i < j < |listing| && listing[i].key == listing[j].key ::
      listing[i].detectedAt < listing[j].detectedAt
  }

  /** Of two conflicts about one attribute the open one comes last. */
  lemma OpenIsDetectedLast(cs: ConflictStore, tenant: string, listing: seq<Conflict>, p: Ref, q: Ref)
    requires IndexAgrees(cs) && ListsConflicts(cs, tenant, listing)
    requires InDetectionOrder(listing) && OpenComesLast(listing)
    requires p in cs.byId && q in cs.byId && p != q && q.tenant == tenant
    requires cs.byId[p].key == cs.byId[q].key && cs.byId[q].status.Open?
    ensures cs.byId[p].detectedAt < cs.byId[q].detectedAt
  {
    assert RefOf(cs.byId[p]) == p && RefOf(cs.byId[q]) == q;
    assert cs.byId[p] in listing && cs.byId[q] in listing;
    hide IndexAgrees, ListsConflicts;
    var i :| 0 <= i < |listing| && listing[i] == cs.byId[p];
    var j :| 0 <= j < |listing| && listing[j] == cs.byId[q];
  }

  lemma DetectedLastComesLast(cs: ConflictStore, tenant: string, listing: seq<Conflict>)
    requires ListsConflicts(cs, tenant, listing) && InDetectionOrder(listing) && OpenDetectedLast(cs, tenant)
    ensures OpenComesLast(listing)
  {
    forall i, j | 0 <= i < j < |listing| && listing[i].key == listing[j].key
      ensures listing[i].status.Resolved?
    {
      assert RefOf(listing[i]) != RefOf(listing[j]);
    }
  }

  lemma OpenLastIffDetectedLast(cs: ConflictStore, tenant: string, listing: seq<Conflict>)
    requires IndexAgrees(cs) && ListsConflicts(cs, tenant, listing) && InDetectionOrder(listing)
    ensures OpenComesLast(listing) <==> OpenDetectedLast(cs, tenant)
  {
    hide IndexAgrees, ListsConflicts, InDetectionOrder, OpenComesLast;
    if OpenDetectedLast(cs, tenant) { DetectedLastComesLast(cs, tenant, listing); }
    if OpenComesLast(listing) {
      forall p, q | p in cs.byId && q in cs.byId && p != q && q.tenant == tenant && cs.byId[p].key == cs.byId[q].key
          && cs.byId[q].status.Open?
        ensures cs.byId[p].detectedAt < cs.byId[q].detectedAt
      {
        OpenIsDetectedLast(cs, tenant, listing, p, q);
      }
    }
  }

  /**
   After any run, hydrating a tenant's conflicts so that those about one attribute come in increasing detection order
   rebuilds both dictionaries if and only if every open conflict was detected after all others about its attribute.
   */
  lemma RehydrateInDetectionOrder(h: HashCommit, ops: seq<WorldOp>, tenant: string, listing: seq<Conflict>)
    requires Supplied(h, ops)
    requires ListsConflicts(Run(h, ops).world.conflicts, tenant, listing) && InDetectionOrder(listing)
    ensures IsTenantPart(Run(h, ops).world.conflicts, tenant, Rehydrated(listing))
        <==> OpenDetectedLast(Run(h, ops).world.conflicts, tenant)
  {
    hide Run, ListsConflicts, InDetectionOrder, OpenDetectedLast, OpenComesLast, IsTenantPart, Rehydrated;
    RunKeepsStore(h, ops);
    var cs := Run(h, ops).world.conflicts;
    OpenLastIffDetectedLast(cs, tenant, listing);
    RehydrateIff(cs, tenant, listing);
  }

  /** That is so after every run whose clock does not go back for an attribute. */
  lemma RehydrateUnderForwardClock(h: HashCommit, ops: seq<WorldOp>, tenant: string, listing: seq<Conflict>)
    requires Supplied(h, ops) && ForwardClock(h, ops)
    requires ListsConflicts(Run(h, ops).world.conflicts, tenant, listing) && InDetectionOrder(listing)
    ensures IsTenantPart(Run(h, ops).world.conflicts, tenant, Rehydrated(listing))
  {
    hide Run, Rehydrated, IsTenantPart;
    var cs := Run(h, ops).world.conflicts;
    RunKeepsStore(h, ops);
    RunKeepsOpenLatest(h, ops);
    forall i, j | 0 <= i < j < |listing| && listing[i].key == listing[j].key
      ensures listing[i].status.Resolved?
    {
      assert RefOf(listing[i]) != RefOf(listing[j]);
    }
    RehydrateIff(cs, tenant, listing);
  }
}
