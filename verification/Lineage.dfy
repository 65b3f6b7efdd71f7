/** Walking the parent links of one tenant's commits: `list_commits` and `_is_ancestor` of world_state/service.py. */
module Lineage {
  import opened Basics
  import opened WorldModel

  type Commits = map<Ref, Commit>

  function StoredIds(commits: Commits): set<string> {
    set p | p in commits :: p.id
  }

  /** The records from `current` upwards, newest first, up to a missing record, a missing parent or a repeated id. */
  function Upwards(commits: Commits, tenant: string, current: Option<string>, seen: set<string>): seq<Commit>
    decreases StoredIds(commits) - seen
  {
    if current.None? || current.value in seen || Ref(tenant, current.value) !in commits then []
    else
      var c := commits[Ref(tenant, current.value)];
      assert current.value in StoredIds(commits);
      [c] + Upwards(commits, tenant, c.body.parent, seen + {current.value})
  }

  function Reversed(s: seq<Commit>): (r: seq<Commit>)
    ensures |r| == |s|
    ensures forall i | 0 <= i < |s| :: r[i] == s[|s| - 1 - i]
  {
    if s == [] then [] else Reversed(s[1..]) + [s[0]]
  }

  /** `list_commits` without a cursor. */
  function Listed(w: World, tenant: string): seq<Commit> {
    if tenant in w.latest then Reversed(Upwards(w.commits, tenant, Some(w.latest[tenant]), {})) else []
  }

  function After(commits: seq<Commit>, id: string): Option<seq<Commit>> {
    if commits == [] then None
    else if commits[0].body.commitId == id then Some(commits[1..])
    else After(commits[1..], id)
  }

  /**
   `list_commits` with a cursor: no result is the KeyError of an unknown commit. The cursor is not looked at while the
   tenant has no commit.
   */
  function ListedSince(w: World, tenant: string, since: string): Option<seq<Commit>> {
    if tenant !in w.latest then Some([]) else After(Listed(w, tenant), since)
  }

  // ---------------------------------------------------------------- ancestors

  /** Every stored commit of `inside` has its parent in `inside`, so no walk leaves it. */
  lemma {:induction false} StaysInside(commits: Commits, tenant: string, id: string, inside: set<string>, n: nat)
    requires id in inside
    requires forall x | x in inside && Ref(tenant, x) in commits ::
               var p := commits[Ref(tenant, x)].body.parent; p.None? || p.value in inside
    ensures var u := Up(commits, tenant, id, n); u.None? || u.value in inside
  {
    if n > 0 { StaysInside(commits, tenant, id, inside, n - 1); }
  }

  // ---------------------------------------------------------------- stored chains

  function IdBefore(chain: seq<Commit>, i: nat): Option<string>
    requires i <= |chain|
  {
    if i == 0 then None else Some(chain[i - 1].body.commitId)
  }

  /** The `i`-th record is stored under its id, with the one before it as parent. */
  ghost predicate StoredAt(commits: Commits, tenant: string, chain: seq<Commit>, i: nat)
    requires i < |chain|
  {
    && Ref(tenant, chain[i].body.commitId) in commits
    && commits[Ref(tenant, chain[i].body.commitId)] == chain[i]
    && chain[i].body.parent == IdBefore(chain, i)
  }

  /** The cursor leads back along `chain`, oldest first; records besides it may be stored too. */
  ghost predicate LeadsBack(w: World, tenant: string, chain: seq<Commit>) {
    && (forall i: nat | i < |chain| :: StoredAt(w.commits, tenant, chain, i))
    && (forall i, j | 0 <= i < j < |chain| :: chain[i].body.commitId != chain[j].body.commitId)
    && (if chain == [] then tenant !in w.latest
        else tenant in w.latest && w.latest[tenant] == chain[|chain| - 1].body.commitId)
  }

  /** `chain` is the tenant's whole commit graph, oldest first, and the cursor points at its end. */
  ghost predicate Represents(w: World, tenant: string, chain: seq<Commit>) {
    && LeadsBack(w, tenant, chain)
    && forall p | p in w.commits && p.tenant == tenant :: exists i | 0 <= i < |chain| :: chain[i].body.commitId == p.id
  }

  lemma UpwardsUnfolds(commits: Commits, tenant: string, current: Option<string>, seen: set<string>)
    ensures current.None? ==> Upwards(commits, tenant, current, seen) == []
    ensures current.Some? && current.value !in seen && Ref(tenant, current.value) in commits ==>
              var c := commits[Ref(tenant, current.value)];
              Upwards(commits, tenant, current, seen) == [c] + Upwards(commits, tenant, c.body.parent,
                  seen + {current.value})
  {
  }

  /** The walk from the `n`-th record of a linked run goes down to the first. */
  lemma {:induction false} UpwardsFollowsChain(commits: Commits, tenant: string, chain: seq<Commit>, n: nat,
                                               seen: set<string>)
    requires n <= |chain|
    requires forall i: nat | i < n :: StoredAt(commits, tenant, chain, i) && chain[i].body.commitId !in seen
    requires forall i, j | 0 <= i < j < n :: chain[i].body.commitId != chain[j].body.commitId
    ensures Upwards(commits, tenant, IdBefore(chain, n), seen) == Reversed(chain[..n])
    decreases n
  {
    UpwardsUnfolds(commits, tenant, IdBefore(chain, n), seen);
    hide Reversed, Upwards;
    if n > 0 {
      var id := chain[n - 1].body.commitId;
      assert StoredAt(commits, tenant, chain, n - 1);
      UpwardsFollowsChain(commits, tenant, chain, n - 1, seen + {id});
      ReversedTake(chain, n);
    }
  }

  lemma ReversedTake(chain: seq<Commit>, n: nat)
    requires 0 < n <= |chain|
    ensures Reversed(chain[..n]) == [chain[n - 1]] + Reversed(chain[..n - 1])
  {
    hide Reversed;
  }

  lemma ReversedTwice(chain: seq<Commit>)
    ensures Reversed(Reversed(chain)) == chain
  {
    hide Reversed;
    var r := Reversed(Reversed(chain));
    assert forall i | 0 <= i < |chain| :: r[i] == chain[i];
  }

  /** `list_commits` returns the stored chain in creation order. */
  lemma ListedIsChain(w: World, tenant: string, chain: seq<Commit>)
    requires LeadsBack(w, tenant, chain)
    ensures Listed(w, tenant) == chain
  {
    hide Reversed, Upwards, StoredAt;
    if chain != [] {
      UpwardsFollowsChain(w.commits, tenant, chain, |chain|, {});
      assert chain[..|chain|] == chain;
      ReversedTwice(chain);
    }
  }

  /** A cursor at position `i` of a chain without repeated ids yields what follows it. */
  lemma {:induction false} AfterCursor(chain: seq<Commit>, i: nat)
    requires i < |chain|
    requires forall p, q | 0 <= p < q < |chain| :: chain[p].body.commitId != chain[q].body.commitId
    ensures After(chain, chain[i].body.commitId) == Some(chain[i + 1..])
  {
    if i > 0 {
      assert chain[0].body.commitId != chain[i].body.commitId;
      AfterCursor(chain[1..], i - 1);
      assert chain[1..][i - 1] == chain[i];
      assert chain[1..][i..] == chain[i + 1..];
    }
  }

  lemma {:induction false} AfterUnknown(chain: seq<Commit>, id: string)
    ensures After(chain, id).None? <==> forall i | 0 <= i < |chain| :: chain[i].body.commitId != id
  {
    if chain != [] {
      AfterUnknown(chain[1..], id);
      if chain[0].body.commitId != id && After(chain[1..], id).Some? {
        var i :| 0 <= i < |chain[1..]| && chain[1..][i].body.commitId == id;
        assert chain[i + 1].body.commitId == id;
      }
    }
  }
}
