/**
 Hash-linked chains and their validators: reality_git/validation.py.

 A record is its hashed content, its hash and, for commits, the assurance level that the hash leaves
 out. `HashOf` is `hash_json` on the document built from the content.
 */
module Chains {
  import opened Basics
  import opened Links
  import opened JsonValues
  import opened NormalForm

  datatype CommitContent = CommitContent(
    commitId: string, tenantId: string, parentCommitId: Option<string>, entityType: string, entityId: string,
    cause: string, observationIds: seq<string>, before: Json, after: Json, semanticDiff: Json,
    previousHash: Option<string>)

  datatype CommitRecord = CommitRecord(content: CommitContent, assuranceLevel: string, hash: string)

  datatype EventContent = EventContent(
    eventId: string, tenantId: string, actionId: string, eventType: string, actorRole: string,
    payload: Json, previousHash: Option<string>)

  datatype EventRecord = EventRecord(content: EventContent, hash: string)

  type HashOf = Json -> string

  function OptionalText(o: Option<string>): Json {
    match o
    case None => Null
    case Some(s) => Str(s)
  }

  function TextList(ss: seq<string>): Json {
    List(seq(|ss|, i requires 0 <= i < |ss| => Str(ss[i])))
  }

  function CommitDocument(c: CommitContent): Json {
    Dict(map[
           "commit_id" := Str(c.commitId),
           "tenant_id" := Str(c.tenantId),
           "parent_commit_id" := OptionalText(c.parentCommitId),
           "entity_type" := Str(c.entityType),
           "entity_id" := Str(c.entityId),
           "cause" := Str(c.cause),
           "observation_ids" := TextList(c.observationIds),
           "before" := c.before,
           "after" := c.after,
           "semantic_diff" := c.semanticDiff,
           "previous_hash" := OptionalText(c.previousHash)])
  }

  function EventDocument(e: EventContent): Json {
    Dict(map[
           "event_id" := Str(e.eventId),
           "tenant_id" := Str(e.tenantId),
           "action_id" := Str(e.actionId),
           "event_type" := Str(e.eventType),
           "actor_role" := Str(e.actorRole),
           "payload" := e.payload,
           "previous_event_hash" := OptionalText(e.previousHash)])
  }

  /** The documents lose nothing of the content. */
  lemma CommitDocumentIsInjective(a: CommitContent, b: CommitContent)
    requires CommitDocument(a) == CommitDocument(b)
    ensures a == b
  {
    hide TextList;
    var x, y := CommitDocument(a).fields, CommitDocument(b).fields;
    assert x["commit_id"] == y["commit_id"] && x["tenant_id"] == y["tenant_id"];
    assert x["parent_commit_id"] == y["parent_commit_id"] && x["entity_type"] == y["entity_type"];
    assert x["entity_id"] == y["entity_id"] && x["cause"] == y["cause"];
    CommitDocumentTail(a, b);
    TextListIsInjective(a.observationIds, b.observationIds);
  }

  lemma CommitDocumentTail(a: CommitContent, b: CommitContent)
    requires CommitDocument(a) == CommitDocument(b)
    ensures a.before == b.before && a.after == b.after && a.semanticDiff == b.semanticDiff
    ensures a.previousHash == b.previousHash && TextList(a.observationIds) == TextList(b.observationIds)
  {
    hide TextList;
    var x, y := CommitDocument(a).fields, CommitDocument(b).fields;
    assert x["before"] == y["before"] && x["after"] == y["after"];
    assert x["semantic_diff"] == y["semantic_diff"] && x["previous_hash"] == y["previous_hash"];
    assert x["observation_ids"] == y["observation_ids"];
  }

  lemma TextListIsInjective(a: seq<string>, b: seq<string>)
    requires TextList(a) == TextList(b)
    ensures a == b
  {
    assert |TextList(a).items| == |a| && |TextList(b).items| == |b|;
    forall i | 0 <= i < |a|
      ensures a[i] == b[i]
    {
      assert TextList(a).items[i] == Str(a[i]) && TextList(b).items[i] == Str(b[i]);
    }
  }

  lemma EventDocumentIsInjective(a: EventContent, b: EventContent)
    requires EventDocument(a) == EventDocument(b)
    ensures a == b
  {
    var x, y := EventDocument(a).fields, EventDocument(b).fields;
    assert x["event_id"] == y["event_id"] && x["tenant_id"] == y["tenant_id"];
    assert x["action_id"] == y["action_id"] && x["event_type"] == y["event_type"];
    assert x["actor_role"] == y["actor_role"] && x["payload"] == y["payload"];
    assert x["previous_event_hash"] == y["previous_event_hash"];
  }

  // ---------------------------------------------------------------- valid chains

  function PreviousOf<C>(links: seq<Link<C>>, i: nat): Option<string>
    requires i < |links|
  {
    if i == 0 then None else Some(links[i - 1].hash)
  }

  ghost predicate LinkFits<C(!new)>(hash: C -> string, links: seq<Link<C>>, i: nat)
    requires i < |links|
  {
    Fits(hash, links[i], PreviousOf(links, i))
  }

  ghost predicate ValidUpTo<C(!new)>(hash: C -> string, links: seq<Link<C>>, n: nat)
    requires n <= |links|
  {
    forall i: nat | i < n :: LinkFits(hash, links, i)
  }

  ghost predicate ValidLinks<C(!new)>(hash: C -> string, links: seq<Link<C>>) {
    ValidUpTo(hash, links, |links|)
  }

  function CommitLinks(commits: seq<CommitRecord>): seq<Link<CommitContent>> {
    seq(|commits|, i requires 0 <= i < |commits| =>
      Link(commits[i].content.previousHash, commits[i].content, commits[i].hash))
  }

  function EventLinks(events: seq<EventRecord>): seq<Link<EventContent>> {
    seq(|events|, i requires 0 <= i < |events| =>
      Link(events[i].content.previousHash, events[i].content, events[i].hash))
  }

  ghost predicate ValidCommitChain(hashOf: HashOf, commits: seq<CommitRecord>) {
    ValidLinks(c => hashOf(CommitDocument(c)), CommitLinks(commits))
  }

  ghost predicate ValidEventChain(hashOf: HashOf, events: seq<EventRecord>) {
    ValidLinks(e => hashOf(EventDocument(e)), EventLinks(events))
  }

  datatype Fault = LinkMismatch(id: string) | HashMismatch(id: string)

  /** The ValueError for the record at `k`: the link is looked at before the hash. */
  ghost predicate FaultAt<C(!new)>(hash: C -> string, links: seq<Link<C>>, k: nat, broken: bool) {
    && k < |links|
    && ValidUpTo(hash, links, k)
    && (if broken then links[k].previous != PreviousOf(links, k)
        else links[k].previous == PreviousOf(links, k) && links[k].hash != hash(links[k].content))
  }

  method ValidateCommitChain(hashOf: HashOf, commits: seq<CommitRecord>) returns (fault: Option<Fault>)
    ensures fault.None? <==> ValidCommitChain(hashOf, commits)
    ensures fault.Some? ==> exists k: nat :: k < |commits| &&
                              FaultAt(c => hashOf(CommitDocument(c)), CommitLinks(commits), k,
                                      fault.value.LinkMismatch?) &&
                              fault.value.id == commits[k].content.commitId
  {
    hide CommitDocument;
    var previous: Option<string> := None;
    ghost var links := CommitLinks(commits);
    ghost var hash := c => hashOf(CommitDocument(c));
    for i := 0 to |commits|
      invariant previous == if i == 0 then None else Some(commits[i - 1].hash)
      invariant ValidUpTo(hash, links, i)
    {
      if commits[i].content.previousHash != previous {
        assert !LinkFits(hash, links, i) && FaultAt(hash, links, i, true);
        return Some(LinkMismatch(commits[i].content.commitId));
      }
      var expected := hashOf(CommitDocument(commits[i].content));
      if commits[i].hash != expected {
        assert !LinkFits(hash, links, i) && FaultAt(hash, links, i, false);
        return Some(HashMismatch(commits[i].content.commitId));
      }
      previous := Some(commits[i].hash);
    }
    return None;
  }

  method ValidateEventChain(hashOf: HashOf, events: seq<EventRecord>) returns (fault: Option<Fault>)
    ensures fault.None? <==> ValidEventChain(hashOf, events)
    ensures fault.Some? ==> exists k: nat :: k < |events| &&
                              FaultAt(e => hashOf(EventDocument(e)), EventLinks(events), k,
                                      fault.value.LinkMismatch?) &&
                              fault.value.id == events[k].content.eventId
  {
    hide EventDocument;
    var previous: Option<string> := None;
    ghost var links := EventLinks(events);
    ghost var hash := e => hashOf(EventDocument(e));
    for i := 0 to |events|
      invariant previous == if i == 0 then None else Some(events[i - 1].hash)
      invariant ValidUpTo(hash, links, i)
    {
      if events[i].content.previousHash != previous {
        assert !LinkFits(hash, links, i) && FaultAt(hash, links, i, true);
        return Some(LinkMismatch(events[i].content.eventId));
      }
      var expected := hashOf(EventDocument(events[i].content));
      if events[i].hash != expected {
        assert !LinkFits(hash, links, i) && FaultAt(hash, links, i, false);
        return Some(HashMismatch(events[i].content.eventId));
      }
      previous := Some(events[i].hash);
    }
    return None;
  }

  // ---------------------------------------------------------------- tamper evidence

  /** `previous` is part of the content that is hashed. */
  ghost predicate LinkIsHashed<C(!new)>(a: seq<Link<C>>, b: seq<Link<C>>) {
    forall i, j | 0 <= i < |a| && 0 <= j < |b| && a[i].content == b[j].content :: a[i].previous == b[j].previous
  }

  lemma ValidPrefix<C(!new)>(hash: C -> string, links: seq<Link<C>>, n: nat)
    requires ValidLinks(hash, links) && n <= |links|
    ensures ValidLinks(hash, links[..n])
  {
    forall i: nat | i < n
      ensures LinkFits(hash, links[..n], i)
    {
      assert LinkFits(hash, links, i);
    }
  }

  /** The last hash of a valid chain fixes the whole chain. */
  lemma {:induction false} LastHashFixesChain<C(!new)>(hash: C -> string, a: seq<Link<C>>, b: seq<Link<C>>)
    requires Injective(hash) && LinkIsHashed(a, b)
    requires ValidLinks(hash, a) && ValidLinks(hash, b)
    requires a != [] && b != [] && a[|a| - 1].hash == b[|b| - 1].hash
    ensures a == b
    decreases |a|
  {
    var m, n := |a| - 1, |b| - 1;
    assert LinkFits(hash, a, m) && LinkFits(hash, b, n);
    assert a[m].content == b[n].content;
    assert a[m].previous == b[n].previous;
    assert a == a[..m] + [a[m]] && b == b[..n] + [b[n]];
    if m > 0 && n > 0 {
      var a', b' := a[..m], b[..n];
      ValidPrefix(hash, a, m);
      ValidPrefix(hash, b, n);
      assert LinkIsHashed(a', b') by {
        assert forall i | 0 <= i < m :: a'[i] == a[i];
        assert forall j | 0 <= j < n :: b'[j] == b[j];
      }
      LastHashFixesChain(hash, a', b');
    }
  }

  lemma HashesAreDistinct<C(!new)>(hash: C -> string, a: seq<Link<C>>, i: nat, j: nat)
    requires Injective(hash) && LinkIsHashed(a, a) && ValidLinks(hash, a)
    requires i < j < |a|
    ensures a[i].hash != a[j].hash
  {
    assert |a[..i + 1]| == i + 1 && |a[..j + 1]| == j + 1;
    if a[i].hash == a[j].hash {
      ValidPrefix(hash, a, i + 1);
      ValidPrefix(hash, a, j + 1);
      LastHashFixesChain(hash, a[..i + 1], a[..j + 1]);
    }
  }

  /**
   Any valid chain made of links of a valid chain - a subsequence, a reordering, with repeats or not - is a prefix of
   it.
   */
  lemma ValidSelectionIsPrefix<C(!new)>(hash: C -> string, whole: seq<Link<C>>, part: seq<Link<C>>)
    requires Injective(hash) && LinkIsHashed(whole, whole)
    requires ValidLinks(hash, whole) && ValidLinks(hash, part)
    requires forall l | l in part :: l in whole
    ensures IsPrefix(part, whole)
  {
    if part != [] {
      var last := part[|part| - 1];
      assert last in whole;
      var j :| 0 <= j < |whole| && whole[j] == last;
      ValidPrefix(hash, whole, j + 1);
      assert LinkIsHashed(part, whole[..j + 1]) by {
        assert forall i | 0 <= i < |part| :: part[i] in whole;
      }
      LastHashFixesChain(hash, part, whole[..j + 1]);
    }
  }

  lemma HashedCommitDocumentsInjective(hashOf: HashOf)
    requires Injective(hashOf)
    ensures Injective((c: CommitContent) => hashOf(CommitDocument(c)))
  {
    var hash := (c: CommitContent) => hashOf(CommitDocument(c));
    forall a, b | hash(a) == hash(b)
      ensures a == b
    {
      CommitDocumentIsInjective(a, b);
    }
  }

  lemma HashedEventDocumentsInjective(hashOf: HashOf)
    requires Injective(hashOf)
    ensures Injective((e: EventContent) => hashOf(EventDocument(e)))
  {
    var hash := (e: EventContent) => hashOf(EventDocument(e));
    forall a, b | hash(a) == hash(b)
      ensures a == b
    {
      EventDocumentIsInjective(a, b);
    }
  }

  /** Two validating event chains with the same last hash are the same chain, field by field. */
  lemma EventChainTamperEvident(hashOf: HashOf, a: seq<EventRecord>, b: seq<EventRecord>)
    requires Injective(hashOf) && ValidEventChain(hashOf, a) && ValidEventChain(hashOf, b)
    requires a != [] && b != [] && a[|a| - 1].hash == b[|b| - 1].hash
    ensures a == b
  {
    hide EventDocument;
    HashedEventDocumentsInjective(hashOf);
    LastHashFixesChain(e => hashOf(EventDocument(e)), EventLinks(a), EventLinks(b));
    assert |EventLinks(a)| == |a| && |EventLinks(b)| == |b|;
    forall i | 0 <= i < |a|
      ensures a[i] == b[i]
    {
      assert EventLinks(a)[i] == EventLinks(b)[i];
    }
  }

  ghost predicate SameUpToAssurance(a: seq<CommitRecord>, b: seq<CommitRecord>) {
    |a| == |b| && forall i | 0 <= i < |a| :: a[i].content == b[i].content && a[i].hash == b[i].hash
  }

  /**
   For commits the chain fixes everything but the assurance level, which the hash does not cover: two
   validating chains share their last hash exactly when they agree up to assurance levels.
   */
  lemma CommitChainTamperEvident(hashOf: HashOf, a: seq<CommitRecord>, b: seq<CommitRecord>)
    requires Injective(hashOf) && ValidCommitChain(hashOf, a) && a != [] && b != []
    ensures ValidCommitChain(hashOf, b) && a[|a| - 1].hash == b[|b| - 1].hash <==> SameUpToAssurance(a, b)
  {
    assert |CommitLinks(a)| == |a| && |CommitLinks(b)| == |b|;
    hide CommitDocument;
    if SameUpToAssurance(a, b) {
      assert CommitLinks(a) == CommitLinks(b);
    }
    if ValidCommitChain(hashOf, b) && a[|a| - 1].hash == b[|b| - 1].hash {
      HashedCommitDocumentsInjective(hashOf);
      LastHashFixesChain(c => hashOf(CommitDocument(c)), CommitLinks(a), CommitLinks(b));
      forall i | 0 <= i < |a|
        ensures a[i].content == b[i].content && a[i].hash == b[i].hash
      {
        assert CommitLinks(a)[i] == CommitLinks(b)[i];
      }
    }
  }

  lemma CommitHashesAreDistinct(hashOf: HashOf, a: seq<CommitRecord>, i: nat, j: nat)
    requires Injective(hashOf) && ValidCommitChain(hashOf, a) && i < j < |a|
    ensures a[i].hash != a[j].hash
  {
    hide CommitDocument;
    HashedCommitDocumentsInjective(hashOf);
    HashesAreDistinct(c => hashOf(CommitDocument(c)), CommitLinks(a), i, j);
  }

  lemma EventHashesAreDistinct(hashOf: HashOf, a: seq<EventRecord>, i: nat, j: nat)
    requires Injective(hashOf) && ValidEventChain(hashOf, a) && i < j < |a|
    ensures a[i].hash != a[j].hash
  {
    hide EventDocument;
    HashedEventDocumentsInjective(hashOf);
    HashesAreDistinct(e => hashOf(EventDocument(e)), EventLinks(a), i, j);
  }

  lemma ValidEventSelectionIsPrefix(hashOf: HashOf, whole: seq<EventRecord>, part: seq<EventRecord>)
    requires Injective(hashOf) && ValidEventChain(hashOf, whole) && ValidEventChain(hashOf, part)
    requires forall e | e in part :: e in whole
    ensures IsPrefix(part, whole)
  {
    hide EventDocument;
    HashedEventDocumentsInjective(hashOf);
    forall l | l in EventLinks(part)
      ensures l in EventLinks(whole)
    {
      var i :| 0 <= i < |part| && l == EventLinks(part)[i];
      assert part[i] in whole;
      var j :| 0 <= j < |whole| && whole[j] == part[i];
      assert EventLinks(whole)[j] == l;
    }
    ValidSelectionIsPrefix(e => hashOf(EventDocument(e)), EventLinks(whole), EventLinks(part));
    assert |EventLinks(part)| == |part| && |EventLinks(whole)| == |whole|;
    forall i | 0 <= i < |part|
      ensures part[i] == whole[i]
    {
      assert EventLinks(part)[i] == EventLinks(whole)[..|part|][i] == EventLinks(whole)[i];
    }
  }

  /** For commits a validating selection is a prefix too: the records come from the chain, so the levels match. */
  lemma ValidCommitSelectionIsPrefix(hashOf: HashOf, whole: seq<CommitRecord>, part: seq<CommitRecord>)
    requires Injective(hashOf) && ValidCommitChain(hashOf, whole) && ValidCommitChain(hashOf, part)
    requires forall c | c in part :: c in whole
    ensures IsPrefix(part, whole)
  {
    hide CommitDocument;
    HashedCommitDocumentsInjective(hashOf);
    forall l | l in CommitLinks(part)
      ensures l in CommitLinks(whole)
    {
      var i :| 0 <= i < |part| && l == CommitLinks(part)[i];
      assert part[i] in whole;
      var j :| 0 <= j < |whole| && whole[j] == part[i];
      assert CommitLinks(whole)[j] == l;
    }
    ValidSelectionIsPrefix(c => hashOf(CommitDocument(c)), CommitLinks(whole), CommitLinks(part));
    assert |CommitLinks(part)| == |part| && |CommitLinks(whole)| == |whole|;
    forall i | 0 <= i < |part|
      ensures part[i] == whole[i]
    {
      assert CommitLinks(part)[i] == CommitLinks(whole)[..|part|][i] == CommitLinks(whole)[i];
      assert part[i] in whole;
      var j :| 0 <= j < |whole| && whole[j] == part[i];
      if j < i { CommitHashesAreDistinct(hashOf, whole, j, i); }
      if i < j { CommitHashesAreDistinct(hashOf, whole, i, j); }
    }
  }
}
