/**
 The bounded cache of authorized query results: every operation against a pure
 step, and what holds over every sequence of steps.
 */
module QueryCaching {
  import opened Wrappers

  type ResourceID = nat
  type CacheKey = nat

  const MAX_CAPACITY := 10_000

  // Query results, as far as they name resources; zero is the empty id.

  datatype Support = Support(resource: ResourceID, evidence: seq<ResourceID>)

  datatype EvidenceItem = EvidenceItem(resource: ResourceID, citation: ResourceID, supports: seq<Support>)

  datatype Decision = Decision(resource: ResourceID, authorizationResource: ResourceID)

  datatype QueryResult = QueryResult(
    items: seq<EvidenceItem>,
    decisions: seq<Decision>,
    citations: seq<ResourceID>,
    evidence: seq<ResourceID>,
    trace: seq<ResourceID>,
    content: nat)

  predicate SupportMentions(s: Support, id: ResourceID) {
    s.resource == id || id in s.evidence
  }

  predicate ItemMentions(item: EvidenceItem, id: ResourceID) {
    item.resource == id || item.citation == id || exists s | s in item.supports :: SupportMentions(s, id)
  }

  predicate DecisionMentions(d: Decision, id: ResourceID) {
    d.resource == id || d.authorizationResource == id
  }

  /** The result names the resource in its evidence, provenance, decisions, citations or trace. */
  predicate Mentions(result: QueryResult, id: ResourceID) {
    || (exists item | item in result.items :: ItemMentions(item, id))
    || (exists d | d in result.decisions :: DecisionMentions(d, id))
    || id in result.citations
    || id in result.evidence
    || id in result.trace
  }

  lemma ItemsExtend(items: seq<EvidenceItem>, i: nat, id: ResourceID)
    requires i < |items|
    ensures (exists item | item in items[..i + 1] :: ItemMentions(item, id))
       <==> (exists item | item in items[..i] :: ItemMentions(item, id)) || ItemMentions(items[i], id)
  {
    assert items[..i + 1] == items[..i] + [items[i]];
    assert items[i] in items[..i + 1];
  }

  lemma SupportsExtend(supports: seq<Support>, i: nat, id: ResourceID)
    requires i < |supports|
    ensures (exists s | s in supports[..i + 1] :: SupportMentions(s, id))
       <==> (exists s | s in supports[..i] :: SupportMentions(s, id)) || SupportMentions(supports[i], id)
  {
    assert supports[..i + 1] == supports[..i] + [supports[i]];
    assert supports[i] in supports[..i + 1];
  }

  lemma DecisionsExtend(decisions: seq<Decision>, i: nat, id: ResourceID)
    requires i < |decisions|
    ensures (exists d | d in decisions[..i + 1] :: DecisionMentions(d, id))
       <==> (exists d | d in decisions[..i] :: DecisionMentions(d, id)) || DecisionMentions(decisions[i], id)
  {
    assert decisions[..i + 1] == decisions[..i] + [decisions[i]];
    assert decisions[i] in decisions[..i + 1];
  }

  /** Exactly the resources a result mentions. */
  ghost predicate IsMentioned(ids: set<ResourceID>, result: QueryResult) {
    forall id :: id in ids <==> id != 0 && Mentions(result, id)
  }

  method AddAll(ids: set<ResourceID>, more: seq<ResourceID>) returns (all: set<ResourceID>)
    ensures forall id :: id in all <==> id in ids || (id != 0 && id in more)
  {
    all := ids;
    for i := 0 to |more|
      invariant forall id :: id in all <==> id in ids || (id != 0 && id in more[..i])
    {
      assert more[..i + 1] == more[..i] + [more[i]];
      if more[i] != 0 {
        all := all + {more[i]};
      }
    }
    assert more[..|more|] == more;
  }

  method ItemResourceIDs(items: seq<EvidenceItem>) returns (ids: set<ResourceID>)
    ensures forall id :: id in ids <==> id != 0 && exists item | item in items :: ItemMentions(item, id)
  {
    ids := {};
    for i := 0 to |items|
      invariant forall id :: id in ids <==> id != 0 && exists item | item in items[..i] :: ItemMentions(item, id)
    {
      var named := OneItemResourceIDs(items[i]);
      ids := ids + named;
      forall id ensures id in ids <==> id != 0 && exists item | item in items[..i + 1] :: ItemMentions(item, id) {
        ItemsExtend(items, i, id);
      }
    }
    assert items[..|items|] == items;
  }

  method OneItemResourceIDs(item: EvidenceItem) returns (ids: set<ResourceID>)
    ensures forall id :: id in ids <==> id != 0 && ItemMentions(item, id)
  {
    ids := AddAll({}, [item.resource, item.citation]);
    ghost var named := ids;
    for j := 0 to |item.supports|
      invariant forall id :: id in ids
                  <==> id in named || (id != 0 && exists s | s in item.supports[..j] :: SupportMentions(s, id))
    {
      var more := AddAll(ids, [item.supports[j].resource] + item.supports[j].evidence);
      forall id
        ensures id in more
           <==> id in named || (id != 0 && exists s | s in item.supports[..j + 1] :: SupportMentions(s, id))
      {
        SupportsExtend(item.supports, j, id);
      }
      ids := more;
    }
    assert item.supports[..|item.supports|] == item.supports;
  }

  method DecisionResourceIDs(decisions: seq<Decision>) returns (ids: set<ResourceID>)
    ensures forall id :: id in ids <==> id != 0 && exists d | d in decisions :: DecisionMentions(d, id)
  {
    ids := {};
    for i := 0 to |decisions|
      invariant forall id :: id in ids <==> id != 0 && exists d | d in decisions[..i] :: DecisionMentions(d, id)
    {
      var more := AddAll(ids, [decisions[i].resource, decisions[i].authorizationResource]);
      forall id ensures id in more <==> id != 0 && exists d | d in decisions[..i + 1] :: DecisionMentions(d, id) {
        DecisionsExtend(decisions, i, id);
      }
      ids := more;
    }
    assert decisions[..|decisions|] == decisions;
  }

  method QueryResultResourceIDs(result: QueryResult) returns (ids: set<ResourceID>)
    ensures IsMentioned(ids, result)
  {
    ids := ItemResourceIDs(result.items);
    var decided := DecisionResourceIDs(result.decisions);
    ids := ids + decided;
    ids := AddAll(ids, result.citations);
    ids := AddAll(ids, result.evidence);
    ids := AddAll(ids, result.trace);
  }

  // The cache as a value.

  datatype Entry = Entry(revision: nat, result: QueryResult, resources: set<ResourceID>)

  datatype Cache = Cache(
    capacity: nat,
    nextRevision: nat,
    entries: map<CacheKey, Entry>,
    invalidated: set<ResourceID>,
    disabled: bool)

  datatype Operation =
    | Put(key: CacheKey, result: QueryResult, resources: set<ResourceID>)
    | DeleteIfRevision(key: CacheKey, revision: nat)
    | Invalidate(resource: ResourceID)

  predicate IsOldest(entries: map<CacheKey, Entry>, key: CacheKey) {
    key in entries && forall other | other in entries :: entries[key].revision <= entries[other].revision
  }

  ghost predicate Evicts(before: map<CacheKey, Entry>, after: map<CacheKey, Entry>) {
    exists key :: IsOldest(before, key) && after == before - {key}
  }

  /** A new key in a full cache costs the oldest entry. */
  ghost predicate MakesRoom(c: Cache, key: CacheKey, kept: map<CacheKey, Entry>) {
    if key !in c.entries && |c.entries| >= c.capacity then Evicts(c.entries, kept) else kept == c.entries
  }

  function Inserted(c: Cache, kept: map<CacheKey, Entry>, key: CacheKey, result: QueryResult, resources: set<ResourceID>)
    : Cache
  {
    c.(nextRevision := c.nextRevision + 1, entries := kept[key := Entry(c.nextRevision + 1, result, resources)])
  }

  predicate Refuses(c: Cache, resources: set<ResourceID>) {
    c.disabled || !(resources !! c.invalidated)
  }

  /** One step of the cache; which oldest entry goes is the only choice. */
  ghost predicate Next(c: Cache, op: Operation, d: Cache) {
    match op
    case Put(key, result, resources) =>
      if Refuses(c, resources) then d == c
      else exists kept :: MakesRoom(c, key, kept) && d == Inserted(c, kept, key, result, resources)
    case DeleteIfRevision(key, revision) =>
      d == if !c.disabled && key in c.entries && c.entries[key].revision == revision
           then c.(entries := c.entries - {key}) else c
    case Invalidate(resource) =>
      if c.disabled then d == c
      else if resource !in c.invalidated && |c.invalidated| >= MAX_CAPACITY then
        d == c.(entries := map[], invalidated := {}, disabled := true)
      else
        && d == c.(entries := d.entries, invalidated := c.invalidated + {resource})
        && Purges(c.entries, d.entries, resource)
  }

  /** Exactly the entries that name the resource are gone. */
  ghost predicate Purges(before: map<CacheKey, Entry>, after: map<CacheKey, Entry>, resource: ResourceID) {
    && (forall key :: key in after <==> key in before && resource !in before[key].resources)
    && (forall key | key in after :: after[key] == before[key])
  }

  /** What an invalidation reports: content-free operational numbers. */
  datatype Invalidation = Invalidation(observedAt: nat, latency: nat, removedEntries: nat)

  class QueryCache {
    const capacity: nat
    var nextRevision: nat
    var entries: map<CacheKey, Entry>
    var invalidated: set<ResourceID>
    var disabled: bool

    constructor (capacity: nat)
      requires 1 <= capacity <= MAX_CAPACITY
      ensures State() == Cache(capacity, 0, map[], {}, false)
    {
      this.capacity := capacity;
      nextRevision, entries, invalidated, disabled := 0, map[], {}, false;
    }

    /** Rejects exactly the capacities out of bounds. */
    static method Create(capacity: int) returns (result: Result<QueryCache, ()>)
      ensures result.Ok? <==> 1 <= capacity <= MAX_CAPACITY
      ensures result.Ok? ==> fresh(result.value) && result.value.State() == Cache(capacity, 0, map[], {}, false)
    {
      if capacity < 1 || capacity > MAX_CAPACITY {
        return Err(());
      }
      var cache := new QueryCache(capacity);
      return Ok(cache);
    }

    function State(): Cache
      reads this
    {
      Cache(capacity, nextRevision, entries, invalidated, disabled)
    }

    method Get(key: CacheKey) returns (snapshot: Option<(nat, QueryResult)>)
      ensures snapshot.Some? <==> !disabled && key in entries
      ensures snapshot.Some? ==> snapshot.value == (entries[key].revision, entries[key].result)
    {
      if disabled || key !in entries {
        return None;
      }
      return Some((entries[key].revision, entries[key].result));
    }

    method Put(key: CacheKey, result: QueryResult) returns (ok: bool, ghost resources: set<ResourceID>)
      requires 1 <= capacity
      modifies this
      ensures IsMentioned(resources, result)
      ensures Next(old(State()), Operation.Put(key, result, resources), State())
      ensures ok <==> !Refuses(old(State()), resources)
    {
      var ids := QueryResultResourceIDs(result);
      resources := ids;
      if disabled {
        return false, ids;
      }
      var todo := ids;
      while todo != {}
        invariant todo <= ids && (ids - todo) !! invalidated
        decreases |todo|
      {
        var id :| id in todo;
        todo := todo - {id};
        if id in invalidated {
          return false, ids;
        }
      }
      assert ids - todo == ids;
      ghost var before := State();
      nextRevision := nextRevision + 1;
      if key !in entries && |entries| >= capacity {
        EvictOldest();
      }
      ghost var kept := entries;
      entries := entries[key := Entry(nextRevision, result, ids)];
      assert MakesRoom(before, key, kept) && State() == Inserted(before, kept, key, result, ids);
      return true, ids;
    }

    /** Scans with a running minimum and removes the entry it ends with. */
    method EvictOldest()
      requires entries != map[]
      modifies this`entries
      ensures Evicts(old(entries), entries)
    {
      var todo := entries.Keys;
      var oldest :| oldest in todo;
      todo := todo - {oldest};
      while todo != {}
        invariant todo <= entries.Keys && oldest in entries && oldest !in todo
        invariant forall other | other in entries && other !in todo ::
                    entries[oldest].revision <= entries[other].revision
        decreases |todo|
      {
        var key :| key in todo;
        todo := todo - {key};
        if entries[key].revision < entries[oldest].revision {
          oldest := key;
        }
      }
      assert IsOldest(entries, oldest);
      entries := entries - {oldest};
    }

    method DeleteIfRevision(key: CacheKey, revision: nat)
      modifies this
      ensures Next(old(State()), Operation.DeleteIfRevision(key, revision), State())
    {
      if !disabled && key in entries && entries[key].revision == revision {
        entries := entries - {key};
      }
    }

    method ContainsRevision(key: CacheKey, revision: nat) returns (contains: bool)
      ensures contains <==> !disabled && key in entries && entries[key].revision == revision
    {
      return !disabled && key in entries && entries[key].revision == revision;
    }

    method ContainsInvalidatedResource(ids: seq<ResourceID>) returns (contains: bool)
      ensures contains <==> disabled || exists id | id in ids :: id in invalidated
    {
      if disabled {
        return true;
      }
      for i := 0 to |ids|
        invariant forall j | 0 <= j < i :: ids[j] !in invalidated
      {
        if ids[i] in invalidated {
          return true;
        }
      }
      return false;
    }

    /**
     Tombstones the resource, or disables the whole cache when there is no room for
     one. Times are counted from the zero timestamp; `now` is what the clock returns.
     */
    method InvalidateResource(resource: ResourceID, revokedAt: nat, now: nat)
      returns (result: Result<Invalidation, ()>)
      modifies this
      ensures result.Ok? <==> resource != 0 && revokedAt != 0 && now != 0
      ensures if result.Ok? then Next(old(State()), Invalidate(resource), State()) else State() == old(State())
      ensures result.Ok? ==>
                && result.value.observedAt == now
                && |old(entries)| == |entries| + result.value.removedEntries
                && (if old(disabled) || now <= revokedAt then result.value.latency == 0
                    else revokedAt + result.value.latency == now)
    {
      if resource == 0 || revokedAt == 0 || now == 0 {
        return Err(());
      }
      if disabled {
        return Ok(Invalidation(now, 0, 0));
      }
      var latency := if now < revokedAt then 0 else now - revokedAt;
      if resource !in invalidated && |invalidated| >= MAX_CAPACITY {
        result := Ok(Invalidation(now, latency, |entries|));
        entries, invalidated, disabled := map[], {}, true;
        return;
      }
      ghost var before := State();
      invalidated := invalidated + {resource};
      var todo, count := entries.Keys, 0;
      while todo != {}
        invariant State() == before.(entries := entries, invalidated := before.invalidated + {resource})
        invariant todo <= before.entries.Keys && |before.entries| == |entries| + count
        invariant forall key :: key in entries <==>
                    key in before.entries && (key in todo || resource !in before.entries[key].resources)
        invariant forall key | key in entries :: entries[key] == before.entries[key]
        decreases |todo|
      {
        var key :| key in todo;
        todo := todo - {key};
        if resource in entries[key].resources {
          assert |entries.Keys - {key}| == |entries.Keys| - 1;
          assert (entries - {key}).Keys == entries.Keys - {key};
          entries := entries - {key};
          count := count + 1;
        }
      }
      return Ok(Invalidation(now, latency, count));
    }
  }

  // What every step keeps.

  predicate DistinctRevisions(entries: map<CacheKey, Entry>) {
    forall k, l | k in entries && l in entries && k != l :: entries[k].revision != entries[l].revision
  }

  ghost predicate CacheInv(c: Cache) {
    && 1 <= c.capacity
    && |c.entries| <= c.capacity
    && |c.invalidated| <= MAX_CAPACITY
    && DistinctRevisions(c.entries)
    && (forall key | key in c.entries ::
          && c.entries[key].revision <= c.nextRevision
          && IsMentioned(c.entries[key].resources, c.entries[key].result)
          && c.entries[key].resources !! c.invalidated)
    && (c.disabled ==> c.entries == map[] && c.invalidated == {})
  }

  /** Puts carry the resources their result mentions. */
  ghost predicate WellFormed(op: Operation) {
    op.Put? ==> IsMentioned(op.resources, op.result)
  }

  lemma EvictionShrinks(before: map<CacheKey, Entry>, after: map<CacheKey, Entry>)
    requires Evicts(before, after)
    ensures |after| == |before| - 1
    ensures forall key | key in after :: key in before && after[key] == before[key]
  {
    var key :| IsOldest(before, key) && after == before - {key};
    assert after.Keys == before.Keys - {key};
  }

  lemma PurgeShrinks(before: map<CacheKey, Entry>, after: map<CacheKey, Entry>, resource: ResourceID)
    requires Purges(before, after, resource)
    ensures |after| <= |before|
  {
    assert after.Keys <= before.Keys;
    SubsetSize(after.Keys, before.Keys);
  }

  lemma SubsetSize(few: set<CacheKey>, many: set<CacheKey>)
    requires few <= many
    ensures |few| <= |many|
  {
    assert many == few + (many - few);
  }

  lemma RoomShrinks(c: Cache, key: CacheKey, kept: map<CacheKey, Entry>)
    requires 1 <= c.capacity && |c.entries| <= c.capacity && MakesRoom(c, key, kept)
    ensures forall other | other in kept :: other in c.entries && kept[other] == c.entries[other]
    ensures |kept| < c.capacity || (key in kept && |kept| <= c.capacity)
  {
    if key !in c.entries && |c.entries| >= c.capacity {
      EvictionShrinks(c.entries, kept);
    }
  }

  /** A revision above all others is distinct from them. */
  lemma NewestDistinct(c: Cache, kept: map<CacheKey, Entry>, key: CacheKey, entries: map<CacheKey, Entry>)
    requires DistinctRevisions(c.entries) && forall k | k in c.entries :: c.entries[k].revision <= c.nextRevision
    requires forall other | other in kept :: other in c.entries && kept[other] == c.entries[other]
    requires key in entries && entries[key].revision == c.nextRevision + 1
    requires forall other | other in entries && other != key :: other in kept && entries[other] == kept[other]
    ensures DistinctRevisions(entries)
  {
    hide IsMentioned;
    forall k, l | k in entries && l in entries && k != l ensures entries[k].revision != entries[l].revision {
      if k != key && l != key {
        assert entries[k] == c.entries[k] && entries[l] == c.entries[l];
      }
    }
  }

  lemma InsertKeeps(
    c: Cache, kept: map<CacheKey, Entry>, key: CacheKey, result: QueryResult, resources: set<ResourceID>, d: Cache)
    requires CacheInv(c) && !Refuses(c, resources) && IsMentioned(resources, result)
    requires forall other | other in kept :: other in c.entries && kept[other] == c.entries[other]
    requires |kept| < c.capacity || (key in kept && |kept| <= c.capacity)
    requires d == Inserted(c, kept, key, result, resources)
    ensures CacheInv(d)
  {
    NewestDistinct(c, kept, key, d.entries);
    hide IsMentioned, DistinctRevisions;
    assert d.entries.Keys == kept.Keys + {key};
    forall other | other in d.entries
      ensures d.entries[other].revision <= d.nextRevision
      ensures IsMentioned(d.entries[other].resources, d.entries[other].result)
      ensures d.entries[other].resources !! d.invalidated
    {
      assert other == key || d.entries[other] == c.entries[other];
    }
  }

  lemma PutKeeps(c: Cache, key: CacheKey, result: QueryResult, resources: set<ResourceID>, d: Cache)
    requires CacheInv(c) && Next(c, Operation.Put(key, result, resources), d) && IsMentioned(resources, result)
    ensures CacheInv(d)
  {
    hide IsMentioned, MakesRoom, Inserted, DistinctRevisions;
    if !Refuses(c, resources) {
      var kept :| MakesRoom(c, key, kept) && d == Inserted(c, kept, key, result, resources);
      RoomShrinks(c, key, kept);
      InsertKeeps(c, kept, key, result, resources, d);
    }
  }

  lemma StepKeeps(c: Cache, op: Operation, d: Cache)
    requires CacheInv(c) && WellFormed(op) && Next(c, op, d)
    ensures CacheInv(d)
  {
    match op
    case Put(key, result, resources) => PutKeeps(c, key, result, resources, d);
    case DeleteIfRevision(key, revision) => SubsetSize(d.entries.Keys, c.entries.Keys);
    case Invalidate(resource) =>
      if !c.disabled && !(resource !in c.invalidated && |c.invalidated| >= MAX_CAPACITY) {
        PurgeShrinks(c.entries, d.entries, resource);
        assert resource in c.invalidated ==> d.invalidated == c.invalidated;
      }
  }

  datatype Trace = Trace(caches: seq<Cache>, operations: seq<Operation>)

  ghost predicate IsRun(run: Trace) {
    && |run.caches| == |run.operations| + 1
    && (exists capacity: nat :: 1 <= capacity <= MAX_CAPACITY && run.caches[0] == Cache(capacity, 0, map[], {}, false))
    && (forall i | 0 <= i < |run.operations| ::
          WellFormed(run.operations[i]) && Next(run.caches[i], run.operations[i], run.caches[i + 1]))
  }

  /** Capacity, distinct revisions, no invalidated resource, an empty disabled cache: always. */
  lemma {:induction false} RunKeeps(run: Trace, i: nat)
    requires IsRun(run) && i <= |run.operations|
    ensures CacheInv(run.caches[i])
    decreases i
  {
    if i > 0 {
      hide Next, CacheInv;
      RunKeeps(run, i - 1);
      StepKeeps(run.caches[i - 1], run.operations[i - 1], run.caches[i]);
    } else {
      assert CacheInv(run.caches[0]);
    }
  }

  // Tombstones.

  predicate Tombstoned(c: Cache, resource: ResourceID) {
    c.disabled || resource in c.invalidated
  }

  lemma StepKeepsTombstone(c: Cache, op: Operation, d: Cache, resource: ResourceID)
    requires Next(c, op, d) && (Tombstoned(c, resource) || op == Invalidate(resource))
    ensures Tombstoned(d, resource)
  {
  }

  lemma {:induction false} TombstoneStays(run: Trace, i: nat, j: nat, resource: ResourceID)
    requires IsRun(run) && i <= j <= |run.operations| && Tombstoned(run.caches[i], resource)
    ensures Tombstoned(run.caches[j], resource)
    decreases j
  {
    if i < j {
      hide Next, Tombstoned;
      TombstoneStays(run, i, j - 1, resource);
      StepKeepsTombstone(run.caches[j - 1], run.operations[j - 1], run.caches[j], resource);
    }
  }

  /** Once a resource has been invalidated no later lookup finds a result that mentions it. */
  lemma InvalidatedStaysOut(run: Trace, i: nat, j: nat, resource: ResourceID, key: CacheKey)
    requires IsRun(run) && i < j <= |run.operations|
    requires run.operations[i] == Invalidate(resource) && resource != 0
    requires !run.caches[j].disabled && key in run.caches[j].entries
    ensures !Mentions(run.caches[j].entries[key].result, resource)
  {
    StepKeepsTombstone(run.caches[i], run.operations[i], run.caches[i + 1], resource);
    TombstoneStays(run, i + 1, j, resource);
    RunKeeps(run, j);
  }

  /** It stands nowhere in such a result: in no item or support, decision, citation, evidence or trace. */
  lemma InvalidatedNowhere(run: Trace, i: nat, j: nat, resource: ResourceID, key: CacheKey)
    requires IsRun(run) && i < j <= |run.operations|
    requires run.operations[i] == Invalidate(resource) && resource != 0
    requires !run.caches[j].disabled && key in run.caches[j].entries
    ensures var result := run.caches[j].entries[key].result;
            && (forall item | item in result.items ::
                  && item.resource != resource && item.citation != resource
                  && forall s | s in item.supports :: s.resource != resource && resource !in s.evidence)
            && (forall d | d in result.decisions :: d.resource != resource && d.authorizationResource != resource)
            && resource !in result.citations && resource !in result.evidence && resource !in result.trace
  {
    InvalidatedStaysOut(run, i, j, resource, key);
    MentionedNowhere(run.caches[j].entries[key].result, resource);
  }

  lemma MentionedNowhere(result: QueryResult, id: ResourceID)
    ensures !Mentions(result, id) <==>
              && (forall item | item in result.items ::
                    && item.resource != id && item.citation != id
                    && forall s | s in item.supports :: s.resource != id && id !in s.evidence)
              && (forall d | d in result.decisions :: d.resource != id && d.authorizationResource != id)
              && id !in result.citations && id !in result.evidence && id !in result.trace
  {
  }

  // Snapshots.

  /** Every entry of a later cache with an old revision is an unchanged old entry. */
  ghost predicate OnlyOlder(earlier: Cache, later: Cache) {
    && earlier.nextRevision <= later.nextRevision
    && forall key | key in later.entries && later.entries[key].revision <= earlier.nextRevision ::
         key in earlier.entries && later.entries[key] == earlier.entries[key]
  }

  lemma StepKeepsOlder(earlier: Cache, c: Cache, op: Operation, d: Cache)
    requires OnlyOlder(earlier, c) && Next(c, op, d)
    ensures OnlyOlder(earlier, d)
  {
    if op.Put? && !Refuses(c, op.resources) {
      var kept :| MakesRoom(c, op.key, kept) && d == Inserted(c, kept, op.key, op.result, op.resources);
      if op.key !in c.entries && |c.entries| >= c.capacity {
        EvictionShrinks(c.entries, kept);
      }
    }
  }

  lemma {:induction false} OldEntriesUnchanged(run: Trace, i: nat, j: nat)
    requires IsRun(run) && i <= j <= |run.operations|
    ensures OnlyOlder(run.caches[i], run.caches[j])
    decreases j
  {
    if i < j {
      hide Next, OnlyOlder;
      OldEntriesUnchanged(run, i, j - 1);
      StepKeepsOlder(run.caches[i], run.caches[j - 1], run.operations[j - 1], run.caches[j]);
    }
  }

  /**
   If a snapshot's revision is still contained, the very entry that was snapshotted
   is: revisions never come back for another result, not even for another key.
   */
  lemma ContainedIsSnapshotted(run: Trace, i: nat, j: nat, key: CacheKey, other: CacheKey, revision: nat)
    requires IsRun(run) && i <= j <= |run.operations|
    requires key in run.caches[i].entries && run.caches[i].entries[key].revision == revision
    requires other in run.caches[j].entries && run.caches[j].entries[other].revision == revision
    ensures other == key && run.caches[j].entries[key] == run.caches[i].entries[key]
  {
    RunKeeps(run, i);
    OldEntriesUnchanged(run, i, j);
  }
}
