/**
 * The cache and retention logic of the execution data manager (MybatisExecutionDataManager):
 * the eager whole-tree fetch with its same-root matcher, the eager/non-eager dispatch of the
 * structural queries, the per-query retention predicates, the in-memory page window of the
 * process-instance-with-variables query and the optimistic-locking rule of the lock update.
 *
 * Everything the manager hands to storage or to its hidden data-access helpers (the SQL
 * statements, the entity cache lookups, the merge inside getList/getEntity) appears here as an
 * input or as a step of a data-access plan.
 */
module ExecutionDataManager {
  import opened Wrappers
  import opened Executions
  import opened CachedEntityMatchers

  // ---------------------------------------------------------------------------------------------
  // Searching a list by id

  /** The first entry of s whose id is id, or None. */
  function FirstWithId(s: seq<Execution>, id: string): (r: Option<Execution>)
    ensures r.Some? ==> r.value in s && r.value.id == id
    ensures r.None? <==> forall x :: x in s ==> x.id != id
    decreases |s|
  {
    if s == [] then None
    else if s[0].id == id then Some(s[0])
    else
      assert forall x :: x in s ==> x == s[0] || x in s[1..];
      FirstWithId(s[1..], id)
  }

  /** No entry before the one FirstWithId returns has the requested id. */
  lemma {:induction false} FirstWithIdIsFirst(s: seq<Execution>, id: string)
    requires FirstWithId(s, id).Some?
    ensures exists i :: 0 <= i < |s| && s[i] == FirstWithId(s, id).value
                        && forall j :: 0 <= j < i ==> s[j].id != id
    decreases |s|
  {
    if s[0].id != id {
      FirstWithIdIsFirst(s[1..], id);
      var i :| 0 <= i < |s[1..]| && s[1..][i] == FirstWithId(s[1..], id).value
               && forall j :: 0 <= j < i ==> s[1..][j].id != id;
      assert s[i + 1] == FirstWithId(s, id).value;
      assert forall j :: 0 <= j < i + 1 ==> s[j].id != id by {
        forall j | 0 <= j < i + 1 ensures s[j].id != id {
          if j > 0 {
            assert s[j] == s[1..][j - 1];
          }
        }
      }
    } else {
      assert s[0] == FirstWithId(s, id).value;
    }
  }

  /** Unfolding FirstWithId at a position of a scan that has not found the id yet. */
  lemma FirstWithIdStep(s: seq<Execution>, i: nat, id: string)
    requires i < |s|
    ensures FirstWithId(s[i..], id) == if s[i].id == id then Some(s[i]) else FirstWithId(s[i + 1..], id)
  {
    assert s[i..][0] == s[i];
    assert s[i..][1..] == s[i + 1..];
  }

  /** The scan the manager writes out three times: walk s in order and stop at the first id match. */
  method FindFirstWithId(s: seq<Execution>, id: string) returns (r: Option<Execution>)
    ensures r == FirstWithId(s, id)
  {
    var i := 0;
    while i < |s|
      invariant 0 <= i <= |s|
      invariant FirstWithId(s[i..], id) == FirstWithId(s, id)
    {
      FirstWithIdStep(s, i, id);
      if s[i].id == id {
        return Some(s[i]);
      }
      i := i + 1;
    }
    assert s[i..] == [];
    return None;
  }

  // ---------------------------------------------------------------------------------------------
  // The eager tree fetch

  /**
   * The node preProcess settles on: the first cached candidate with the requested id, else the
   * first database candidate with it, else whatever the matcher held before. A null pool is
   * skipped.
   */
  function Located(executionId: string, previous: Option<Execution>,
                   databaseEntities: Pool, cachedEntities: Pool): Option<Execution>
  {
    var fromCache := FirstWithId(PoolItems(cachedEntities), executionId);
    if fromCache.Some? then fromCache
    else
      var fromStore := FirstWithId(PoolItems(databaseEntities), executionId);
      if fromStore.Some? then fromStore else previous
  }

  /** A cached instance wins over a database row with the same id; a miss in both keeps the slot. */
  lemma LocatedFindsRequested(executionId: string, previous: Option<Execution>,
                              databaseEntities: Pool, cachedEntities: Pool)
    ensures var r := Located(executionId, previous, databaseEntities, cachedEntities);
            && ((exists x :: x in PoolItems(cachedEntities) && x.id == executionId)
                ==> r.Some? && r.value in PoolItems(cachedEntities) && r.value.id == executionId)
            && ((forall x :: x in PoolItems(cachedEntities) ==> x.id != executionId)
                && (exists x :: x in PoolItems(databaseEntities) && x.id == executionId)
                ==> r.Some? && r.value in PoolItems(databaseEntities) && r.value.id == executionId)
            && ((forall x :: x in PoolItems(cachedEntities) + PoolItems(databaseEntities) ==> x.id != executionId)
                ==> r == previous)
  {
    var c, d := PoolItems(cachedEntities), PoolItems(databaseEntities);
    assert forall x :: x in c + d <==> x in c || x in d;
  }

  /** The eager matcher keeps a candidate when it shares the reference node's non-null root id. */
  predicate SharesRoot(reference: Execution, entity: Execution)
  {
    reference.rootProcessInstanceId != None
    && reference.rootProcessInstanceId == entity.rootProcessInstanceId
  }

  /** The anonymous matcher of the eager tree fetch, with its one slot of state. */
  class SameRootMatcher {
    const executionId: string
    var executionEntity: Option<Execution>

    constructor(executionId: string)
      ensures this.executionId == executionId && executionEntity == None
    {
      this.executionId := executionId;
      executionEntity := None;
    }

    /** Scan the cached pool, then the database pool, and keep the first node with the id. */
    method PreProcess(databaseEntities: Pool, cachedEntities: Pool)
      modifies this
      ensures executionEntity == Located(executionId, old(executionEntity), databaseEntities, cachedEntities)
    {
      if cachedEntities.Some? {
        var found := FindFirstWithId(cachedEntities.value, executionId);
        if found.Some? {
          executionEntity := found;
          return;
        }
      }
      if databaseEntities.Some? {
        var found := FindFirstWithId(databaseEntities.value, executionId);
        if found.Some? {
          executionEntity := found;
          return;
        }
      }
    }

    /**
     * Keeps exactly what the root-id query keeps for the reference node's root id. The source
     * dereferences the slot unguarded, so it must have been filled.
     */
    predicate IsRetained<P>(entity: Execution, parameter: P): (r: bool)
      reads this
      requires executionEntity.Some?
      ensures r <==> RetainedByRootProcessInstanceId(entity, executionEntity.value.rootProcessInstanceId)
    {
      SharesRoot(executionEntity.value, entity)
    }
  }

  /**
   * The eager matcher as a value of the retention protocol: its state is the slot, preProcess
   * fills it as the scanning loops do, and isRetained compares root ids with the node in it.
   */
  function SameRoot<P(!new)>(executionId: string): (m: CachedEntityMatcher<Option<Execution>, P>)
    ensures forall slot: Option<Execution>, d: Pool, c: Pool :: m.preProcess(slot, d, c) == Located(executionId, slot, d, c)
    ensures forall reference: Execution, e: Execution, p: P :: m.isRetained(Some(reference), e, p) == SharesRoot(reference, e)
  {
    CachedEntityMatcher((slot: Option<Execution>, d: Pool, c: Pool) => Located(executionId, slot, d, c),
                        (slot: Option<Execution>, e: Execution, p: P) => slot.Some? && SharesRoot(slot.value, e))
  }

  /**
   * Both phases of the eager matcher together: once preProcess has found the requested node, a
   * cached candidate is used exactly when it shares that node's non-null root id. (When nothing
   * is found the source fails on the empty slot, which this lemma excludes.)
   */
  lemma SameRootRetained<P(!new)>(executionId: string, slot: Option<Execution>,
                                  databaseEntities: Pool, cachedEntities: Pool, param: P, x: Execution)
    requires Located(executionId, slot, databaseEntities, cachedEntities).Some?
    ensures var reference := Located(executionId, slot, databaseEntities, cachedEntities).value;
            x in RetainedCachedEntities(SameRoot<P>(executionId), slot, databaseEntities, cachedEntities, param)
            <==> x in PoolItems(cachedEntities) && reference.rootProcessInstanceId != None
                 && x.rootProcessInstanceId == reference.rootProcessInstanceId
  {
    RetainedCachedEntitiesMembers(SameRoot<P>(executionId), slot, databaseEntities, cachedEntities, param, x);
  }

  /** Any two candidates the eager matcher keeps belong to one tree: their root ids agree and are set. */
  lemma SharesRootGroupsOneTree(reference: Execution, a: Execution, b: Execution)
    requires SharesRoot(reference, a) && SharesRoot(reference, b)
    ensures a.rootProcessInstanceId.Some? && a.rootProcessInstanceId == b.rootProcessInstanceId
    ensures SharesRoot(a, b) && SharesRoot(b, a) && SharesRoot(reference, reference)
  {
  }

  /** What the eager lookup answers: the cached instance, else the first fetched row with the id. */
  function FetchedExecution(executionId: string, entityCache: map<string, Execution>,
                            executionEntities: seq<Execution>): Option<Execution>
  {
    if executionId in entityCache then Some(entityCache[executionId])
    else FirstWithId(executionEntities, executionId)
  }

  /** A cache hit is answered from the cache whatever the fetch would have returned. */
  lemma FetchedExecutionFromCache(executionId: string, entityCache: map<string, Execution>,
                                  rows1: seq<Execution>, rows2: seq<Execution>)
    requires executionId in entityCache
    ensures FetchedExecution(executionId, entityCache, rows1) == Some(entityCache[executionId])
    ensures FetchedExecution(executionId, entityCache, rows1) == FetchedExecution(executionId, entityCache, rows2)
  {
  }

  /**
   * On a miss the answer is a fetched row with the requested id, the first such, and it is
   * None exactly when no fetched row has that id.
   */
  lemma FetchedExecutionFromRows(executionId: string, entityCache: map<string, Execution>,
                                 executionEntities: seq<Execution>)
    requires executionId !in entityCache
    ensures var r := FetchedExecution(executionId, entityCache, executionEntities);
            && (r.None? <==> forall x :: x in executionEntities ==> x.id != executionId)
            && (r.Some? ==> r.value in executionEntities && r.value.id == executionId
                            && exists i :: 0 <= i < |executionEntities| && executionEntities[i] == r.value
                                           && forall j :: 0 <= j < i ==> executionEntities[j].id != executionId)
  {
    if FirstWithId(executionEntities, executionId).Some? {
      FirstWithIdIsFirst(executionEntities, executionId);
    }
  }

  // ---------------------------------------------------------------------------------------------
  // Retention predicates of the individual queries

  /** Children of a parent whose activity is one of the given ones. */
  predicate RetainedByParentAndActivityIds(e: Execution, parentExecutionId: Option<string>, activityIds: set<string>)
  {
    e.parentId != None && e.parentId == parentExecutionId
    && e.activityId != None && e.activityId.value in activityIds
  }

  /** Executions of one root process instance. */
  predicate RetainedByRootProcessInstanceId(e: Execution, rootProcessInstanceId: Option<string>)
  {
    e.rootProcessInstanceId != None && e.rootProcessInstanceId == rootProcessInstanceId
  }

  /** Executions of one process instance. */
  predicate RetainedByProcessInstanceId(e: Execution, processInstanceId: Option<string>)
  {
    e.processInstanceId != None && e.processInstanceId == processInstanceId
  }

  /** A null query argument matches no execution, since a null field never equals it. */
  lemma NullArgumentRetainsNothing(e: Execution, activityIds: set<string>)
    ensures !RetainedByParentAndActivityIds(e, None, activityIds)
    ensures !RetainedByRootProcessInstanceId(e, None)
    ensures !RetainedByProcessInstanceId(e, None)
  {
  }

  /** Asking for more activities never drops an execution, and asking for none keeps nothing. */
  lemma ParentAndActivityIdsMonotone(e: Execution, parentExecutionId: Option<string>,
                                     fewer: set<string>, more: set<string>)
    requires fewer <= more
    ensures RetainedByParentAndActivityIds(e, parentExecutionId, fewer)
            ==> RetainedByParentAndActivityIds(e, parentExecutionId, more)
    ensures !RetainedByParentAndActivityIds(e, parentExecutionId, {})
  {
  }

  /** The root-id query, with the reference node's root id as argument, keeps what the eager matcher keeps. */
  lemma RootQueryAgreesWithEagerMatcher(reference: Execution, e: Execution)
    ensures RetainedByRootProcessInstanceId(e, reference.rootProcessInstanceId) <==> SharesRoot(reference, e)
  {
  }

  /** A stateless adapter subclass that overrides the two-argument isRetained with keep. */
  function AdapterOverriding<P(!new)>(keep: Execution -> bool): (m: CachedEntityMatcher<(), P>)
    ensures forall s: (), d: Pool, c: Pool :: m.preProcess(s, d, c) == s
    ensures forall e: Execution, p: P :: m.isRetained((), e, p) == keep(e)
  {
    CachedEntityMatcher(Adapter<(), P>().preProcess, (s: (), e: Execution, p: P) => keep(e))
  }

  /** The matcher of findExecutionsByParentExecutionAndActivityIds. */
  function ParentAndActivityIdsMatcher<P(!new)>(parentExecutionId: Option<string>, activityIds: set<string>): CachedEntityMatcher<(), P>
  {
    AdapterOverriding(e => RetainedByParentAndActivityIds(e, parentExecutionId, activityIds))
  }

  /** The matcher of findExecutionsByRootProcessInstanceId. */
  function RootProcessInstanceIdMatcher<P(!new)>(rootProcessInstanceId: Option<string>): CachedEntityMatcher<(), P>
  {
    AdapterOverriding(e => RetainedByRootProcessInstanceId(e, rootProcessInstanceId))
  }

  /** The matcher of findExecutionsByProcessInstanceId. */
  function ProcessInstanceIdMatcher<P(!new)>(processInstanceId: Option<string>): CachedEntityMatcher<(), P>
  {
    AdapterOverriding(e => RetainedByProcessInstanceId(e, processInstanceId))
  }

  /** A cached execution is used by the parent-and-activities query iff it is under that parent in one of the activities. */
  lemma ParentAndActivityIdsRetained<P(!new)>(parentExecutionId: Option<string>, activityIds: set<string>,
                                              databaseEntities: Pool, cachedEntities: Pool, param: P, x: Execution)
    ensures x in RetainedCachedEntities(ParentAndActivityIdsMatcher<P>(parentExecutionId, activityIds), (), databaseEntities, cachedEntities, param)
        <==> x in PoolItems(cachedEntities) && x.parentId == parentExecutionId && x.parentId != None
             && x.activityId != None && x.activityId.value in activityIds
  {
    RetainedCachedEntitiesMembers(ParentAndActivityIdsMatcher<P>(parentExecutionId, activityIds), (), databaseEntities, cachedEntities, param, x);
  }

  /** A cached execution is used by the root-id query iff its root id is the requested, non-null one. */
  lemma RootProcessInstanceIdRetained<P(!new)>(rootProcessInstanceId: Option<string>,
                                               databaseEntities: Pool, cachedEntities: Pool, param: P, x: Execution)
    ensures x in RetainedCachedEntities(RootProcessInstanceIdMatcher<P>(rootProcessInstanceId), (), databaseEntities, cachedEntities, param)
        <==> x in PoolItems(cachedEntities) && x.rootProcessInstanceId == rootProcessInstanceId && rootProcessInstanceId != None
  {
    RetainedCachedEntitiesMembers(RootProcessInstanceIdMatcher<P>(rootProcessInstanceId), (), databaseEntities, cachedEntities, param, x);
  }

  /** A cached execution is used by the process-instance query iff it belongs to the requested, non-null instance. */
  lemma ProcessInstanceIdRetained<P(!new)>(processInstanceId: Option<string>,
                                           databaseEntities: Pool, cachedEntities: Pool, param: P, x: Execution)
    ensures x in RetainedCachedEntities(ProcessInstanceIdMatcher<P>(processInstanceId), (), databaseEntities, cachedEntities, param)
        <==> x in PoolItems(cachedEntities) && x.processInstanceId == processInstanceId && processInstanceId != None
  {
    RetainedCachedEntitiesMembers(ProcessInstanceIdMatcher<P>(processInstanceId), (), databaseEntities, cachedEntities, param, x);
  }

  // ---------------------------------------------------------------------------------------------
  // The three queries for inactive executions

  datatype InactiveQuery =
    | InActivity(activityId: Option<string>)
    | ForProcessInstance(processInstanceId: Option<string>)
    | InActivityAndProcessInstance(activityId: Option<string>, processInstanceId: Option<string>)

  /** The one-argument isRetained(entity) each of the three anonymous matchers declares. */
  predicate InactiveRetains(q: InactiveQuery, e: Execution)
  {
    match q
    case InActivity(activityId) =>
      !e.isActive && e.activityId != None && e.activityId == activityId
    case ForProcessInstance(processInstanceId) =>
      e.processInstanceId != None && e.processInstanceId == processInstanceId && !e.isActive
    case InActivityAndProcessInstance(activityId, processInstanceId) =>
      e.processInstanceId != None && e.processInstanceId == processInstanceId && !e.isActive
      && e.activityId != None && e.activityId == activityId
  }

  /**
   * The matcher as the source builds it: the one-argument method is an overload, not an
   * override, so the adapter's two-argument isRetained, which is always false, stays in force.
   */
  function InactiveMatcherAsWritten<P(!new)>(q: InactiveQuery): (m: CachedEntityMatcher<(), P>)
    ensures forall e: Execution, p: P :: !m.isRetained((), e, p)
  {
    WithPreProcess<(), P>(Adapter<(), P>().preProcess)
  }

  /** The matcher the three queries evidently intend: the declared predicate as the override. */
  function InactiveMatcher<P(!new)>(q: InactiveQuery): (m: CachedEntityMatcher<(), P>)
    ensures forall e: Execution, p: P :: m.isRetained((), e, p) == InactiveRetains(q, e)
  {
    AdapterOverriding(e => InactiveRetains(q, e))
  }

  /** As written, no cached execution is ever used by the inactive-execution queries. */
  lemma InactiveMatcherAsWrittenRetainsNothing<P(!new)>(q: InactiveQuery, databaseEntities: Pool, cachedEntities: Pool, param: P)
    ensures RetainedCachedEntities(InactiveMatcherAsWritten<P>(q), (), databaseEntities, cachedEntities, param) == []
  {
    WithoutIsRetainedOverrideRetainsNothing<(), P>(Adapter<(), P>().preProcess, (), databaseEntities, cachedEntities, param);
  }

  /** An inactive cached execution in the requested activity, which the declared predicate accepts and the query drops. */
  lemma InactiveMatcherAsWrittenDropsMatch<P(!new)>(param: P)
    ensures var e := Execution("E", Some("P"), Some("P"), None, Some("P"), Some("A"), false, 0, NullList, None);
            && InactiveRetains(InActivity(Some("A")), e)
            && e !in RetainedCachedEntities(InactiveMatcherAsWritten<P>(InActivity(Some("A"))), (), None, Some([e]), param)
  {
    var e := Execution("E", Some("P"), Some("P"), None, Some("P"), Some("A"), false, 0, NullList, None);
    InactiveMatcherAsWrittenRetainsNothing<P>(InActivity(Some("A")), None, Some([e]), param);
  }

  /** With the override in place, a cached execution is used exactly when the declared predicate accepts it. */
  lemma InactiveMatcherRetains<P(!new)>(q: InactiveQuery, databaseEntities: Pool, cachedEntities: Pool, param: P, x: Execution)
    ensures x in RetainedCachedEntities(InactiveMatcher<P>(q), (), databaseEntities, cachedEntities, param)
        <==> x in PoolItems(cachedEntities) && !x.isActive && InactiveRetains(q, x)
  {
    RetainedCachedEntitiesMembers(InactiveMatcher<P>(q), (), databaseEntities, cachedEntities, param, x);
  }

  // ---------------------------------------------------------------------------------------------
  // Dispatch between eager and non-eager mode

  /** The three shared matchers of the manager; their classes are not part of this model. */
  datatype MatcherName =
    | ExecutionsByParentExecutionId
    | ExecutionsByProcessInstanceId
    | SubProcessInstanceBySuperExecutionId

  /**
   * One call into the manager's data-access helpers. The boolean is the last argument the
   * manager passes to getEntity/getList, whose meaning lies in code not modelled here.
   */
  datatype DataAccess =
    | FetchTree(executionId: string)
    | GetEntity(statement: string, parameter: string, matcher: MatcherName, flag: bool)
    | GetList(statement: string, parameter: string, matcher: MatcherName, flag: bool)
    | GetListFromCache(matcher: MatcherName, parameter: string)
  {
    /** Steps that run a list statement of their own against the store. */
    predicate IsStoreListQuery()
    {
      GetList?
    }
  }

  const PROCESS_INSTANCE_WITH_VARIABLES_LIMIT: int := 20000

  /** A process-instance query's paging window, which the with-variables lookup overwrites. */
  class ProcessInstanceQuery {
    var firstResult: int
    var maxResults: int

    constructor(firstResult: int, maxResults: int)
      ensures this.firstResult == firstResult && this.maxResults == maxResults
    {
      this.firstResult := firstResult;
      this.maxResults := maxResults;
    }
  }

  /**
   * The window [firstResult, firstResult + maxResults) of the fetched list, cut at its end; a
   * null or empty list, or an offset past the end, gives the empty window.
   */
  function PageWindow<T>(instanceList: Option<seq<T>>, firstResult: int, maxResults: int): (r: seq<T>)
    requires firstResult >= 0 && maxResults > 0
    ensures var l := if instanceList.Some? then instanceList.value else [];
            r == l[Min(firstResult, |l|)..Min(firstResult + maxResults, |l|)]
  {
    if instanceList.Some? && |instanceList.value| != 0 then
      var l := instanceList.value;
      if firstResult > 0 then
        if firstResult <= |l| then
          var toIndex := firstResult + Min(maxResults, |l| - firstResult);
          l[firstResult..toIndex]
        else []
      else
        var toIndex := Min(maxResults, |l|);
        l[0..toIndex]
    else []
  }

  function Min(a: int, b: int): int
  {
    if a <= b then a else b
  }

  /** Two adjacent windows together are the window spanning both. */
  lemma PageWindowsConcatenate<T>(instanceList: Option<seq<T>>, firstResult: int, size1: int, size2: int)
    requires firstResult >= 0 && size1 > 0 && size2 > 0
    ensures PageWindow(instanceList, firstResult, size1) + PageWindow(instanceList, firstResult + size1, size2)
            == PageWindow(instanceList, firstResult, size1 + size2)
  {
    var l := if instanceList.Some? then instanceList.value else [];
    var a, b, c := Min(firstResult, |l|), Min(firstResult + size1, |l|), Min(firstResult + size1 + size2, |l|);
    assert l[a..b] + l[b..c] == l[a..c];
  }

  /** A window holds at most maxResults items, and holds none when it starts past the end. */
  lemma PageWindowBounds<T>(instanceList: Option<seq<T>>, firstResult: int, maxResults: int)
    requires firstResult >= 0 && maxResults > 0
    ensures |PageWindow(instanceList, firstResult, maxResults)| <= maxResults
    ensures instanceList.None? || firstResult >= |instanceList.value|
            ==> PageWindow(instanceList, firstResult, maxResults) == []
  {
  }

  /** The update-lock failure: no row was updated, so another session holds or changed the lock. */
  datatype LockError = OptimisticLockingFailure(message: string)

  class MybatisExecutionDataManager {
    const eagerlyFetchExecutionTree: bool

    constructor(eagerlyFetchExecutionTree: bool)
      ensures this.eagerlyFetchExecutionTree == eagerlyFetchExecutionTree
    {
      this.eagerlyFetchExecutionTree := eagerlyFetchExecutionTree;
    }

    /**
     * The eager lookup. entityCache stands for the session's cached executions by id and
     * executionEntities for the list the whole-tree fetch returns.
     */
    method FindByIdAndFetchExecutionTree(executionId: string, entityCache: map<string, Execution>,
                                         executionEntities: seq<Execution>) returns (r: Option<Execution>)
      ensures r == FetchedExecution(executionId, entityCache, executionEntities)
    {
      if executionId in entityCache {
        return Some(entityCache[executionId]);
      }
      r := FindFirstWithId(executionEntities, executionId);
    }

    /** storeResult stands for what the inherited lookup by id returns in non-eager mode. */
    method FindById(entityId: string, entityCache: map<string, Execution>, executionEntities: seq<Execution>,
                    storeResult: Option<Execution>) returns (r: Option<Execution>)
      ensures eagerlyFetchExecutionTree ==> r == FetchedExecution(entityId, entityCache, executionEntities)
      ensures !eagerlyFetchExecutionTree ==> r == storeResult
    {
      if eagerlyFetchExecutionTree {
        r := FindByIdAndFetchExecutionTree(entityId, entityCache, executionEntities);
      } else {
        r := storeResult;
      }
    }

    /** The data accesses of findSubProcessInstanceBySuperExecutionId. */
    function FindSubProcessInstanceBySuperExecutionIdPlan(superExecutionId: string): (plan: seq<DataAccess>)
      ensures |plan| >= 1 && plan[|plan| - 1].GetEntity?
      ensures plan[|plan| - 1].matcher == SubProcessInstanceBySuperExecutionId
      ensures plan[|plan| - 1].parameter == superExecutionId
      ensures plan[|plan| - 1].flag == !eagerlyFetchExecutionTree
      ensures FetchTree(superExecutionId) in plan <==> eagerlyFetchExecutionTree
      ensures eagerlyFetchExecutionTree ==> |plan| == 2 && plan[0] == FetchTree(superExecutionId)
      ensures !eagerlyFetchExecutionTree ==> |plan| == 1
      ensures plan[|plan| - 1].statement == "selectSubProcessInstanceBySuperExecutionId"
    {
      (if eagerlyFetchExecutionTree then [FetchTree(superExecutionId)] else [])
      + [GetEntity("selectSubProcessInstanceBySuperExecutionId", superExecutionId,
                   SubProcessInstanceBySuperExecutionId, !eagerlyFetchExecutionTree)]
    }

    /** The data accesses of findChildExecutionsByParentExecutionId. */
    function FindChildExecutionsByParentExecutionIdPlan(parentExecutionId: string): (plan: seq<DataAccess>)
      ensures |plan| >= 1 && (plan[|plan| - 1].GetList? || plan[|plan| - 1].GetListFromCache?)
      ensures plan[|plan| - 1].matcher == ExecutionsByParentExecutionId
      ensures plan[|plan| - 1].parameter == parentExecutionId
      ensures FetchTree(parentExecutionId) in plan <==> eagerlyFetchExecutionTree
      ensures eagerlyFetchExecutionTree ==> |plan| == 2 && plan[0] == FetchTree(parentExecutionId) && plan[1].GetListFromCache?
      ensures !eagerlyFetchExecutionTree ==> |plan| == 1 && plan[0].GetList? && plan[0].flag
                                             && plan[0].statement == "selectExecutionsByParentExecutionId"
    {
      if eagerlyFetchExecutionTree then
        [FetchTree(parentExecutionId), GetListFromCache(ExecutionsByParentExecutionId, parentExecutionId)]
      else
        [GetList("selectExecutionsByParentExecutionId", parentExecutionId, ExecutionsByParentExecutionId, true)]
    }

    /** The data accesses of findChildExecutionsByProcessInstanceId. */
    function FindChildExecutionsByProcessInstanceIdPlan(processInstanceId: string): (plan: seq<DataAccess>)
      ensures |plan| >= 1 && (plan[|plan| - 1].GetList? || plan[|plan| - 1].GetListFromCache?)
      ensures plan[|plan| - 1].matcher == ExecutionsByProcessInstanceId
      ensures plan[|plan| - 1].parameter == processInstanceId
      ensures FetchTree(processInstanceId) in plan <==> eagerlyFetchExecutionTree
      ensures eagerlyFetchExecutionTree ==> |plan| == 2 && plan[0] == FetchTree(processInstanceId) && plan[1].GetListFromCache?
      ensures !eagerlyFetchExecutionTree ==> |plan| == 1 && plan[0].GetList? && plan[0].flag
                                             && plan[0].statement == "selectChildExecutionsByProcessInstanceId"
    {
      if eagerlyFetchExecutionTree then
        [FetchTree(processInstanceId), GetListFromCache(ExecutionsByProcessInstanceId, processInstanceId)]
      else
        [GetList("selectChildExecutionsByProcessInstanceId", processInstanceId, ExecutionsByProcessInstanceId, true)]
    }

    /**
     * In-memory paging for the with-variables query. select stands for the statement run with
     * the query's paging window at the time of the call; fetched records whether it was run.
     */
    method FindProcessInstanceAndVariablesByQueryCriteria<T>(executionQuery: ProcessInstanceQuery,
                                                             select: (int, int) -> Option<seq<T>>)
      returns (r: seq<T>, ghost fetched: bool)
      modifies executionQuery
      ensures fetched <==> old(executionQuery.firstResult) >= 0 && old(executionQuery.maxResults) > 0
      ensures old(executionQuery.firstResult) < 0 || old(executionQuery.maxResults) <= 0
              ==> r == [] && unchanged(executionQuery)
      ensures old(executionQuery.firstResult) >= 0 && old(executionQuery.maxResults) > 0
              ==> executionQuery.firstResult == 0
                  && executionQuery.maxResults == PROCESS_INSTANCE_WITH_VARIABLES_LIMIT
                  && r == PageWindow(select(0, PROCESS_INSTANCE_WITH_VARIABLES_LIMIT),
                                     old(executionQuery.firstResult), old(executionQuery.maxResults))
    {
      fetched := false;
      if executionQuery.firstResult < 0 || executionQuery.maxResults <= 0 {
        r := [];
        return;
      }
      var firstResult := executionQuery.firstResult;
      var maxResults := executionQuery.maxResults;
      executionQuery.maxResults := PROCESS_INSTANCE_WITH_VARIABLES_LIMIT;
      executionQuery.firstResult := 0;
      var instanceList := select(executionQuery.firstResult, executionQuery.maxResults);
      fetched := true;
      r := PageWindow(instanceList, firstResult, maxResults);
    }

    /** affectedRows stands for the count the conditional lock update reports. */
    method UpdateProcessInstanceLockTime(processInstanceId: string, affectedRows: int) returns (o: Outcome<LockError>)
      ensures o.Fail? <==> affectedRows == 0
      ensures o.Fail? ==> o.error == OptimisticLockingFailure("Could not lock process instance")
    {
      if affectedRows == 0 {
        return Fail(OptimisticLockingFailure("Could not lock process instance"));
      }
      return Pass;
    }

    /** Clearing the lock ignores the count the update reports. */
    method ClearProcessInstanceLockTime(processInstanceId: string, affectedRows: int) returns (o: Outcome<LockError>)
      ensures o == Pass
    {
      return Pass;
    }
  }

  /**
   * After the tree fetch, eager mode answers the structural queries from the cache alone, while
   * non-eager mode never fetches the tree; both apply the same shared matcher to the same argument.
   */
  lemma StructuralQueriesByMode(eager: MybatisExecutionDataManager, lazy: MybatisExecutionDataManager, id: string)
    requires eager.eagerlyFetchExecutionTree && !lazy.eagerlyFetchExecutionTree
    ensures eager.FindChildExecutionsByParentExecutionIdPlan(id)[0] == FetchTree(id)
    ensures eager.FindChildExecutionsByProcessInstanceIdPlan(id)[0] == FetchTree(id)
    ensures forall a :: (a in eager.FindChildExecutionsByParentExecutionIdPlan(id)
                         + eager.FindChildExecutionsByProcessInstanceIdPlan(id)) ==> !a.IsStoreListQuery()
    ensures forall a :: (a in lazy.FindChildExecutionsByParentExecutionIdPlan(id)
                         + lazy.FindChildExecutionsByProcessInstanceIdPlan(id)
                         + lazy.FindSubProcessInstanceBySuperExecutionIdPlan(id)) ==> !a.FetchTree?
    ensures var e, l := eager.FindChildExecutionsByParentExecutionIdPlan(id), lazy.FindChildExecutionsByParentExecutionIdPlan(id);
            e[|e| - 1].matcher == l[|l| - 1].matcher && e[|e| - 1].parameter == l[|l| - 1].parameter
    ensures var e, l := eager.FindChildExecutionsByProcessInstanceIdPlan(id), lazy.FindChildExecutionsByProcessInstanceIdPlan(id);
            e[|e| - 1].matcher == l[|l| - 1].matcher && e[|e| - 1].parameter == l[|l| - 1].parameter
  {
  }
}
