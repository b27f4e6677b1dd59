# Execution persistence of a workflow engine, modelled in Dafny

This project models the part of the Activiti engine that keeps process executions in the
session cache and decides when a cached execution may stand in for a database row:

- **execution_tree_cache.dfy** models `ExecutionTreeCacheImpl`. This is an id → execution map.
  `put` is meant to locate the root of an execution's tree and store the whole tree. `get` is
  a plain lookup.
- **execution_data_manager.dfy** models the cache and retention logic of
  `MybatisExecutionDataManager`:
  - the eager whole-tree fetch and its same-root matcher (a class with one `Option<Execution>` slot);
  - the eager/non-eager dispatch of the structural queries;
  - the retention predicate of every matcher the manager defines inline;
  - the in-memory page window of the process-instance-with-variables query;
  - the optimistic-locking rule of the lock update.
- **execution_cached_entity_state_util.dfy** models `ExecutionCachedEntityStateUtil`: four flags
  packed as bits of an execution's `cachedEntityState`.
- **cached_entity_matcher.dfy** models the retention protocol:
  - `CachedEntityMatcher`: `preProcess` over both candidate pools, then `isRetained` per entity;
  - its default `CachedEntityMatcherAdapter`;
  - `SingleCachedEntityMatcher`.
- **executions.dfy** holds the execution datatype, the order in which a tree is visited top down,
  an independent reachability predicate, and the priority order among the three ancestor edges.
- **wrappers.dfy** holds `Option`, `Result` and `Outcome`.

Executions are values. A child list that may be null is `ExecutionList = NullList | Items(seq)`,
and a nullable field is an `Option`. The upward object references that root finding follows
(process instance, super execution, parent) are given as a map from id to execution.

The matcher interfaces become a datatype of two function values. Whatever state `preProcess`
builds is passed on explicitly to `isRetained`.

The behaviour follows the code. "## Findings" logs four places where the code does not do
what its own names promise:

- a method called `findRootProcessInstanceExecution` that returns its argument;
- an `addChildren` that `put` uses to cache a tree, but which never caches the tree's root;
- setters `setHasTasks` and so on that change nothing;
- retention predicates that are declared but never called.

For each, the as-written behaviour is modelled and proved, next to the corrected behaviour.

## Model

| member | source | states |
|---|---|---|
| Executions.Children | modules/activiti-engine/src/main/java/org/activiti/engine/impl/persistence/cache/ExecutionTreeCacheImpl.java:55-56 | a null child list is read as no children, and a non-null list yields exactly its items |
| Executions.AncestorEdgeOf | modules/activiti-engine/src/main/java/org/activiti/engine/impl/persistence/cache/ExecutionTreeCacheImpl.java:38-48 | the ancestor edge is chosen in a fixed priority order: 1. the process instance, if its id is set and differs from the execution's own id; 2. otherwise the super execution, on the same condition; 3. otherwise the parent, if set; 4. otherwise none |
| Executions.DescendantsAreLower | modules/activiti-engine/src/main/java/org/activiti/engine/impl/persistence/cache/ExecutionTreeCacheImpl.java:54-68 | every execution below a node is strictly lower in the finite tree, so the recursion ends without a visited set, and no node lies below itself |
| Executions.DescendantsAreReachable | modules/activiti-engine/src/main/java/org/activiti/engine/impl/persistence/cache/ExecutionTreeCacheImpl.java:54-68 | the top-down visiting order lists exactly the executions reachable through child lists and sub-process-instance links |
| ExecutionTreeCache.WalkReachesTarget | modules/activiti-engine/src/main/java/org/activiti/engine/impl/persistence/cache/ExecutionTreeCacheImpl.java:35-51 | a successful upward walk ends on an execution with the target id, which is the start or an execution of the graph |
| ExecutionTreeCache.WalkUpTo | modules/activiti-engine/src/main/java/org/activiti/engine/impl/persistence/cache/ExecutionTreeCacheImpl.java:35-49 | the root-finding loop returns the result of the upward walk: the target, an invalid-execution error, a missing ancestor, or an exhausted step budget |
| ExecutionTreeCache.WalkBoundTrail | modules/activiti-engine/src/main/java/org/activiti/engine/impl/persistence/cache/ExecutionTreeCacheImpl.java:35-49 | a walk that runs out of steps has made one move per step, each to an execution of the graph |
| ExecutionTreeCache.WalkBoundReachedRevisits | modules/activiti-engine/src/main/java/org/activiti/engine/impl/persistence/cache/ExecutionTreeCacheImpl.java:35-49 | with one step more than the graph has executions, running out of steps means the walk visited some execution twice, so an acyclic ancestry never ends that way |
| ExecutionTreeCache.ShortChainReportsInvalidExecution | modules/activiti-engine/src/main/java/org/activiti/engine/impl/persistence/cache/ExecutionTreeCacheImpl.java:46-47 | a start outside the graph whose only ancestor has no ancestor edge is reported as an invalid execution, not as an exhausted step budget |
| ExecutionTreeCache.InsertAllKeys | modules/activiti-engine/src/main/java/org/activiti/engine/impl/persistence/cache/ExecutionTreeCacheImpl.java:58 | storing a list adds exactly the ids of its executions to the key set |
| ExecutionTreeCache.InsertAllKeepsOthers | modules/activiti-engine/src/main/java/org/activiti/engine/impl/persistence/cache/ExecutionTreeCacheImpl.java:58 | an id not in the stored list keeps its old entry: nothing is removed |
| ExecutionTreeCache.InsertAllStores | modules/activiti-engine/src/main/java/org/activiti/engine/impl/persistence/cache/ExecutionTreeCacheImpl.java:58 | with unique ids, every stored execution can be looked up under its own id |
| ExecutionTreeCache.InsertAllIsUnion | modules/activiti-engine/src/main/java/org/activiti/engine/impl/persistence/cache/ExecutionTreeCacheImpl.java:65 | an id already present is overwritten, so storing a list is a map union in which the list wins |
| ExecutionTreeCache.InsertAllIdempotent | modules/activiti-engine/src/main/java/org/activiti/engine/impl/persistence/cache/ExecutionTreeCacheImpl.java:58 | storing the same list twice is the same as storing it once |
| ExecutionTreeCache.ExecutionTreeCacheImpl.constructor | modules/activiti-engine/src/main/java/org/activiti/engine/impl/persistence/cache/ExecutionTreeCacheImpl.java:27 | the cache starts empty |
| ExecutionTreeCache.ExecutionTreeCacheImpl.Put | modules/activiti-engine/src/main/java/org/activiti/engine/impl/persistence/cache/ExecutionTreeCacheImpl.java:30-32 | as written, put stores the executions below its argument, no more and no less |
| ExecutionTreeCache.ExecutionTreeCacheImpl.FindRootProcessInstanceExecution | modules/activiti-engine/src/main/java/org/activiti/engine/impl/persistence/cache/ExecutionTreeCacheImpl.java:34-52 | as written, root finding returns its argument: the loop guard is false on entry |
| ExecutionTreeCache.ExecutionTreeCacheImpl.AddChildren | modules/activiti-engine/src/main/java/org/activiti/engine/impl/persistence/cache/ExecutionTreeCacheImpl.java:54-68 | stores every child, each followed by everything below it, then the sub-process instance followed by everything below it; null lists and a null sub-process instance are skipped |
| ExecutionTreeCache.ExecutionTreeCacheImpl.Get | modules/activiti-engine/src/main/java/org/activiti/engine/impl/persistence/cache/ExecutionTreeCacheImpl.java:71-73 | a lookup with no fallback: None exactly for an id never stored |
| ExecutionTreeCache.ExecutionTreeCacheImpl.Flush | modules/activiti-engine/src/main/java/org/activiti/engine/impl/persistence/cache/ExecutionTreeCacheImpl.java:75-78 | leaves the cache as it was |
| ExecutionTreeCache.ExecutionTreeCacheImpl.Close | modules/activiti-engine/src/main/java/org/activiti/engine/impl/persistence/cache/ExecutionTreeCacheImpl.java:80-83 | leaves the cache as it was |
| ExecutionTreeCache.ExecutionTreeCacheImpl.FindRootProcessInstanceExecutionIntended | modules/activiti-engine/src/main/java/org/activiti/engine/impl/persistence/cache/ExecutionTreeCacheImpl.java:34-52 | the corrected loop stops at the execution whose id is the start's root process instance id. Otherwise it reports why it cannot get there: no ancestor edge, an ancestor missing from the graph, or an ancestry that revisits an execution |
| ExecutionTreeCache.ExecutionTreeCacheImpl.PutIntended | modules/activiti-engine/src/main/java/org/activiti/engine/impl/persistence/cache/ExecutionTreeCacheImpl.java:30-32 | the corrected put stores the found root followed by everything below it, and changes nothing when root finding fails |
| ExecutionTreeCache.AddChildrenSkipsItsArgument | modules/activiti-engine/src/main/java/org/activiti/engine/impl/persistence/cache/ExecutionTreeCacheImpl.java:54-68 | the node addChildren is called on is not among what it stores, so its id stays absent unless it was already cached |
| ExecutionTreeCache.IntendedPutStoresTree | modules/activiti-engine/src/main/java/org/activiti/engine/impl/persistence/cache/ExecutionTreeCacheImpl.java:54-68 | after the corrected put, the root and every execution reachable from it are stored under their own ids, and no other id is added |
| ExecutionTreeCache.ScenarioRootAsWritten | modules/activiti-engine/src/main/java/org/activiti/engine/impl/persistence/cache/ExecutionTreeCacheImpl.java:36 | as written, a leaf of a sub-process whose root is elsewhere is returned as its own root |
| ExecutionTreeCache.ScenarioPutAsWritten | modules/activiti-engine/src/main/java/org/activiti/engine/impl/persistence/cache/ExecutionTreeCacheImpl.java:30-31 | as written, putting that leaf stores nothing at all |
| ExecutionTreeCache.ScenarioWalkIntended | modules/activiti-engine/src/main/java/org/activiti/engine/impl/persistence/cache/ExecutionTreeCacheImpl.java:38-48 | the corrected walk climbs from the leaf, via the process-instance and super-execution edges, to the real root |
| ExecutionTreeCache.ScenarioDescendants | modules/activiti-engine/src/main/java/org/activiti/engine/impl/persistence/cache/ExecutionTreeCacheImpl.java:54-68 | the visiting order of the example tree: children in order, each before its own sub-process instance and that instance's children |
| ExecutionTreeCache.ScenarioPutIntended | modules/activiti-engine/src/main/java/org/activiti/engine/impl/persistence/cache/ExecutionTreeCacheImpl.java:30-31 | the corrected put of the leaf stores all five executions of the tree |
| ExecutionCachedEntityStateUtil.StateBitsDistinct | modules/activiti-engine/src/main/java/org/activiti/engine/impl/util/ExecutionCachedEntityStateUtil.java:22-25 | the four bit numbers, and the masks they stand for, are pairwise distinct |
| ExecutionCachedEntityStateUtil.HasTasks | modules/activiti-engine/src/main/java/org/activiti/engine/impl/util/ExecutionCachedEntityStateUtil.java:27-29 | reads bit 2 (mask 0x2) of the state |
| ExecutionCachedEntityStateUtil.HasJobs | modules/activiti-engine/src/main/java/org/activiti/engine/impl/util/ExecutionCachedEntityStateUtil.java:35-37 | reads bit 3 (mask 0x4) of the state |
| ExecutionCachedEntityStateUtil.HasEventSubscriptions | modules/activiti-engine/src/main/java/org/activiti/engine/impl/util/ExecutionCachedEntityStateUtil.java:43-45 | reads bit 1 (mask 0x1) of the state |
| ExecutionCachedEntityStateUtil.HasVariables | modules/activiti-engine/src/main/java/org/activiti/engine/impl/util/ExecutionCachedEntityStateUtil.java:51-53 | reads bit 4 (mask 0x8) of the state |
| ExecutionCachedEntityStateUtil.SetHasTasks | modules/activiti-engine/src/main/java/org/activiti/engine/impl/util/ExecutionCachedEntityStateUtil.java:31-33 | as written, the computed mask is dropped, so the execution is unchanged |
| ExecutionCachedEntityStateUtil.SetHasJobs | modules/activiti-engine/src/main/java/org/activiti/engine/impl/util/ExecutionCachedEntityStateUtil.java:39-41 | as written, the execution is unchanged |
| ExecutionCachedEntityStateUtil.SetHasEventSubscriptions | modules/activiti-engine/src/main/java/org/activiti/engine/impl/util/ExecutionCachedEntityStateUtil.java:47-49 | as written, the execution is unchanged |
| ExecutionCachedEntityStateUtil.SetHasVariables | modules/activiti-engine/src/main/java/org/activiti/engine/impl/util/ExecutionCachedEntityStateUtil.java:55-57 | as written, the execution is unchanged |
| ExecutionCachedEntityStateUtil.SetHasTasksIsLost | modules/activiti-engine/src/main/java/org/activiti/engine/impl/util/ExecutionCachedEntityStateUtil.java:31-33 | as written, setting the tasks flag on a clear state leaves hasTasks false |
| ExecutionCachedEntityStateUtil.SetHasTasksIntended | modules/activiti-engine/src/main/java/org/activiti/engine/impl/util/ExecutionCachedEntityStateUtil.java:31-33 | the corrected setter makes hasTasks equal the argument and keeps the other three flags and every other field |
| ExecutionCachedEntityStateUtil.SetHasJobsIntended | modules/activiti-engine/src/main/java/org/activiti/engine/impl/util/ExecutionCachedEntityStateUtil.java:39-41 | the same for hasJobs |
| ExecutionCachedEntityStateUtil.SetHasEventSubscriptionsIntended | modules/activiti-engine/src/main/java/org/activiti/engine/impl/util/ExecutionCachedEntityStateUtil.java:47-49 | the same for hasEventSubscriptions |
| ExecutionCachedEntityStateUtil.SetHasVariablesIntended | modules/activiti-engine/src/main/java/org/activiti/engine/impl/util/ExecutionCachedEntityStateUtil.java:55-57 | the same for hasVariables |
| CachedEntityMatchers.PoolItems | modules/activiti-engine/src/main/java/org/activiti/engine/impl/persistence/CachedEntityMatcher.java:18 | a null candidate collection contributes no candidates, and a non-null one contributes exactly its items |
| CachedEntityMatchers.RetainedCachedEntitiesMembers | modules/activiti-engine/src/main/java/org/activiti/engine/impl/persistence/CachedEntityMatcher.java:20-23 | a cached entity is used exactly when isRetained holds of it in the state preProcess left |
| CachedEntityMatchers.Adapter | modules/activiti-engine/src/main/java/org/activiti/engine/impl/persistence/CachedEntityMatcherAdapter.java:13-21 | the default preProcess accepts any pools and keeps the state; the default isRetained is false for every entity and parameter |
| CachedEntityMatchers.WithPreProcess | modules/activiti-engine/src/main/java/org/activiti/engine/impl/persistence/CachedEntityMatcherAdapter.java:18-21 | a subclass that overrides only preProcess keeps the always-false isRetained |
| CachedEntityMatchers.AdapterPreProcessIdempotent | modules/activiti-engine/src/main/java/org/activiti/engine/impl/persistence/CachedEntityMatcherAdapter.java:13-16 | calling the default preProcess any number of times leaves the state as it was |
| CachedEntityMatchers.WithoutIsRetainedOverrideRetainsNothing | modules/activiti-engine/src/main/java/org/activiti/engine/impl/persistence/CachedEntityMatcherAdapter.java:18-21 | a matcher without a two-argument isRetained override retains no cached entity, whatever its preProcess does |
| CachedEntityMatchers.SingleRetentionIgnoresPool | modules/activiti-engine/src/main/java/org/activiti/engine/impl/persistence/SingleCachedEntityMatcher.java:13-17 | with no pre-processing phase, whether an entity is kept does not depend on which other candidates share its pool |
| ExecutionDataManager.FirstWithId | modules/activiti-engine/src/main/java/org/activiti/engine/impl/persistence/entity/data/impl/MybatisExecutionDataManager.java:127-132 | the result has the requested id and comes from the list; it is None exactly when no entry has the id |
| ExecutionDataManager.FirstWithIdIsFirst | modules/activiti-engine/src/main/java/org/activiti/engine/impl/persistence/entity/data/impl/MybatisExecutionDataManager.java:127-132 | no entry before the one returned has the requested id |
| ExecutionDataManager.FindFirstWithId | modules/activiti-engine/src/main/java/org/activiti/engine/impl/persistence/entity/data/impl/MybatisExecutionDataManager.java:127-132 | the search loop returns the first entry with the id, or None |
| ExecutionDataManager.LocatedFindsRequested | modules/activiti-engine/src/main/java/org/activiti/engine/impl/persistence/entity/data/impl/MybatisExecutionDataManager.java:93-117 | preProcess settles on a node with the requested id; a cached instance wins over a database row; a null pool is skipped; a miss in both pools keeps the slot |
| ExecutionDataManager.SameRootMatcher.constructor | modules/activiti-engine/src/main/java/org/activiti/engine/impl/persistence/entity/data/impl/MybatisExecutionDataManager.java:88-90 | the matcher starts with an empty slot |
| ExecutionDataManager.SameRootMatcher.PreProcess | modules/activiti-engine/src/main/java/org/activiti/engine/impl/persistence/entity/data/impl/MybatisExecutionDataManager.java:93-117 | the two scanning loops fill the slot with the node LocatedFindsRequested describes |
| ExecutionDataManager.SameRootMatcher.IsRetained | modules/activiti-engine/src/main/java/org/activiti/engine/impl/persistence/entity/data/impl/MybatisExecutionDataManager.java:120-123 | keeps exactly what the root-id query keeps for the reference node's root id; it requires a filled slot |
| ExecutionDataManager.SharesRootGroupsOneTree | modules/activiti-engine/src/main/java/org/activiti/engine/impl/persistence/entity/data/impl/MybatisExecutionDataManager.java:120-123 | any two retained candidates share one non-null root id |
| ExecutionDataManager.SameRoot | modules/activiti-engine/src/main/java/org/activiti/engine/impl/persistence/entity/data/impl/MybatisExecutionDataManager.java:88-124 | the eager matcher as a retention-protocol value: preProcess leaves in the slot the node the scanning loops find, and isRetained compares root ids with that node |
| ExecutionDataManager.SameRootRetained | modules/activiti-engine/src/main/java/org/activiti/engine/impl/persistence/entity/data/impl/MybatisExecutionDataManager.java:93-123 | once preProcess has found the requested node, a cached candidate is used exactly when it shares that node's non-null root id |
| ExecutionDataManager.FetchedExecutionFromCache | modules/activiti-engine/src/main/java/org/activiti/engine/impl/persistence/entity/data/impl/MybatisExecutionDataManager.java:80-84 | on a cache hit, the cached instance is returned whatever the fetch would have returned |
| ExecutionDataManager.FetchedExecutionFromRows | modules/activiti-engine/src/main/java/org/activiti/engine/impl/persistence/entity/data/impl/MybatisExecutionDataManager.java:127-132 | on a miss, the first fetched row with the id is returned, and null exactly when no row has it |
| ExecutionDataManager.NullArgumentRetainsNothing | modules/activiti-engine/src/main/java/org/activiti/engine/impl/persistence/entity/data/impl/MybatisExecutionDataManager.java:175-225 | a null query argument retains nothing, since a null field never equals it |
| ExecutionDataManager.ParentAndActivityIdsMonotone | modules/activiti-engine/src/main/java/org/activiti/engine/impl/persistence/entity/data/impl/MybatisExecutionDataManager.java:177-180 | more activity ids never drop an execution, and an empty set keeps none |
| ExecutionDataManager.RootQueryAgreesWithEagerMatcher | modules/activiti-engine/src/main/java/org/activiti/engine/impl/persistence/entity/data/impl/MybatisExecutionDataManager.java:211-213 | the root-id query, given the reference node's root id, keeps exactly what the eager matcher keeps |
| ExecutionDataManager.AdapterOverriding | modules/activiti-engine/src/main/java/org/activiti/engine/impl/persistence/entity/data/impl/MybatisExecutionDataManager.java:175-182 | an anonymous adapter subclass keeps the empty preProcess and uses its own predicate as isRetained |
| ExecutionDataManager.ParentAndActivityIdsRetained | modules/activiti-engine/src/main/java/org/activiti/engine/impl/persistence/entity/data/impl/MybatisExecutionDataManager.java:175-182 | a cached execution is used iff its parent id is the given one and its non-null activity id is in the given set |
| ExecutionDataManager.RootProcessInstanceIdRetained | modules/activiti-engine/src/main/java/org/activiti/engine/impl/persistence/entity/data/impl/MybatisExecutionDataManager.java:209-214 | a cached execution is used iff its root process instance id is the given non-null id |
| ExecutionDataManager.ProcessInstanceIdRetained | modules/activiti-engine/src/main/java/org/activiti/engine/impl/persistence/entity/data/impl/MybatisExecutionDataManager.java:219-224 | a cached execution is used iff its process instance id is the given non-null id |
| ExecutionDataManager.InactiveMatcherAsWritten | modules/activiti-engine/src/main/java/org/activiti/engine/impl/persistence/entity/data/impl/MybatisExecutionDataManager.java:277-281 | as written, the inactive-execution matchers keep the adapter's always-false isRetained |
| ExecutionDataManager.InactiveMatcherAsWrittenRetainsNothing | modules/activiti-engine/src/main/java/org/activiti/engine/impl/persistence/entity/data/impl/MybatisExecutionDataManager.java:273-308 | as written, the three inactive-execution queries use no cached execution |
| ExecutionDataManager.InactiveMatcherAsWrittenDropsMatch | modules/activiti-engine/src/main/java/org/activiti/engine/impl/persistence/entity/data/impl/MybatisExecutionDataManager.java:277-281 | an inactive cached execution in the requested activity is accepted by the declared predicate and still dropped |
| ExecutionDataManager.InactiveMatcher | modules/activiti-engine/src/main/java/org/activiti/engine/impl/persistence/entity/data/impl/MybatisExecutionDataManager.java:278-279 | the corrected matcher retains by the declared one-argument predicate |
| ExecutionDataManager.InactiveMatcherRetains | modules/activiti-engine/src/main/java/org/activiti/engine/impl/persistence/entity/data/impl/MybatisExecutionDataManager.java:273-308 | with the correction, a cached execution is used exactly when it is inactive and the declared predicate accepts it |
| ExecutionDataManager.PageWindow | modules/activiti-engine/src/main/java/org/activiti/engine/impl/persistence/entity/data/impl/MybatisExecutionDataManager.java:246-259 | the result is the contiguous slice from firstResult of length min(maxResults, L − firstResult); it is empty for a null or empty list or an offset past the end |
| ExecutionDataManager.PageWindowsConcatenate | modules/activiti-engine/src/main/java/org/activiti/engine/impl/persistence/entity/data/impl/MybatisExecutionDataManager.java:246-259 | two adjacent windows together are the window spanning both |
| ExecutionDataManager.PageWindowBounds | modules/activiti-engine/src/main/java/org/activiti/engine/impl/persistence/entity/data/impl/MybatisExecutionDataManager.java:246-259 | a window holds at most maxResults items, and none when it starts at or past the end |
| ExecutionDataManager.MybatisExecutionDataManager.constructor | modules/activiti-engine/src/main/java/org/activiti/engine/impl/persistence/entity/data/impl/MybatisExecutionDataManager.java:52-55 | the eager flag is taken from the configuration |
| ExecutionDataManager.MybatisExecutionDataManager.FindByIdAndFetchExecutionTree | modules/activiti-engine/src/main/java/org/activiti/engine/impl/persistence/entity/data/impl/MybatisExecutionDataManager.java:78-133 | returns the cached instance on a hit, else the first fetched row with the id, else None |
| ExecutionDataManager.MybatisExecutionDataManager.FindById | modules/activiti-engine/src/main/java/org/activiti/engine/impl/persistence/entity/data/impl/MybatisExecutionDataManager.java:70-76 | eager mode answers with the tree-fetching lookup; non-eager mode answers with the inherited store lookup |
| ExecutionDataManager.MybatisExecutionDataManager.FindSubProcessInstanceBySuperExecutionIdPlan | modules/activiti-engine/src/main/java/org/activiti/engine/impl/persistence/entity/data/impl/MybatisExecutionDataManager.java:136-146 | in eager mode the tree of the super execution is fetched first, and then the entity is looked up; in non-eager mode the entity lookup is the only step. The lookup runs selectSubProcessInstanceBySuperExecutionId with the super execution id and the sub-process matcher, passing the negated eager flag |
| ExecutionDataManager.MybatisExecutionDataManager.FindChildExecutionsByParentExecutionIdPlan | modules/activiti-engine/src/main/java/org/activiti/engine/impl/persistence/entity/data/impl/MybatisExecutionDataManager.java:149-156 | in eager mode the tree is fetched, and the by-parent matcher is then applied to the cache; in non-eager mode the only step is the list statement selectExecutionsByParentExecutionId, with the parent id, that matcher and the flag true |
| ExecutionDataManager.MybatisExecutionDataManager.FindChildExecutionsByProcessInstanceIdPlan | modules/activiti-engine/src/main/java/org/activiti/engine/impl/persistence/entity/data/impl/MybatisExecutionDataManager.java:159-166 | in eager mode the tree is fetched, and the by-process-instance matcher is then applied to the cache; in non-eager mode the only step is the list statement selectChildExecutionsByProcessInstanceId, with the instance id, that matcher and the flag true |
| ExecutionDataManager.StructuralQueriesByMode | modules/activiti-engine/src/main/java/org/activiti/engine/impl/persistence/entity/data/impl/MybatisExecutionDataManager.java:136-166 | after the fetch, eager mode answers the child queries from the cache with no scoped store query; non-eager mode never fetches the tree; both modes apply the same matcher to the same argument |
| ExecutionDataManager.MybatisExecutionDataManager.FindProcessInstanceAndVariablesByQueryCriteria | modules/activiti-engine/src/main/java/org/activiti/engine/impl/persistence/entity/data/impl/MybatisExecutionDataManager.java:229-260 | an invalid window returns the empty list without running the statement and leaves the query alone. Otherwise the statement runs once, the query is reset to 0 and 20000, and the result is the requested window of the fetched list |
| ExecutionDataManager.MybatisExecutionDataManager.UpdateProcessInstanceLockTime | modules/activiti-engine/src/main/java/org/activiti/engine/impl/persistence/entity/data/impl/MybatisExecutionDataManager.java:342-352 | fails with an optimistic-locking error exactly when no row was updated |
| ExecutionDataManager.MybatisExecutionDataManager.ClearProcessInstanceLockTime | modules/activiti-engine/src/main/java/org/activiti/engine/impl/persistence/entity/data/impl/MybatisExecutionDataManager.java:355-359 | always succeeds, whatever the count |

## Left out

**Storage and hidden helpers**

- SQL execution is left out. Every statement the manager runs is store I/O: the criteria and native queries, their counts, the tenant reassignment, the event-scope lookup and the process-instance-ids lookup. Where a result feeds the modelled logic, it is an input:
  - the fetched tree rows;
  - the inherited store lookup;
  - the with-variables select;
  - the affected-row counts.
- The data-access helpers `getList`, `getEntity` and `getListFromCache`, and the entity cache classes, are not part of this model. Consequences:
  - The merge of database rows and retained cached entities is not modelled. The dispatch is stated as a plan of data-access steps, and the cached side of the merge as `RetainedCachedEntities`.
  - The entity cache lookup of the eager fetch is a `map<string, Execution>`.
- Mode equivalence is not proved: eager and non-eager queries returning the same set of ids depends on the hidden merge. StructuralQueriesByMode only shows that both modes use the same matcher with the same argument.
- The matcher classes the manager shares are not part of this model; the plan steps name them only: by parent execution id, by process instance id, and sub-process instance by super execution id.
- `create` and `getManagedEntityClass` are left out: they only allocate an object or name a class.

**Bit flags**

- The bitmask helper is not part of this model. Mask, IsBitOn and SetBit assume that bit number n (1..32) is the mask 1 << (n − 1) of a 32-bit int.
- ExecutionCachedEntityStateUtil.SetBit: states only that the addressed bit ends up as requested, not that every other bit is unchanged. Isolation among the four flags is proved for the corrected setters instead.

**Execution data and object graph**

- `Date` lock and expiration values are left out. They pass straight to storage.
- Object identity and aliasing are left out. Executions are values, so an in-memory change to a cached execution cannot be seen through another reference.
- Null ids are left out. An execution's own id is a string, never null.
- The `activityIds` collection is a set and never null. The source would throw on a null collection.
- ExecutionDataManager.SameRootMatcher.IsRetained: requires the slot to be filled. The source throws a NullPointerException when `preProcess` found nothing.
- ExecutionTreeCache.WalkUpTo: root finding gets a budget of one step more than the graph has executions. A cyclic ancestry, where the source would loop forever, ends in `WalkBoundReached` instead. WalkBoundReachedRevisits shows this outcome arises only when the walk visits an execution twice.
- ExecutionTreeCache.WalkUpTo: an ancestor missing from the graph becomes `MissingAncestor`. The source would dereference null.

**Concurrency and language features**

- Concurrency is left out. Races between sessions over the lock update are not modelled; only the single-call rule "no row updated means failure" is.
- Exceptions become error values:
  - the invalid-execution exception is `Err(InvalidExecution)`;
  - the optimistic-locking exception is `Fail(OptimisticLockingFailure(..))`.
- Interfaces and abstract classes become a datatype of function values. The state that `preProcess` writes into a matcher is passed to `isRetained` explicitly.
- The query's paging fields are unbounded integers. Given the guard, the source's arithmetic on them cannot overflow.

**Choices where the expected behaviour and the code part (the code is followed)**

- Root finding: one would expect `put` to cache the tree around the execution from its root down. The code's loop returns its argument instead (finding 1), and the model follows the code.
- The eager lookup: one might expect the requested execution to be read back from the newly filled cache. The code picks it out of the list the fetch returned, and the model follows the code.

## Findings

| source | as written | input that shows it | evidently intended | confidence | as-written member | corrected member |
|---|---|---|---|---|---|---|
| modules/activiti-engine/src/main/java/org/activiti/engine/impl/persistence/cache/ExecutionTreeCacheImpl.java:36 | the loop runs while the current id differs from the start's own id, which is never true on entry, so the argument is returned as root | execution C3 of ScenarioC3, a child of sub-process instance S under root R: the result is C3, not R | walk up until the execution whose id is the start's root process instance id | medium, not executed | ExecutionTreeCache.ScenarioRootAsWritten | ExecutionTreeCache.ExecutionTreeCacheImpl.FindRootProcessInstanceExecutionIntended |
| modules/activiti-engine/src/main/java/org/activiti/engine/impl/persistence/cache/ExecutionTreeCacheImpl.java:54-68 | addChildren stores what lies below the node it is given, never the node itself, so put never caches the root | any root: its id stays absent unless it was cached before | store the root and then everything below it | low, not executed | ExecutionTreeCache.AddChildrenSkipsItsArgument | ExecutionTreeCache.ExecutionTreeCacheImpl.PutIntended |
| modules/activiti-engine/src/main/java/org/activiti/engine/impl/util/ExecutionCachedEntityStateUtil.java:32 | the mask computed by setBit is discarded, so no setter changes the entity | an execution with state 0: after setHasTasks(e, true), hasTasks(e) is still false | store the new mask in the execution's cachedEntityState | high, not executed | ExecutionCachedEntityStateUtil.SetHasTasksIsLost | ExecutionCachedEntityStateUtil.SetHasTasksIntended |
| modules/activiti-engine/src/main/java/org/activiti/engine/impl/persistence/entity/data/impl/MybatisExecutionDataManager.java:278 | the three inactive-execution matchers declare isRetained(entity), an overload that never overrides isRetained(entity, param), so they retain nothing | an inactive cached execution in activity A, queried for activity A: the predicate accepts it and the query drops it | override the two-argument isRetained with the declared predicate | high, not executed | ExecutionDataManager.InactiveMatcherAsWrittenDropsMatch | ExecutionDataManager.InactiveMatcher |
