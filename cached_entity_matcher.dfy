/**
 * The retention contract a query uses to decide which cached executions stand in for database
 * rows (CachedEntityMatcher, its adapter, and the single-predicate SingleCachedEntityMatcher).
 *
 * The interface becomes a datatype of two function values. A matcher instance carries state of
 * type S: preProcess sees the database pool and the cached pool and returns nothing, so all it
 * can do is produce the next state; isRetained decides for one entity and one query parameter,
 * reading that state.
 */
module CachedEntityMatchers {
  import opened Wrappers
  import opened Executions

  /** A candidate collection handed to preProcess; the source's collections may be null. */
  type Pool = Option<seq<Execution>>

  function PoolItems(p: Pool): (s: seq<Execution>)
    ensures p.None? ==> s == []
    ensures p.Some? ==> s == p.value
  {
    if p.Some? then p.value else []
  }

  datatype CachedEntityMatcher<!S, -P> = CachedEntityMatcher(
    preProcess: (S, Pool, Pool) -> S,      // (state, databaseEntities, cachedEntities) -> next state
    isRetained: (S, Execution, P) -> bool) // (state, entity, param)

  /** The entries of s the predicate keeps, in their order. */
  function Filter(s: seq<Execution>, keep: Execution -> bool): seq<Execution>
    decreases |s|
  {
    if s == [] then []
    else (if keep(s[0]) then [s[0]] else []) + Filter(s[1..], keep)
  }

  lemma {:induction false} FilterMembers(s: seq<Execution>, keep: Execution -> bool, x: Execution)
    ensures x in Filter(s, keep) <==> x in s && keep(x)
    decreases |s|
  {
    if s != [] {
      FilterMembers(s[1..], keep, x);
      assert x in s <==> x == s[0] || x in s[1..] by {
        assert s == [s[0]] + s[1..];
      }
    }
  }

  lemma {:induction false} FilterNothing(s: seq<Execution>, keep: Execution -> bool)
    requires forall x :: x in s ==> !keep(x)
    ensures Filter(s, keep) == []
    decreases |s|
  {
    if s != [] {
      assert s[0] in s;
      assert forall x :: x in s[1..] ==> x in s;
      FilterNothing(s[1..], keep);
    }
  }

  /** The state a matcher holds after its one preProcess call over both pools. */
  function PreProcessed<S, P>(m: CachedEntityMatcher<S, P>, state: S, databaseEntities: Pool, cachedEntities: Pool): S
  {
    m.preProcess(state, databaseEntities, cachedEntities)
  }

  /**
   * The two-phase protocol: preProcess once over both pools, then ask isRetained for each cached
   * entity with the state preProcess left; a kept entity is used instead of the database row.
   */
  function RetainedCachedEntities<S, P>(m: CachedEntityMatcher<S, P>, state: S,
                                        databaseEntities: Pool, cachedEntities: Pool, param: P): seq<Execution>
  {
    var s := PreProcessed(m, state, databaseEntities, cachedEntities);
    Filter(PoolItems(cachedEntities), e => m.isRetained(s, e, param))
  }

  /** A cached entity is kept exactly when isRetained holds of it in the preprocessed state. */
  lemma RetainedCachedEntitiesMembers<S, P>(m: CachedEntityMatcher<S, P>, state: S,
                                            databaseEntities: Pool, cachedEntities: Pool, param: P, x: Execution)
    ensures x in RetainedCachedEntities(m, state, databaseEntities, cachedEntities, param)
        <==> x in PoolItems(cachedEntities)
             && m.isRetained(PreProcessed(m, state, databaseEntities, cachedEntities), x, param)
  {
    var s := PreProcessed(m, state, databaseEntities, cachedEntities);
    FilterMembers(PoolItems(cachedEntities), e => m.isRetained(s, e, param), x);
  }

  /** CachedEntityMatcherAdapter: an empty preProcess and an isRetained that is always false. */
  function Adapter<S(!new), P(!new)>(): (m: CachedEntityMatcher<S, P>)
    ensures forall s: S, d: Pool, c: Pool :: m.preProcess(s, d, c) == s
    ensures forall s: S, e: Execution, p: P :: !m.isRetained(s, e, p)
  {
    CachedEntityMatcher((s, d, c) => s, (s, e, p) => false)
  }

  /** The adapter with only preProcess overridden: isRetained stays the adapter's. */
  function WithPreProcess<S(!new), P(!new)>(preProcess: (S, Pool, Pool) -> S): (m: CachedEntityMatcher<S, P>)
    ensures m.preProcess == preProcess
    ensures forall s: S, e: Execution, p: P :: !m.isRetained(s, e, p)
  {
    CachedEntityMatcher(preProcess, Adapter<S, P>().isRetained)
  }

  /** preProcess applied n times in a row to the same pools. */
  function PreProcessTimes<S, P>(m: CachedEntityMatcher<S, P>, state: S, databaseEntities: Pool, cachedEntities: Pool, n: nat): S
    decreases n
  {
    if n == 0 then state
    else m.preProcess(PreProcessTimes(m, state, databaseEntities, cachedEntities, n - 1), databaseEntities, cachedEntities)
  }

  /** The adapter's preProcess accepts any pools, null ones included, and never changes the state. */
  lemma {:induction false} AdapterPreProcessIdempotent<S(!new), P(!new)>(state: S, databaseEntities: Pool, cachedEntities: Pool, n: nat)
    ensures PreProcessTimes(Adapter<S, P>(), state, databaseEntities, cachedEntities, n) == state
    decreases n
  {
    if n > 0 {
      AdapterPreProcessIdempotent<S, P>(state, databaseEntities, cachedEntities, n - 1);
    }
  }

  /**
   * A matcher that does not override the two-argument isRetained keeps no cached entity,
   * whatever its preProcess does.
   */
  lemma WithoutIsRetainedOverrideRetainsNothing<S(!new), P(!new)>(preProcess: (S, Pool, Pool) -> S, state: S,
                                                      databaseEntities: Pool, cachedEntities: Pool, param: P)
    ensures RetainedCachedEntities(WithPreProcess<S, P>(preProcess), state, databaseEntities, cachedEntities, param) == []
  {
    var m := WithPreProcess<S, P>(preProcess);
    var s := PreProcessed(m, state, databaseEntities, cachedEntities);
    FilterNothing(PoolItems(cachedEntities), e => m.isRetained(s, e, param));
  }

  /** SingleCachedEntityMatcher: one decision per entity and query parameter, no preProcess phase. */
  type SingleCachedEntityMatcher<-P> = (Execution, P) -> bool

  function SingleRetained<P>(m: SingleCachedEntityMatcher<P>, cachedEntities: seq<Execution>, param: P): seq<Execution>
  {
    Filter(cachedEntities, e => m(e, param))
  }

  /**
   * With no cross-candidate state, whether an entity is kept does not depend on which other
   * candidates share its pool.
   */
  lemma SingleRetentionIgnoresPool<P>(m: SingleCachedEntityMatcher<P>, pool1: seq<Execution>, pool2: seq<Execution>,
                                      param: P, x: Execution)
    requires x in pool1 && x in pool2
    ensures x in SingleRetained(m, pool1, param) <==> x in SingleRetained(m, pool2, param)
  {
    FilterMembers(pool1, e => m(e, param), x);
    FilterMembers(pool2, e => m(e, param), x);
  }
}
