/**
 * The execution-tree cache of one unit of work: an id -> execution map that `put` fills with the
 * tree around a given execution, and `get` reads without ever falling back to storage.
 *
 * Upward references of the object graph (getProcessInstance(), getSuperExecution(), getParent())
 * are given as `links`, a map from execution id to execution.
 */
module ExecutionTreeCache {
  import opened Wrappers
  import opened Executions

  /** Why a walk towards an ancestor stops without reaching it. */
  datatype WalkError =
    | InvalidExecution             // no process instance, super execution or parent id
    | MissingAncestor(id: string)  // an ancestor edge names an execution the graph does not hold
    | WalkBoundReached             // the step budget ran out (under root finding's budget, only on an ancestry that revisits an execution)

  /** The executions stored under their ids, in order, a later one overwriting an earlier one. */
  function InsertAll(m: map<string, Execution>, s: seq<Execution>): map<string, Execution>
    decreases |s|
  {
    if s == [] then m else InsertAll(m[s[0].id := s[0]], s[1..])
  }

  function Ids(s: seq<Execution>): set<string>
  {
    set x | x in s :: x.id
  }

  /** No two entries of s share an id (the cache-uniqueness invariant of a well-formed tree). */
  ghost predicate UniqueIds(s: seq<Execution>)
  {
    forall i, j :: 0 <= i < j < |s| ==> s[i].id != s[j].id
  }

  /**
   * The walk of the root-finding loop: stop when the current execution has the target id,
   * otherwise follow the ancestor edge AncestorEdgeOf chooses. `fuel` bounds the number of steps.
   */
  function Walk(current: Execution, target: Option<string>, links: map<string, Execution>, fuel: nat)
    : Result<Execution, WalkError>
    decreases fuel
  {
    if Some(current.id) == target then Ok(current)
    else if fuel == 0 then Err(WalkBoundReached)
    else
      match AncestorEdgeOf(current)
      case NoAncestor => Err(InvalidExecution)
      case ToProcessInstance(t) => if t in links then Walk(links[t], target, links, fuel - 1) else Err(MissingAncestor(t))
      case ToSuperExecution(t) => if t in links then Walk(links[t], target, links, fuel - 1) else Err(MissingAncestor(t))
      case ToParent(t) => if t in links then Walk(links[t], target, links, fuel - 1) else Err(MissingAncestor(t))
  }

  /** A walk that succeeds ends on an execution with the target id, the start or one of the graph's. */
  lemma {:induction false} WalkReachesTarget(current: Execution, target: Option<string>, links: map<string, Execution>, fuel: nat)
    requires Walk(current, target, links, fuel).Ok?
    ensures var r := Walk(current, target, links, fuel).value;
      Some(r.id) == target && (r == current || r in links.Values)
    decreases fuel
  {
    if Some(current.id) != target {
      var t := AncestorEdgeOf(current).target;
      WalkReachesTarget(links[t], target, links, fuel - 1);
    }
  }

  /** The ids of the ancestors Walk moves to, in order, until it stops. */
  function Trail(current: Execution, target: Option<string>, links: map<string, Execution>, fuel: nat): seq<string>
    decreases fuel
  {
    if Some(current.id) == target || fuel == 0 then []
    else
      var edge := AncestorEdgeOf(current);
      if edge.NoAncestor? || edge.target !in links then []
      else [edge.target] + Trail(links[edge.target], target, links, fuel - 1)
  }

  /** A walk that runs out of steps has moved once per step, each time to an execution of the graph. */
  lemma {:induction false} WalkBoundTrail(current: Execution, target: Option<string>, links: map<string, Execution>, fuel: nat)
    requires Walk(current, target, links, fuel) == Err(WalkBoundReached)
    ensures |Trail(current, target, links, fuel)| == fuel
    ensures forall k :: k in Trail(current, target, links, fuel) ==> k in links
    decreases fuel
  {
    if fuel > 0 {
      var t := AncestorEdgeOf(current).target;
      WalkBoundTrail(links[t], target, links, fuel - 1);
    }
  }

  /** A list of pairwise distinct ids has as many distinct elements as entries. */
  lemma {:induction false} DistinctIdsCount(ks: seq<string>)
    requires forall i, j :: 0 <= i < j < |ks| ==> ks[i] != ks[j]
    ensures |set k | k in ks| == |ks|
    decreases |ks|
  {
    if ks != [] {
      DistinctIdsCount(ks[1..]);
      assert (set k | k in ks) == {ks[0]} + (set k | k in ks[1..]);
      assert ks[0] !in ks[1..];
    }
  }

  /**
   * With one step more than the graph has executions, running out of steps means the walk
   * visited some execution twice: an acyclic ancestry always ends in the target or an error
   * that names why.
   */
  lemma WalkBoundReachedRevisits(start: Execution, target: Option<string>, links: map<string, Execution>)
    requires Walk(start, target, links, |links| + 1) == Err(WalkBoundReached)
    ensures var ks := Trail(start, target, links, |links| + 1);
      exists i, j :: 0 <= i < j < |ks| && ks[i] == ks[j]
  {
    var ks := Trail(start, target, links, |links| + 1);
    WalkBoundTrail(start, target, links, |links| + 1);
    if forall i, j :: 0 <= i < j < |ks| ==> ks[i] != ks[j] {
      DistinctIdsCount(ks);
      assert (set k | k in ks) <= links.Keys;
      SubsetCount((set k | k in ks), links.Keys);
      assert false;
    }
  }

  lemma {:induction false} SubsetCount(a: set<string>, b: set<string>)
    requires a <= b
    ensures |a| <= |b|
    decreases |a|
  {
    if a != {} {
      var x :| x in a;
      SubsetCount(a - {x}, b - {x});
    }
  }

  /** A chain from a start outside the graph to an execution without ancestor edges is reported as invalid. */
  lemma ShortChainReportsInvalidExecution()
    ensures var a := Execution("a", None, None, None, Some("r"), None, true, 0, NullList, None);
            var e := Execution("e", None, Some("a"), None, Some("r"), None, true, 0, NullList, None);
            Walk(e, Some("r"), map["a" := a], |map["a" := a]| + 1) == Err(InvalidExecution)
  {
    var a := Execution("a", None, None, None, Some("r"), None, true, 0, NullList, None);
    assert |map["a" := a]| == 1;
    assert AncestorEdgeOf(a) == NoAncestor;
  }

  /**
   * The root-finding loop over an arbitrary target id: while the current execution does not
   * carry the target id, move along the first applicable ancestor edge.
   */
  method WalkUpTo(start: Execution, target: Option<string>, links: map<string, Execution>, fuel: nat)
    returns (r: Result<Execution, WalkError>)
    ensures r == Walk(start, target, links, fuel)
  {
    var current := start;
    var remaining := fuel;
    while Some(current.id) != target
      invariant Walk(current, target, links, remaining) == Walk(start, target, links, fuel)
      decreases remaining
    {
      if remaining == 0 {
        return Err(WalkBoundReached);
      }
      var edge := AncestorEdgeOf(current);
      if edge.NoAncestor? {
        return Err(InvalidExecution);
      }
      if edge.target !in links {
        return Err(MissingAncestor(edge.target));
      }
      current := links[edge.target];
      remaining := remaining - 1;
    }
    return Ok(current);
  }

  lemma {:induction false} InsertAllAppend(m: map<string, Execution>, a: seq<Execution>, b: seq<Execution>)
    ensures InsertAll(m, a + b) == InsertAll(InsertAll(m, a), b)
    decreases |a|
  {
    if a != [] {
      assert (a + b)[0] == a[0] && (a + b)[1..] == a[1..] + b;
      InsertAllAppend(m[a[0].id := a[0]], a[1..], b);
    } else {
      assert a + b == b;
    }
  }

  /** Inserting a sequence adds exactly its ids and removes nothing. */
  lemma {:induction false} InsertAllKeys(m: map<string, Execution>, s: seq<Execution>)
    ensures InsertAll(m, s).Keys == m.Keys + Ids(s)
    decreases |s|
  {
    if s != [] {
      InsertAllKeys(m[s[0].id := s[0]], s[1..]);
      assert Ids(s) == {s[0].id} + Ids(s[1..]) by {
        assert forall x :: x in s <==> x == s[0] || x in s[1..] by {
          assert s == [s[0]] + s[1..];
        }
      }
    }
  }

  /** An entry whose id the sequence does not mention keeps its old value. */
  lemma {:induction false} InsertAllKeepsOthers(m: map<string, Execution>, s: seq<Execution>, k: string)
    requires k !in Ids(s)
    ensures (k in InsertAll(m, s) <==> k in m) && (k in m ==> InsertAll(m, s)[k] == m[k])
    decreases |s|
  {
    if s != [] {
      assert s[0] in s;
      assert forall x :: x in s[1..] ==> x in s;
      InsertAllKeepsOthers(m[s[0].id := s[0]], s[1..], k);
    }
  }

  /** With unique ids every inserted execution is found under its own id. */
  lemma {:induction false} InsertAllStores(m: map<string, Execution>, s: seq<Execution>, x: Execution)
    requires UniqueIds(s) && x in s
    ensures x.id in InsertAll(m, s) && InsertAll(m, s)[x.id] == x
    decreases |s|
  {
    if x == s[0] {
      assert x.id !in Ids(s[1..]) by {
        forall y | y in s[1..] ensures y.id != x.id {
          var j :| 0 <= j < |s[1..]| && s[1..][j] == y;
          assert s[j + 1] == y;
        }
      }
      InsertAllKeepsOthers(m[x.id := x], s[1..], x.id);
    } else {
      assert UniqueIds(s[1..]) by {
        forall i, j | 0 <= i < j < |s[1..]| ensures s[1..][i].id != s[1..][j].id {
          assert s[1..][i] == s[i + 1] && s[1..][j] == s[j + 1];
        }
      }
      InsertAllStores(m[s[0].id := s[0]], s[1..], x);
    }
  }

  /** Inserting a sequence is a map union with what the sequence alone writes. */
  lemma {:induction false} InsertAllIsUnion(m: map<string, Execution>, s: seq<Execution>)
    ensures InsertAll(m, s) == m + InsertAll(map[], s)
    decreases |s|
  {
    if s != [] {
      InsertAllIsUnion(m[s[0].id := s[0]], s[1..]);
      InsertAllIsUnion(map[s[0].id := s[0]], s[1..]);
    }
  }

  /** Storing the same sequence twice is the same as storing it once. */
  lemma InsertAllIdempotent(m: map<string, Execution>, s: seq<Execution>)
    ensures InsertAll(InsertAll(m, s), s) == InsertAll(m, s)
  {
    InsertAllIsUnion(m, s);
    InsertAllIsUnion(InsertAll(m, s), s);
  }

  class ExecutionTreeCacheImpl {
    /** cachedExecutions: execution id -> execution. */
    var cachedExecutions: map<string, Execution>

    constructor ()
      ensures cachedExecutions == map[]
    {
      cachedExecutions := map[];
    }

    /**
     * `put` as written: find the root of e, then store everything below that root.
     * Since root finding returns e itself, this stores exactly the descendants of e.
     */
    method Put(e: Execution, links: map<string, Execution>)
      modifies this
      ensures cachedExecutions == InsertAll(old(cachedExecutions), Descendants(e))
    {
      var root := FindRootProcessInstanceExecution(e, links);
      AddChildren(root);
    }

    /**
     * Root finding as written: the loop runs while the current execution's id differs from the
     * id of the execution it started at, which is false on entry, so the argument comes back.
     */
    method FindRootProcessInstanceExecution(e: Execution, links: map<string, Execution>)
      returns (r: Execution)
      ensures r == e
    {
      var walked := WalkUpTo(e, Some(e.id), links, |links| + 1);
      r := walked.value;
    }

    /**
     * Stores every child of e, each followed by everything below it, then the sub-process
     * instance of e followed by everything below it; e itself is not stored.
     */
    method AddChildren(e: Execution)
      modifies this
      ensures cachedExecutions == InsertAll(old(cachedExecutions), Descendants(e))
      decreases e
    {
      if e.executions.Items? {
        var childExecutions := e.executions.items;
        for i := 0 to |childExecutions|
          invariant cachedExecutions == InsertAll(old(cachedExecutions), DescendantsUpTo(e, i))
        {
          var child := childExecutions[i];
          ghost var before := cachedExecutions;
          cachedExecutions := cachedExecutions[child.id := child];
          AddChildren(child);
          InsertAllAppend(before, [child], Descendants(child));
          InsertAllAppend(old(cachedExecutions), DescendantsUpTo(e, i), [child] + Descendants(child));
          assert DescendantsUpTo(e, i + 1) == DescendantsUpTo(e, i) + ([child] + Descendants(child));
        }
      }
      ghost var afterChildren := cachedExecutions;
      assert afterChildren == InsertAll(old(cachedExecutions), DescendantsUpTo(e, |Children(e)|));
      var subProcessInstance := e.subProcessInstance;
      if subProcessInstance.Some? {
        var sub := subProcessInstance.value;
        cachedExecutions := cachedExecutions[sub.id := sub];
        AddChildren(sub);
        InsertAllAppend(afterChildren, [sub], Descendants(sub));
        InsertAllAppend(old(cachedExecutions), DescendantsUpTo(e, |Children(e)|), [sub] + Descendants(sub));
      } else {
        assert Descendants(e) == DescendantsUpTo(e, |Children(e)|);
      }
    }

    /** A pure lookup: the cached execution for the id, or None if it was never stored. */
    function Get(executionId: string): (r: Option<Execution>)
      reads this
      ensures r.Some? <==> executionId in cachedExecutions
      ensures r.Some? ==> r.value == cachedExecutions[executionId]
    {
      if executionId in cachedExecutions then Some(cachedExecutions[executionId]) else None
    }

    /** Both are empty in the source: nothing is written back or cleared. */
    method Flush()
      ensures cachedExecutions == old(cachedExecutions)
    {
    }

    method Close()
      ensures cachedExecutions == old(cachedExecutions)
    {
    }

    /**
     * Root finding as evidently intended: walk up until the execution whose id is the start's
     * root process instance id is reached.
     */
    method FindRootProcessInstanceExecutionIntended(e: Execution, links: map<string, Execution>)
      returns (r: Result<Execution, WalkError>)
      ensures r == Walk(e, e.rootProcessInstanceId, links, |links| + 1)
      ensures r.Ok? ==> Some(r.value.id) == e.rootProcessInstanceId && (r.value == e || r.value in links.Values)
    {
      r := WalkUpTo(e, e.rootProcessInstanceId, links, |links| + 1);
      if r.Ok? {
        WalkReachesTarget(e, e.rootProcessInstanceId, links, |links| + 1);
      }
    }

    /** `put` as evidently intended: find the real root, store it, then everything below it. */
    method PutIntended(e: Execution, links: map<string, Execution>)
      returns (r: Result<Execution, WalkError>)
      modifies this
      ensures r == Walk(e, e.rootProcessInstanceId, links, |links| + 1)
      ensures r.Ok? ==> cachedExecutions == InsertAll(old(cachedExecutions), [r.value] + Descendants(r.value))
      ensures r.Err? ==> cachedExecutions == old(cachedExecutions)
    {
      r := FindRootProcessInstanceExecutionIntended(e, links);
      if r.Ok? {
        var root := r.value;
        cachedExecutions := cachedExecutions[root.id := root];
        AddChildren(root);
        InsertAllAppend(old(cachedExecutions), [root], Descendants(root));
      }
    }
  }

  /** As written, `put` never stores the execution it resolves as root (here: its argument). */
  lemma AddChildrenSkipsItsArgument(m: map<string, Execution>, e: Execution)
    requires UniqueIds([e] + Descendants(e))
    ensures e !in Descendants(e)
    ensures e.id in InsertAll(m, Descendants(e)) <==> e.id in m
  {
    if e in Descendants(e) {
      DescendantsAreLower(e, e);
    }
    assert e.id !in Ids(Descendants(e)) by {
      forall x | x in Descendants(e) ensures x.id != e.id {
        var j :| 0 <= j < |Descendants(e)| && Descendants(e)[j] == x;
        assert ([e] + Descendants(e))[0] == e && ([e] + Descendants(e))[j + 1] == x;
      }
    }
    InsertAllKeepsOthers(m, Descendants(e), e.id);
  }

  /**
   * Tree completeness of the intended `put`: the root and every execution reachable from it
   * are stored under their own ids, and no other id is added.
   */
  lemma IntendedPutStoresTree(m: map<string, Execution>, root: Execution, x: Execution)
    requires UniqueIds([root] + Descendants(root))
    requires x == root || Reachable(root, x)
    ensures var after := InsertAll(m, [root] + Descendants(root));
      x.id in after && after[x.id] == x
    ensures InsertAll(m, [root] + Descendants(root)).Keys == m.Keys + Ids([root] + Descendants(root))
  {
    DescendantsAreReachable(root, x);
    InsertAllStores(m, [root] + Descendants(root), x);
    InsertAllKeys(m, [root] + Descendants(root));
  }

  /* A tree root R with children C1, C2, where C2 spawned the sub-process instance S with child C3. */
  function ScenarioC3(): Execution { Execution("C3", Some("S"), Some("S"), None, Some("R"), Some("task"), true, 0, Items([]), None) }
  function ScenarioS(): Execution { Execution("S", None, Some("S"), Some("C2"), Some("R"), None, true, 0, Items([ScenarioC3()]), None) }
  function ScenarioC1(): Execution { Execution("C1", Some("R"), Some("R"), None, Some("R"), Some("task"), true, 0, Items([]), None) }
  function ScenarioC2(): Execution { Execution("C2", Some("R"), Some("R"), None, Some("R"), Some("call"), true, 0, Items([]), Some(ScenarioS())) }
  function ScenarioR(): Execution { Execution("R", None, Some("R"), None, Some("R"), None, true, 0, Items([ScenarioC1(), ScenarioC2()]), None) }

  function ScenarioLinks(): map<string, Execution>
  {
    map["R" := ScenarioR(), "C1" := ScenarioC1(), "C2" := ScenarioC2(), "S" := ScenarioS(), "C3" := ScenarioC3()]
  }

  /** As written, root finding from C3 returns C3, which is not the root process instance R. */
  lemma ScenarioRootAsWritten(fuel: nat)
    ensures Walk(ScenarioC3(), Some(ScenarioC3().id), ScenarioLinks(), fuel) == Ok(ScenarioC3())
    ensures ScenarioC3().rootProcessInstanceId != Some(ScenarioC3().id)
  {
  }

  /** As written, putting C3 stores nothing: C3 has no children and root finding stops at C3. */
  lemma ScenarioPutAsWritten(m: map<string, Execution>)
    ensures InsertAll(m, Descendants(ScenarioC3())) == m
  {
  }

  /** As intended, the walk from C3 goes C3 -> S (process instance) -> C2 (super execution) -> R. */
  lemma ScenarioWalkIntended(fuel: nat)
    requires fuel >= 3
    ensures Walk(ScenarioC3(), Some("R"), ScenarioLinks(), fuel) == Ok(ScenarioR())
  {
    var links := ScenarioLinks();
    assert Walk(ScenarioR(), Some("R"), links, fuel - 3) == Ok(ScenarioR());
    assert AncestorEdgeOf(ScenarioC2()) == ToProcessInstance("R");
    assert Walk(ScenarioC2(), Some("R"), links, fuel - 2) == Ok(ScenarioR());
    assert AncestorEdgeOf(ScenarioS()) == ToSuperExecution("C2");
    assert Walk(ScenarioS(), Some("R"), links, fuel - 1) == Ok(ScenarioR());
    assert AncestorEdgeOf(ScenarioC3()) == ToProcessInstance("S");
  }

  /** The depth-first order below R: C1, C2, then C2's sub-process instance S and its child C3. */
  lemma ScenarioDescendants()
    ensures Descendants(ScenarioR()) == [ScenarioC1(), ScenarioC2(), ScenarioS(), ScenarioC3()]
  {
    var root := ScenarioR();
    assert Descendants(ScenarioC3()) == [];
    assert Descendants(ScenarioS()) == DescendantsUpTo(ScenarioS(), 1);
    assert Descendants(ScenarioC2()) == [ScenarioS(), ScenarioC3()];
    assert Descendants(ScenarioC1()) == [];
    assert DescendantsUpTo(root, 1) == [ScenarioC1()];
    assert DescendantsUpTo(root, 2) == [ScenarioC1(), ScenarioC2(), ScenarioS(), ScenarioC3()];
  }

  /** As intended, putting C3 stores R, C1, C2, S and C3, and nothing else. */
  lemma ScenarioPutIntended(m: map<string, Execution>)
    ensures var root := ScenarioR();
      InsertAll(m, [root] + Descendants(root)).Keys == m.Keys + {"R", "C1", "C2", "S", "C3"}
  {
    var root := ScenarioR();
    ScenarioDescendants();
    var s := [root] + Descendants(root);
    assert s == [ScenarioR(), ScenarioC1(), ScenarioC2(), ScenarioS(), ScenarioC3()];
    InsertAllKeys(m, s);
    IdsOfFive(s);
  }

  lemma IdsOfFive(s: seq<Execution>)
    requires |s| == 5
    ensures Ids(s) == {s[0].id, s[1].id, s[2].id, s[3].id, s[4].id}
  {
    assert forall x :: x in s <==> x == s[0] || x == s[1] || x == s[2] || x == s[3] || x == s[4];
  }
}
