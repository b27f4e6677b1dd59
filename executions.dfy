/**
 * Execution entities as the persistence layer sees them: one node of a process-instance tree,
 * with its ids, its ordered child executions and at most one sub-process instance it spawned.
 */
module Executions {
  import opened Wrappers

  /** A Java `int` as stored in the entity (the cached-entity-state bitmask). */
  type Int32 = bv32

  /**
   * An execution node. Nullable references of the entity are Options; the child collection
   * itself may be null, which ExecutionList.NullList stands for.
   */
  datatype Execution = Execution(
    id: string,
    parentId: Option<string>,
    processInstanceId: Option<string>,
    superExecutionId: Option<string>,
    rootProcessInstanceId: Option<string>,
    activityId: Option<string>,
    isActive: bool,
    cachedEntityState: Int32,
    executions: ExecutionList,
    subProcessInstance: Option<Execution>)

  /** The (possibly null) list returned by getExecutions(). */
  datatype ExecutionList = NullList | Items(items: seq<Execution>)

  /** The child executions, with a null list read as empty. */
  function Children(e: Execution): (cs: seq<Execution>)
    ensures e.executions.NullList? ==> cs == []
    ensures e.executions.Items? ==> cs == e.executions.items
  {
    if e.executions.Items? then e.executions.items else []
  }

  /**
   * The node on the other side of an edge, where the edge is given by the flags of the node
   * itself: Reachable(e, x) holds when x is a child or the sub-process instance of e, or is
   * reachable from one of them.
   */
  ghost predicate Reachable(e: Execution, x: Execution)
    decreases e
  {
    (exists i :: 0 <= i < |Children(e)| && (Children(e)[i] == x || Reachable(Children(e)[i], x)))
    || (e.subProcessInstance.Some? && (e.subProcessInstance.value == x || Reachable(e.subProcessInstance.value, x)))
  }

  /**
   * The nodes below e in the order a depth-first walk meets them: each child followed by
   * everything below it, then the sub-process instance followed by everything below it.
   */
  function Descendants(e: Execution): seq<Execution>
    decreases e, 2
  {
    DescendantsUpTo(e, |Children(e)|)
    + (if e.subProcessInstance.Some? then [e.subProcessInstance.value] + Descendants(e.subProcessInstance.value) else [])
  }

  /** The part of Descendants(e) that comes from the first i children. */
  function DescendantsUpTo(e: Execution, i: nat): seq<Execution>
    requires i <= |Children(e)|
    decreases e, 1, i
  {
    if i == 0 then []
    else
      var c := Children(e)[i - 1];
      DescendantsUpTo(e, i - 1) + [c] + Descendants(c)
  }

  /** Height of the tree below e, counting sub-process-instance links as edges. */
  function Height(e: Execution): nat
    decreases e, 2
  {
    var h := HeightUpTo(e, |Children(e)|);
    if e.subProcessInstance.Some? && h < 1 + Height(e.subProcessInstance.value)
    then 1 + Height(e.subProcessInstance.value) else h
  }

  function HeightUpTo(e: Execution, i: nat): nat
    requires i <= |Children(e)|
    decreases e, 1, i
  {
    if i == 0 then 0
    else
      var h := HeightUpTo(e, i - 1);
      var c := Children(e)[i - 1];
      if h < 1 + Height(c) then 1 + Height(c) else h
  }

  /** Every node the depth-first order lists is strictly lower than e: e is never among them. */
  lemma {:induction false} DescendantsAreLower(e: Execution, x: Execution)
    requires x in Descendants(e)
    ensures Height(x) < Height(e) && x != e
    decreases e, 2
  {
    if x in DescendantsUpTo(e, |Children(e)|) {
      DescendantsUpToAreLower(e, |Children(e)|, x);
    } else {
      var s := e.subProcessInstance.value;
      if x != s {
        DescendantsAreLower(s, x);
      }
    }
  }

  lemma {:induction false} DescendantsUpToAreLower(e: Execution, i: nat, x: Execution)
    requires i <= |Children(e)| && x in DescendantsUpTo(e, i)
    ensures Height(x) < HeightUpTo(e, i) <= Height(e)
    decreases e, 1, i
  {
    var c := Children(e)[i - 1];
    HeightUpToBelowHeight(e, i);
    if x in DescendantsUpTo(e, i - 1) {
      DescendantsUpToAreLower(e, i - 1, x);
    } else if x != c {
      DescendantsAreLower(c, x);
    }
  }

  lemma {:induction false} HeightUpToBelowHeight(e: Execution, i: nat)
    requires i <= |Children(e)|
    ensures HeightUpTo(e, i) <= HeightUpTo(e, |Children(e)|) <= Height(e)
    decreases |Children(e)| - i
  {
    if i < |Children(e)| {
      HeightUpToBelowHeight(e, i + 1);
    }
  }

  /** The depth-first order lists exactly the reachable nodes. */
  lemma {:induction false} DescendantsAreReachable(e: Execution, x: Execution)
    ensures x in Descendants(e) <==> Reachable(e, x)
    decreases e, 2
  {
    DescendantsUpToAreReachable(e, |Children(e)|, x);
    if e.subProcessInstance.Some? {
      DescendantsAreReachable(e.subProcessInstance.value, x);
    }
  }

  lemma {:induction false} DescendantsUpToAreReachable(e: Execution, i: nat, x: Execution)
    requires i <= |Children(e)|
    ensures x in DescendantsUpTo(e, i)
        <==> exists j :: 0 <= j < i && (Children(e)[j] == x || Reachable(Children(e)[j], x))
    decreases e, 1, i
  {
    if i > 0 {
      var cs := Children(e);
      var c := cs[i - 1];
      DescendantsUpToAreReachable(e, i - 1, x);
      DescendantsAreReachable(c, x);
      var before := DescendantsUpTo(e, i - 1);
      assert DescendantsUpTo(e, i) == before + [c] + Descendants(c);
      assert x in DescendantsUpTo(e, i) <==> x in before || x == c || x in Descendants(c);
      if exists j :: 0 <= j < i && (cs[j] == x || Reachable(cs[j], x)) {
        var j :| 0 <= j < i && (cs[j] == x || Reachable(cs[j], x));
        if j < i - 1 {
          assert x in before;
        } else {
          assert x == c || x in Descendants(c);
        }
      }
      if x in before {
        var j :| 0 <= j < i - 1 && (cs[j] == x || Reachable(cs[j], x));
        assert 0 <= j < i;
      }
      if x == c || x in Descendants(c) {
        assert cs[i - 1] == x || Reachable(cs[i - 1], x);
      }
    }
  }

  /** The three ancestor edges of an execution, as root finding chooses among them. */
  datatype AncestorEdge =
    | ToProcessInstance(target: string)
    | ToSuperExecution(target: string)
    | ToParent(target: string)
    | NoAncestor

  /**
   * The ancestor edge a root walk follows from e, in the fixed priority order: the process
   * instance unless e is its own process instance, else the super execution unless it names e
   * itself, else the parent; NoAncestor when none applies (the "invalid execution" case).
   */
  function AncestorEdgeOf(e: Execution): (edge: AncestorEdge)
    ensures edge.ToProcessInstance? <==> e.processInstanceId.Some? && e.processInstanceId.value != e.id
    ensures edge.ToSuperExecution? <==>
      !edge.ToProcessInstance? && e.superExecutionId.Some? && e.superExecutionId.value != e.id
    ensures edge.ToParent? <==> !edge.ToProcessInstance? && !edge.ToSuperExecution? && e.parentId.Some?
    ensures edge.ToProcessInstance? ==> Some(edge.target) == e.processInstanceId
    ensures edge.ToSuperExecution? ==> Some(edge.target) == e.superExecutionId
    ensures edge.ToParent? ==> Some(edge.target) == e.parentId
    ensures !edge.NoAncestor? ==> edge.target != e.id || edge.ToParent?
  {
    if e.processInstanceId.Some? && e.processInstanceId.value != e.id then ToProcessInstance(e.processInstanceId.value)
    else if e.superExecutionId.Some? && e.superExecutionId.value != e.id then ToSuperExecution(e.superExecutionId.value)
    else if e.parentId.Some? then ToParent(e.parentId.value)
    else NoAncestor
  }
}
