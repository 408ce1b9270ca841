/** Worklist traversals over graphs that may have cycles: cascading cancellation, all children, and nested errors. */
module Worklists {
  import opened Wrappers
  import opened WorkflowRows

  // ---------------------------------------------------------------- parent edges

  /** From one of `roots` down parent edges: at least one edge, and every row after the root is in the table. */
  ghost predicate IsPath(t: Table, roots: set<Id>, p: seq<Id>) {
    && |p| >= 2 && p[0] in roots
    && (forall i :: 0 < i < |p| ==> p[i] in t && t[p[i]].parent == Some(p[i - 1]))
  }

  ghost predicate Descends(t: Table, roots: set<Id>, id: Id) {
    exists p :: IsPath(t, roots, p) && p[|p| - 1] == id
  }

  ghost function Descendants(t: Table, roots: set<Id>): set<Id> {
    set id | id in t && Descends(t, roots, id)
  }

  function DirectChildren(t: Table, ids: set<Id>): set<Id> {
    set id | id in t && t[id].parent.Some? && t[id].parent.value in ids
  }

  lemma ChildDescends(t: Table, roots: set<Id>, parent: Id, id: Id)
    requires id in t && t[id].parent == Some(parent) && (parent in roots || Descends(t, roots, parent))
    ensures Descends(t, roots, id)
  {
    if parent in roots {
      assert IsPath(t, roots, [parent, id]);
    } else {
      var p :| IsPath(t, roots, p) && p[|p| - 1] == parent;
      var q := p + [id];
      assert forall i :: 0 < i < |q| ==> q[i] in t && t[q[i]].parent == Some(q[i - 1]);
      assert IsPath(t, roots, q) && q[|q| - 1] == id;
    }
  }

  /** A set that takes in the children of the roots and of its own members has every descendant. */
  lemma {:induction false} ClosedHasPath(t: Table, roots: set<Id>, s: set<Id>, p: seq<Id>)
    requires DirectChildren(t, roots + s) <= s && IsPath(t, roots, p)
    ensures p[|p| - 1] in s
  {
    var last := p[|p| - 1];
    if |p| > 2 {
      ClosedHasPath(t, roots, s, p[..|p| - 1]);
    }
    assert last in DirectChildren(t, roots + s);
  }

  lemma ClosedIsExact(t: Table, roots: set<Id>, s: set<Id>)
    requires DirectChildren(t, roots + s) <= s
    requires forall id :: id in s ==> id in t && Descends(t, roots, id)
    ensures s == Descendants(t, roots)
  {
    forall id | id in t && Descends(t, roots, id) ensures id in s {
      var p :| IsPath(t, roots, p) && p[|p| - 1] == id;
      ClosedHasPath(t, roots, s, p);
    }
  }

  /** Exactly the rows below `id`, the row itself only if it is below itself. */
  method GetWorkflowChildren(t: Table, id: Id) returns (descendants: set<Id>)
    ensures descendants == Descendants(t, {id})
  {
    descendants := {};
    var frontier := {id};
    while frontier != {}
      invariant frontier <= {id} + descendants
      invariant forall d :: d in descendants ==> d in t && Descends(t, {id}, d)
      invariant DirectChildren(t, {id} + descendants - frontier) <= descendants
      decreases t.Keys - descendants, frontier
    {
      var children := DirectChildren(t, frontier);
      forall c | c in children ensures Descends(t, {id}, c) {
        ChildDescends(t, {id}, t[c].parent.value, c);
      }
      frontier := children - descendants;
      descendants := descendants + frontier;
    }
    ClosedIsExact(t, {id}, descendants);
  }

  // ---------------------------------------------------------------- cancelling and deleting with children

  lemma CancelIsPointwise(t: Table, ids: set<Id>, now: int)
    ensures Apply(t, Cancel(ids, now)) == map id | id in t :: if id in ids then CancelRow(t[id], now) else t[id]
  {
  }

  /** `u` is `t` with the rows of `ids` cancelled, each at some reading of the clock, and every other row as it was. */
  ghost predicate CancelledIn(t: Table, u: Table, ids: set<Id>, clock: nat -> int) {
    && u.Keys == t.Keys
    && (forall id :: id in t && id in ids ==> exists level :: u[id] == CancelRow(t[id], clock(level)))
    && (forall id :: id in t && id !in ids ==> u[id] == t[id])
  }

  lemma LevelCancels(t: Table, u: Table, done: set<Id>, frontier: set<Id>, clock: nat -> int, level: nat)
    requires CancelledIn(t, u, done, clock) && done !! frontier
    ensures CancelledIn(t, Apply(u, Cancel(frontier, clock(level))), done + frontier, clock)
  {
    CancelIsPointwise(u, frontier, clock(level));
  }

  lemma CancelKeepsParents(t: Table, u: Table, ids: set<Id>, clock: nat -> int, some: set<Id>)
    requires CancelledIn(t, u, ids, clock)
    ensures DirectChildren(u, some) == DirectChildren(t, some)
  {
    forall id | id in t ensures u[id].parent == t[id].parent {
      if id in ids {
        var level :| u[id] == CancelRow(t[id], clock(level));
      }
    }
  }

  /** What a cascade promises: the named rows and all below them are over, and nothing else has changed. */
  lemma CascadeReachesAll(t: Table, u: Table, ids: set<Id>, clock: nat -> int, id: Id)
    requires CancelledIn(t, u, ids + Descendants(t, ids), clock) && id in t
    ensures id in ids + Descendants(t, ids) ==> u[id].status == Cancelled || (Finished(u[id].status) && u[id] == t[id])
    ensures id !in ids + Descendants(t, ids) ==> u[id] == t[id]
  {
    if id in ids + Descendants(t, ids) {
      var level :| u[id] == CancelRow(t[id], clock(level));
    }
  }

  /** Between two levels: all visited rows but the frontier are cancelled, and their children are visited. */
  ghost predicate Cascading(t: Table, u: Table, ids: set<Id>, visited: set<Id>, frontier: set<Id>, clock: nat -> int) {
    && ids <= visited && frontier <= visited
    && CancelledIn(t, u, visited - frontier, clock)
    && (forall d :: d in visited && d !in ids ==> d in t && Descends(t, ids, d))
    && DirectChildren(t, visited - frontier) <= visited
  }

  lemma CascadeGoesOn(t: Table, u: Table, ids: set<Id>, visited: set<Id>, frontier: set<Id>, clock: nat -> int,
                      level: nat)
    requires Cascading(t, u, ids, visited, frontier, clock)
    ensures var v := Apply(u, Cancel(frontier, clock(level)));
            var next := DirectChildren(v, frontier) - visited;
            Cascading(t, v, ids, visited + next, next, clock) && next <= t.Keys
  {
    var v := Apply(u, Cancel(frontier, clock(level)));
    LevelCancels(t, u, visited - frontier, frontier, clock, level);
    assert visited - frontier + frontier == visited;
    CancelKeepsParents(t, v, visited, clock, frontier);
    var next := DirectChildren(v, frontier) - visited;
    forall c | c in next ensures Descends(t, ids, c) {
      ChildDescends(t, ids, t[c].parent.value, c);
    }
    assert visited + next - next == visited;
    assert DirectChildren(t, visited) <= DirectChildren(t, visited - frontier) + DirectChildren(t, frontier);
  }

  lemma CascadeEnds(t: Table, u: Table, ids: set<Id>, visited: set<Id>, clock: nat -> int)
    requires Cascading(t, u, ids, visited, {}, clock)
    ensures CancelledIn(t, u, ids + Descendants(t, ids), clock)
  {
    assert visited - {} == visited;
    VisitedIsAll(t, ids, visited);
  }

  class Workflows {
    var rows: Table

    constructor (rows: Table)
      ensures this.rows == rows
    {
      this.rows := rows;
    }

    method CancelRows(ids: set<Id>, now: int)
      modifies this
      ensures rows == Apply(old(rows), Cancel(ids, now))
    {
      CancelIsPointwise(rows, ids, now);
      rows := map id | id in rows :: if id in ids then CancelRow(rows[id], now) else rows[id];
    }

    /** Level by level down the parent edges; `clock` is the time of each level's statement. */
    method CancelWorkflows(ids: set<Id>, cancelChildren: bool, clock: nat -> int)
      modifies this
      ensures !cancelChildren ==> rows == Apply(old(rows), Cancel(ids, clock(0)))
      ensures cancelChildren ==> CancelledIn(old(rows), rows, ids + Descendants(old(rows), ids), clock)
    {
      if !cancelChildren {
        CancelRows(ids, clock(0));
        return;
      }
      var visited, frontier, level := ids, ids, 0;
      ghost var t := rows;
      while frontier != {}
        invariant Cascading(t, rows, ids, visited, frontier, clock)
        decreases t.Keys - visited, frontier
      {
        CascadeGoesOn(t, rows, ids, visited, frontier, clock, level);
        CancelRows(frontier, clock(level));
        var children := DirectChildren(rows, frontier);
        frontier := children - visited;
        visited, level := visited + frontier, level + 1;
      }
      CascadeEnds(t, rows, ids, visited, clock);
    }

    /** The named rows and all below them, and no other. */
    method DeleteWorkflows(ids: set<Id>, deleteChildren: bool)
      modifies this
      ensures rows == old(rows) - ids - (if deleteChildren then Descendants(old(rows), ids) else {})
    {
      var all := ids;
      if deleteChildren {
        var rest := ids;
        while rest != {}
          invariant rest <= ids && rows == old(rows)
          invariant all == ids + Descendants(rows, ids - rest)
          decreases rest
        {
          var id :| id in rest;
          var below := GetWorkflowChildren(rows, id);
          DescendantsOfEach(rows, ids - rest, id);
          assert ids - rest + {id} == ids - (rest - {id});
          all, rest := all + below, rest - {id};
        }
        assert ids - {} == ids;
      }
      assert rows - all == rows - ids - (all - ids);
      assert rows - ids - (all - ids) == rows - ids - (if deleteChildren then Descendants(rows, ids) else {});
      rows := rows - all;
    }
  }

  lemma VisitedIsAll(t: Table, ids: set<Id>, visited: set<Id>)
    requires ids <= visited && DirectChildren(t, visited) <= visited
    requires forall d :: d in visited && d !in ids ==> d in t && Descends(t, ids, d)
    ensures forall id :: id in t ==> (id in visited <==> id in ids + Descendants(t, ids))
  {
    forall id | id in t && Descends(t, ids, id) ensures id in visited {
      var p :| IsPath(t, ids, p) && p[|p| - 1] == id;
      assert ids + visited == visited;
      ClosedHasPath(t, ids, visited, p);
    }
  }

  lemma DescendantsOfEach(t: Table, ids: set<Id>, id: Id)
    ensures Descendants(t, ids + {id}) == Descendants(t, ids) + Descendants(t, {id})
  {
    forall d | d in Descendants(t, ids + {id}) ensures d in Descendants(t, ids) + Descendants(t, {id}) {
      var p :| IsPath(t, ids + {id}, p) && p[|p| - 1] == d;
      assert IsPath(t, if p[0] in ids then ids else {id}, p);
    }
    forall d | d in Descendants(t, ids) + Descendants(t, {id}) ensures d in Descendants(t, ids + {id}) {
      var some := if Descends(t, ids, d) then ids else {id};
      var p :| IsPath(t, some, p) && p[|p| - 1] == d;
      assert IsPath(t, ids + {id}, p);
    }
  }

  // ---------------------------------------------------------------- nested errors

  /** A thrown value: an object by identity, or anything else with its truth value. */
  datatype Thrown = Object(id: nat) | Primitive(text: string, truthy: bool)
  datatype Links = Links(errors: seq<Thrown>, cause: Thrown, error: Thrown)
  type Heap = map<nat, Links>

  predicate Truthy(x: Thrown) {
    x.Object? || x.truthy
  }

  function IfTruthy(x: Thrown): seq<Thrown> {
    if Truthy(x) then [x] else []
  }

  /** Aggregated errors, the cause, and a wrapped error, in that order. */
  function NextErrors(h: Heap, x: Thrown): seq<Thrown> {
    if x.Object? && x.id in h then h[x.id].errors + IfTruthy(h[x.id].cause) + IfTruthy(h[x.id].error) else []
  }

  /** What an error wraps: any of its aggregated values, and a cause or wrapped error that is an object or truthy. */
  predicate Wraps(h: Heap, x: Thrown, y: Thrown) {
    match x
    case Primitive(_, _) => false
    case Object(id) =>
      id in h && (y in h[id].errors || (y in {h[id].cause, h[id].error} && (y.Primitive? ==> y.truthy)))
  }

  lemma NextErrorsAreExact(h: Heap, x: Thrown)
    ensures forall y :: y in NextErrors(h, x) <==> Wraps(h, x, y)
  {
  }

  ghost predicate IsChain(h: Heap, e: Thrown, chain: seq<Thrown>) {
    && chain != [] && chain[0] == e
    && (forall i :: 0 < i < |chain| ==> Wraps(h, chain[i - 1], chain[i]))
  }

  ghost predicate Reaches(h: Heap, e: Thrown, x: Thrown) {
    exists chain :: IsChain(h, e, chain) && chain[|chain| - 1] == x
  }

  lemma NextIsReached(h: Heap, e: Thrown, x: Thrown, y: Thrown)
    requires Reaches(h, e, x) && Wraps(h, x, y)
    ensures Reaches(h, e, y)
  {
    var chain :| IsChain(h, e, chain) && chain[|chain| - 1] == x;
    var more := chain + [y];
    assert forall i :: 0 < i < |more| ==> Wraps(h, more[i - 1], more[i]);
    assert IsChain(h, e, more) && more[|more| - 1] == y;
  }

  lemma {:induction false} ClosedHasChain(h: Heap, e: Thrown, s: seq<Thrown>, chain: seq<Thrown>)
    requires e in s && forall x, y :: x in s && Wraps(h, x, y) ==> y in s
    requires IsChain(h, e, chain)
    ensures chain[|chain| - 1] in s
  {
    if |chain| > 1 {
      ClosedHasChain(h, e, s, chain[..|chain| - 1]);
    }
  }

  /** Everything reachable, each object once. */
  ghost predicate Unwraps(h: Heap, e: Thrown, yielded: seq<Thrown>) {
    && (forall x :: x in yielded <==> Reaches(h, e, x))
    && (forall i, j :: 0 <= i < j < |yielded| && yielded[i].Object? ==> yielded[i] != yielded[j])
  }

  /** What a yielded value wraps is yielded too, or waits. */
  ghost predicate Covered(h: Heap, queue: seq<Thrown>, yielded: seq<Thrown>) {
    forall x, y :: x in yielded && Wraps(h, x, y) ==> y in queue || y in yielded
  }

  /** Yielding the first that waits, with what it wraps put behind. */
  lemma OneMoreCovered(h: Heap, queue: seq<Thrown>, yielded: seq<Thrown>)
    requires queue != [] && Covered(h, queue, yielded)
    ensures Covered(h, queue[1..] + NextErrors(h, queue[0]), yielded + [queue[0]])
    ensures queue[0] in yielded ==> Covered(h, queue[1..], yielded)
    ensures queue[0].Primitive? ==> NextErrors(h, queue[0]) == []
  {
    NextErrorsAreExact(h, queue[0]);
    assert forall y :: y in queue ==> y == queue[0] || y in queue[1..];
  }

  ghost predicate AllReached(h: Heap, e: Thrown, s: seq<Thrown>) {
    forall x :: x in s ==> Reaches(h, e, x)
  }

  lemma OneMoreReached(h: Heap, e: Thrown, queue: seq<Thrown>, yielded: seq<Thrown>)
    requires queue != [] && AllReached(h, e, queue) && AllReached(h, e, yielded)
    ensures AllReached(h, e, queue[1..]) && AllReached(h, e, queue[1..] + NextErrors(h, queue[0]))
    ensures AllReached(h, e, yielded + [queue[0]])
  {
    NextErrorsAreExact(h, queue[0]);
    forall y | y in NextErrors(h, queue[0]) ensures Reaches(h, e, y) {
      NextIsReached(h, e, queue[0], y);
    }
  }

  lemma CoveredIsAll(h: Heap, e: Thrown, yielded: seq<Thrown>)
    requires Covered(h, [], yielded) && e in yielded
    ensures forall x :: Reaches(h, e, x) ==> x in yielded
  {
    forall x | Reaches(h, e, x) ensures x in yielded {
      var chain :| IsChain(h, e, chain) && chain[|chain| - 1] == x;
      ClosedHasChain(h, e, yielded, chain);
    }
  }

  method UnwrapErrors(h: Heap, e: Thrown) returns (yielded: seq<Thrown>)
    ensures Unwraps(h, e, yielded)
  {
    yielded := [];
    var queue, seen := [e], {};
    assert IsChain(h, e, [e]) && Reaches(h, e, e);
    while queue != []
      invariant AllReached(h, e, queue) && AllReached(h, e, yielded)
      invariant forall id :: id in seen <==> Object(id) in yielded
      invariant forall i, j :: 0 <= i < j < |yielded| && yielded[i].Object? ==> yielded[i] != yielded[j]
      invariant e in queue || e in yielded
      invariant Covered(h, queue, yielded)
      decreases h.Keys - seen, |queue|
    {
      OneMoreCovered(h, queue, yielded);
      OneMoreReached(h, e, queue, yielded);
      var cur := queue[0];
      queue := queue[1..];
      if cur.Object? {
        if cur.id in seen { continue; }
        seen := seen + {cur.id};
        queue := queue + NextErrors(h, cur);
      }
      yielded := yielded + [cur];
    }
    CoveredIsAll(h, e, yielded);
  }

  /** An error is retried exactly if something nested in it looks transient. */
  method RetriablePostgresException(h: Heap, e: Thrown, looksTransient: Thrown -> bool) returns (retry: bool)
    ensures retry <==> exists x :: Reaches(h, e, x) && looksTransient(x)
  {
    var unwrapped := UnwrapErrors(h, e);
    for i := 0 to |unwrapped|
      invariant forall k :: 0 <= k < i ==> !looksTransient(unwrapped[k])
    {
      if looksTransient(unwrapped[i]) {
        assert unwrapped[i] in unwrapped;
        return true;
      }
    }
    return false;
  }
}
