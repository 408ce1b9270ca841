/** The batched sweep of a queue with partition concurrency 1, at statement granularity: workers probe heads without
    locks, lock their candidates skipping locked rows, then flip and commit, with everything else interleaved. */
module PartitionedSweep {
  import opened Wrappers
  import opened WorkflowRows

  type Worker = nat

  /** What every worker of the sweep shares: the queue, one application version and one owner. */
  datatype Site = Site(queue: string, version: string, isLatest: bool, app: Option<string>, rank: Id -> int)

  /** The database's order on workflow IDs, whatever the collation. */
  ghost predicate Collates(site: Site) {
    forall i: Id, j: Id :: site.rank(i) == site.rank(j) ==> i == j
  }

  /** ORDER BY priority, created_at, workflow_uuid. */
  predicate Before(site: Site, a: Row, i: Id, b: Row, j: Id) {
    || a.priority < b.priority
    || (a.priority == b.priority && a.createdAt < b.createdAt)
    || (a.priority == b.priority && a.createdAt == b.createdAt && site.rank(i) < site.rank(j))
  }

  predicate Waiting(site: Site, r: Row) {
    r.status == Enqueued && r.queue == Some(site.queue) && r.partition.Some?
  }

  predicate Running(site: Site, r: Row) {
    r.status == Pending && r.queue == Some(site.queue) && r.partition.Some?
  }

  predicate Visible(site: Site, r: Row) {
    (r.version == Some(site.version) || (site.isLatest && r.version.None?)) && AppMatches(site.app, r.app)
  }

  /** Rows of another version or owner may wait on the queue too; these workers never start them. */
  predicate Startable(site: Site, r: Row) {
    Waiting(site, r) && Visible(site, r)
  }

  predicate Live(site: Site, r: Row) {
    Startable(site, r) || Running(site, r)
  }

  /** `starts` is the order in which rows were flipped to PENDING. */
  datatype State = State(table: Table, candidates: set<(Worker, Id)>, locks: map<Id, Worker>, starts: seq<Id>)

  datatype Event =
    | Probe(worker: Worker, heads: set<Id>)
    | Lock(worker: Worker, id: Id)
    | FlipAndCommit(worker: Worker, executor: string, now: int, claimed: seq<Id>)
    | Rollback(worker: Worker)
    | Statement(action: Action)

  /** The first visible waiting row of a partition in which nothing runs, whoever owns what runs. */
  ghost predicate IsHead(site: Site, t: Table, id: Id) {
    && id in t && Startable(site, t[id])
    && (forall j :: j in t && t[j].partition == t[id].partition ==> !Running(site, t[j]))
    && (forall j :: j in t && t[j].partition == t[id].partition && Startable(site, t[j]) ==>
          !Before(site, t[j], j, t[id], id))
  }

  function LockedBy(s: State, w: Worker): set<Id> {
    set id | id in s.locks && s.locks[id] == w
  }

  function WithoutWorker(s: State, w: Worker): State {
    s.(candidates := (set p | p in s.candidates && p.0 != w),
       locks := map id | id in s.locks && s.locks[id] != w :: s.locks[id])
  }

  ghost predicate Enabled(site: Site, s: State, e: Event) {
    match e
    case Probe(w, heads) => forall id :: id in heads ==> IsHead(site, s.table, id)
    case Lock(w, id) => (w, id) in s.candidates
    case FlipAndCommit(w, _, _, claimed) =>
      && (forall p :: p in s.candidates ==> p.0 != w)
      && (forall id :: id in claimed <==> id in LockedBy(s, w))
      && |claimed| == |LockedBy(s, w)|
    case Rollback(_) => true
    case Statement(a) => !a.Claim? && (forall id :: id in s.locks && id in s.table ==>
                                         id in Apply(s.table, a) && Apply(s.table, a)[id] == s.table[id])
  }

  ghost function Perform(site: Site, s: State, e: Event): State {
    match e
    case Probe(w, heads) => s.(candidates := s.candidates + set id | id in heads :: (w, id))
    case Lock(w, id) =>
      var dropped := s.(candidates := s.candidates - {(w, id)});
      if id !in s.locks && id in s.table && Startable(site, s.table[id])
      then dropped.(locks := s.locks[id := w]) else dropped
    case FlipAndCommit(w, executor, now, claimed) =>
      WithoutWorker(s, w).(
        table := Apply(s.table, Claim(LockedBy(s, w), executor, site.version, false, site.app, now)),
        starts := s.starts + claimed)
    case Rollback(w) => WithoutWorker(s, w)
    case Statement(a) => s.(table := Apply(s.table, a))
  }

  // ---------------------------------------------------------------- the invariant

  ghost predicate Candidate(site: Site, s: State, id: Id) {
    id in s.table && Startable(site, s.table[id]) && exists w :: (w, id) in s.candidates
  }

  /** Rows a worker may start, is starting, or has started. */
  ghost predicate Tracked(site: Site, s: State, id: Id) {
    Candidate(site, s, id) || id in s.locks || id in s.starts
  }

  /** `j` is ahead of `id` in the same partition. */
  predicate Ahead(site: Site, t: Table, j: Id, id: Id)
    requires j in t && id in t
  {
    t[j].partition == t[id].partition && Before(site, t[j], j, t[id], id)
  }

  /** Nothing ahead of `id` can start any more. */
  ghost predicate Cleared(site: Site, t: Table, id: Id) {
    id in t && t[id].partition.Some? && forall j :: j in t && Live(site, t[j]) ==> !Ahead(site, t, j, id)
  }

  ghost predicate Ordered(site: Site, s: State) {
    forall i, j :: 0 <= i < j < |s.starts| && s.starts[i] in s.table && s.starts[j] in s.table ==>
      !Ahead(site, s.table, s.starts[j], s.starts[i])
  }

  ghost predicate Safe(site: Site, s: State) {
    && (forall id :: Tracked(site, s, id) ==> Cleared(site, s.table, id))
    && (forall id :: id in s.locks ==> id in s.table && Startable(site, s.table[id]))
    && (forall id :: id in s.table && Running(site, s.table[id]) ==> id in s.starts)
    && (forall p :: p in s.candidates ==> p.1 in s.table)
    && Ordered(site, s)
  }

  predicate SameKey(r: Row, u: Row) {
    u.partition == r.partition && u.priority == r.priority && u.createdAt == r.createdAt
  }

  /** Rows keep their place in the order. */
  ghost predicate KeysKept(t: Table, u: Table) {
    forall id :: id in t ==> id in u && SameKey(t[id], u[id])
  }

  predicate Arrives(site: Site, t: Table, u: Table, id: Id) {
    id in u && Live(site, u[id]) && !(id in t && Live(site, t[id]))
  }

  /** What a statement lets in sorts behind every row that is locked, has started or may be locked; and if it may
      itself be locked, it is the first of its partition. */
  ghost predicate ArrivalsBehind(site: Site, s: State, n: State) {
    forall id :: Arrives(site, s.table, n.table, id) ==>
      BehindTracked(site, n, id) && (Candidate(site, n, id) ==> Cleared(site, n.table, id))
  }

  ghost predicate BehindTracked(site: Site, n: State, id: Id)
    requires id in n.table
  {
    forall j :: Tracked(site, n, j) && j in n.table ==> !Ahead(site, n.table, id, j)
  }

  ghost predicate Orderly(site: Site, s: State, e: Event) {
    var n := Perform(site, s, e);
    e.Statement? ==> KeysKept(s.table, n.table) && ArrivalsBehind(site, s, n)
  }

  // ---------------------------------------------------------------- what each step keeps

  lemma NothingElseStarts(site: Site, t: Table, a: Action, id: Id)
    requires !a.Claim? && id in Apply(t, a) && Running(site, Apply(t, a)[id])
    ensures id in t && Running(site, t[id])
  {
    if id in t && Apply(t, a)[id] == UpdatedRow(a, id, t[id]) {
    }
  }

  lemma StatementKeepsCleared(site: Site, s: State, a: Action, id: Id)
    requires Safe(site, s) && Enabled(site, s, Statement(a)) && Orderly(site, s, Statement(a))
    requires Tracked(site, Perform(site, s, Statement(a)), id)
    ensures Cleared(site, Perform(site, s, Statement(a)).table, id)
  {
    var n := Perform(site, s, Statement(a));
    if Tracked(site, s, id) {
      assert Cleared(site, s.table, id);
      forall j | j in n.table && Live(site, n.table[j])
        ensures !Ahead(site, n.table, j, id)
      {
        if Arrives(site, s.table, n.table, j) {
          assert BehindTracked(site, n, j);
        } else {
          assert !Ahead(site, s.table, j, id);
        }
      }
    } else {
      assert Arrives(site, s.table, n.table, id);
    }
  }

  lemma StatementIsSafe(site: Site, s: State, a: Action)
    requires Safe(site, s) && Enabled(site, s, Statement(a)) && Orderly(site, s, Statement(a))
    ensures Safe(site, Perform(site, s, Statement(a)))
  {
    var n := Perform(site, s, Statement(a));
    forall id | Tracked(site, n, id)
      ensures Cleared(site, n.table, id)
    {
      StatementKeepsCleared(site, s, a, id);
    }
    forall id | id in n.table && Running(site, n.table[id])
      ensures id in n.starts
    {
      NothingElseStarts(site, s.table, a, id);
    }
    forall i, j | 0 <= i < j < |n.starts| && n.starts[i] in n.table && n.starts[j] in n.table
      ensures !Ahead(site, n.table, n.starts[j], n.starts[i])
    {
      assert Tracked(site, s, s.starts[i]) && Tracked(site, s, s.starts[j]);
      assert Cleared(site, s.table, s.starts[i]) && Cleared(site, s.table, s.starts[j]);
    }
  }

  predicate Quiet(site: Site, a: Action) {
    || a.Record? || a.Cancel? || a.DeadLetter? || a.TakeOver? || a.SetDelay? || a.Debounce?
    || (a.Reenqueue? && a.recoveryQueue != site.queue)
  }

  lemma QuietUpdate(site: Site, a: Action, id: Id, r: Row)
    requires a.Record? || a.Cancel? || a.DeadLetter? || a.TakeOver? || a.SetDelay?
    ensures SameKey(r, UpdatedRow(a, id, r)) && (Live(site, UpdatedRow(a, id, r)) ==> Live(site, r))
  {
  }

  lemma QuietBounce(site: Site, a: Action, id: Id, r: Row)
    requires a.Debounce? || (a.Reenqueue? && a.recoveryQueue != site.queue)
    ensures SameKey(r, UpdatedRow(a, id, r)) && (Live(site, UpdatedRow(a, id, r)) ==> Live(site, r))
  {
  }

  /** Outcomes, cancels, dead letters, takeovers, delays and recovery to another default queue let nothing in. */
  lemma QuietStatements(site: Site, s: State, a: Action)
    requires Quiet(site, a)
    ensures Orderly(site, s, Statement(a))
  {
    var u := Apply(s.table, a);
    UpdateIsPointwise(s.table, a);
    forall id | id in s.table
      ensures id in u && SameKey(s.table[id], u[id]) && (Live(site, u[id]) ==> Live(site, s.table[id]))
    {
      if u == s.table {
      } else if a.Debounce? || a.Reenqueue? {
        QuietBounce(site, a, id, s.table[id]);
      } else {
        QuietUpdate(site, a, id, s.table[id]);
      }
    }
    NoArrivals(site, s, Perform(site, s, Statement(a)));
  }

  lemma NoArrivals(site: Site, s: State, n: State)
    requires n.table.Keys == s.table.Keys
    requires forall id :: id in s.table ==> Live(site, n.table[id]) ==> Live(site, s.table[id])
    ensures ArrivalsBehind(site, s, n)
  {
  }

  /** So is an enqueue of another version or owner, and one that sorts after every row of its partition. */
  lemma LaterEnqueueIsOrderly(site: Site, s: State, id: Id, req: Request, queue: string, delayUntil: Option<int>,
                              createdAt: int)
    requires forall p :: p in s.candidates ==> p.1 in s.table
    requires var r := BatchRow(req, queue, delayUntil, createdAt);
             Visible(site, r) ==> forall j :: j in s.table && s.table[j].partition == r.partition ==>
               !Before(site, r, id, s.table[j], j)
    ensures Orderly(site, s, Statement(EnqueueIfAbsent(id, req, queue, delayUntil, createdAt)))
  {
    var n := Perform(site, s, Statement(EnqueueIfAbsent(id, req, queue, delayUntil, createdAt)));
    forall j | Arrives(site, s.table, n.table, j)
      ensures BehindTracked(site, n, j) && !Candidate(site, n, j)
    {
      assert j == id && id !in s.table;
      assert forall w :: (w, id) in s.candidates ==> (w, id).1 in s.table;
    }
  }

  lemma ProbeIsSafe(site: Site, s: State, w: Worker, heads: set<Id>)
    requires Safe(site, s) && Enabled(site, s, Probe(w, heads))
    ensures Safe(site, Perform(site, s, Probe(w, heads)))
  {
    var n := Perform(site, s, Probe(w, heads));
    forall id | Tracked(site, n, id)
      ensures Cleared(site, n.table, id)
    {
      if id in heads {
        assert IsHead(site, s.table, id);
      } else {
        assert Tracked(site, s, id);
      }
    }
  }

  lemma LockIsSafe(site: Site, s: State, w: Worker, id: Id)
    requires Safe(site, s) && Enabled(site, s, Lock(w, id))
    ensures Safe(site, Perform(site, s, Lock(w, id)))
  {
    var n := Perform(site, s, Lock(w, id));
    forall i | Tracked(site, n, i)
      ensures Cleared(site, n.table, i)
    {
      assert Tracked(site, s, i);
    }
  }

  lemma FlipKeepsKeys(site: Site, s: State, w: Worker, executor: string, now: int)
    requires forall id :: id in LockedBy(s, w) ==> id in s.table && Startable(site, s.table[id])
    ensures var u := Apply(s.table, Claim(LockedBy(s, w), executor, site.version, false, site.app, now));
            && u.Keys == s.table.Keys && KeysKept(s.table, u)
            && (forall id :: id in u ==> (Live(site, u[id]) <==> Live(site, s.table[id])))
            && (forall id :: id in u && Running(site, u[id]) ==> Running(site, s.table[id]) || id in LockedBy(s, w))
            && (forall id :: id in u && id !in LockedBy(s, w) ==> u[id] == s.table[id])
  {
  }

  lemma FlipIsOrdered(site: Site, s: State, n: State, w: Worker, claimed: seq<Id>)
    requires Safe(site, s) && (forall id :: id in claimed <==> id in LockedBy(s, w))
    requires n.starts == s.starts + claimed && n.table.Keys == s.table.Keys && KeysKept(s.table, n.table)
    ensures Ordered(site, n)
  {
    forall i, j | 0 <= i < j < |n.starts| && n.starts[i] in n.table && n.starts[j] in n.table
      ensures !Ahead(site, n.table, n.starts[j], n.starts[i])
    {
      var x, y := n.starts[i], n.starts[j];
      if i < |s.starts| {
        assert x == s.starts[i];
      } else {
        assert x in claimed;
      }
      assert Tracked(site, s, x) && Cleared(site, s.table, x);
      if j < |s.starts| {
        assert y == s.starts[j];
      } else {
        assert y in claimed && y in s.locks && Live(site, s.table[y]);
      }
      assert !Ahead(site, s.table, y, x);
    }
  }

  lemma FlipIsSafe(site: Site, s: State, w: Worker, executor: string, now: int, claimed: seq<Id>)
    requires Safe(site, s) && Enabled(site, s, FlipAndCommit(w, executor, now, claimed))
    ensures Safe(site, Perform(site, s, FlipAndCommit(w, executor, now, claimed)))
  {
    var n := Perform(site, s, FlipAndCommit(w, executor, now, claimed));
    FlipKeepsKeys(site, s, w, executor, now);
    FlipIsOrdered(site, s, n, w, claimed);
    forall id | Tracked(site, n, id)
      ensures Cleared(site, n.table, id)
    {
      assert Tracked(site, s, id);
      assert Cleared(site, s.table, id);
      forall j | j in n.table && Live(site, n.table[j])
        ensures !Ahead(site, n.table, j, id)
      {
        assert !Ahead(site, s.table, j, id);
      }
    }
  }

  lemma RollbackIsSafe(site: Site, s: State, w: Worker)
    requires Safe(site, s)
    ensures Safe(site, Perform(site, s, Rollback(w)))
  {
    var n := Perform(site, s, Rollback(w));
    forall id | Tracked(site, n, id)
      ensures Cleared(site, n.table, id)
    {
      assert Tracked(site, s, id);
    }
  }

  lemma StepIsSafe(site: Site, s: State, e: Event)
    requires Safe(site, s) && Enabled(site, s, e) && Orderly(site, s, e)
    ensures Safe(site, Perform(site, s, e))
  {
    match e
    case Probe(w, heads) => ProbeIsSafe(site, s, w, heads);
    case Lock(w, id) => LockIsSafe(site, s, w, id);
    case FlipAndCommit(w, executor, now, claimed) => FlipIsSafe(site, s, w, executor, now, claimed);
    case Rollback(w) => RollbackIsSafe(site, s, w);
    case Statement(a) => StatementIsSafe(site, s, a);
  }

  // ---------------------------------------------------------------- whole runs

  ghost predicate IsRun(site: Site, s: State, events: seq<Event>)
    decreases |events|
  {
    events != [] ==>
      && Enabled(site, s, events[0]) && Orderly(site, s, events[0])
      && IsRun(site, Perform(site, s, events[0]), events[1..])
  }

  ghost function After(site: Site, s: State, events: seq<Event>): State
    decreases |events|
  {
    if events == [] then s else After(site, Perform(site, s, events[0]), events[1..])
  }

  lemma {:induction false} RunIsSafe(site: Site, s: State, events: seq<Event>)
    requires Safe(site, s) && IsRun(site, s, events)
    ensures Safe(site, After(site, s, events))
    decreases |events|
  {
    if events != [] {
      StepIsSafe(site, s, events[0]);
      RunIsSafe(site, Perform(site, s, events[0]), events[1..]);
    }
  }

  /** A row that runs or is locked for claiming. */
  ghost predicate Admitted(site: Site, s: State, id: Id) {
    id in s.table && s.table[id].partition.Some? && (Running(site, s.table[id]) || id in s.locks)
  }

  lemma SafeMeansExclusive(site: Site, s: State, i: Id, j: Id)
    requires Collates(site) && Safe(site, s) && Admitted(site, s, i) && Admitted(site, s, j)
    requires s.table[i].partition == s.table[j].partition
    ensures i == j
  {
    assert Tracked(site, s, i) && Tracked(site, s, j);
    assert Cleared(site, s.table, i) && Cleared(site, s.table, j);
    assert !Ahead(site, s.table, i, j) && !Ahead(site, s.table, j, i);
    assert site.rank(i) == site.rank(j) ==> i == j;
  }

  ghost predicate SamePartition(s: State, i: Id, j: Id) {
    i in s.table && j in s.table && s.table[i].partition == s.table[j].partition
  }

  /** At most one admitted row per partition. */
  ghost predicate Exclusive(site: Site, s: State) {
    forall i, j :: Admitted(site, s, i) && Admitted(site, s, j) && SamePartition(s, i, j) ==> i == j
  }

  lemma SafeIsExclusive(site: Site, s: State)
    requires Collates(site) && Safe(site, s)
    ensures Exclusive(site, s)
  {
    forall i, j | Admitted(site, s, i) && Admitted(site, s, j) && SamePartition(s, i, j)
      ensures i == j
    {
      SafeMeansExclusive(site, s, i, j);
    }
  }

  // ---------------------------------------------------------------- by columns

  /** `a` has no larger priority than `b`; among equals it was not created later; among those its ID is not larger. */
  ghost predicate NoLater(site: Site, a: Row, i: Id, b: Row, j: Id) {
    && a.priority <= b.priority
    && (b.priority <= a.priority ==> a.createdAt <= b.createdAt)
    && (b.priority <= a.priority && b.createdAt <= a.createdAt ==> site.rank(i) <= site.rank(j))
  }

  ghost predicate OnQueue(site: Site, r: Row, partition: string) {
    r.queue == Some(site.queue) && r.partition == Some(partition)
  }

  /** The workers' version, or none while theirs is the latest; their application's, or nobody's. */
  ghost predicate Theirs(site: Site, r: Row) {
    && (if r.version.None? then site.isLatest else r.version.value == site.version)
    && (site.app.Some? && r.app.Some? ==> site.app.value == r.app.value)
  }

  ghost predicate OneRunsPerPartition(site: Site, t: Table) {
    forall i, j, p ::
      (i in t && t[i].status == Pending && OnQueue(site, t[i], p)) ==>
      (j in t && t[j].status == Pending && OnQueue(site, t[j], p)) ==> i == j
  }

  ghost predicate StartedInOrder(site: Site, t: Table, starts: seq<Id>) {
    forall i, j :: 0 <= i < j < |starts| && starts[i] in t && starts[j] in t ==>
      t[starts[i]].partition == t[starts[j]].partition ==>
      NoLater(site, t[starts[i]], starts[i], t[starts[j]], starts[j])
  }

  /** The row may be started: it waits, nothing runs in its partition, and no waiting row there comes sooner. */
  ghost predicate FirstOfItsPartition(site: Site, t: Table, id: Id) {
    && id in t && t[id].status == Enqueued && t[id].partition.Some? && OnQueue(site, t[id], t[id].partition.value)
    && Theirs(site, t[id])
    && forall j :: j in t && OnQueue(site, t[j], t[id].partition.value) ==>
         && t[j].status != Pending
         && (t[j].status == Enqueued && Theirs(site, t[j]) ==> NoLater(site, t[id], id, t[j], j))
  }

  /** The row as its claim leaves it. */
  ghost predicate Started(site: Site, r: Row, u: Row, executor: string, now: int) {
    && u.status == Pending && u.executor == executor && u.version == Some(site.version) && u.startedAt == Some(now)
    && u.queue == r.queue && u.partition == r.partition && u.priority == r.priority && u.createdAt == r.createdAt
    && u.input == r.input && u.name == r.name
  }

  lemma LockedIsFirst(site: Site, s: State, id: Id)
    requires Collates(site) && Safe(site, s) && id in s.locks
    ensures FirstOfItsPartition(site, s.table, id)
  {
    assert Tracked(site, s, id) && Cleared(site, s.table, id);
    forall j | j in s.table && OnQueue(site, s.table[j], s.table[id].partition.value)
      ensures s.table[j].status != Pending
      ensures s.table[j].status == Enqueued && Theirs(site, s.table[j]) ==>
                NoLater(site, s.table[id], id, s.table[j], j)
    {
      if s.table[j].status == Pending {
        SafeMeansExclusive(site, s, id, j);
      } else if s.table[j].status == Enqueued && Theirs(site, s.table[j]) {
        assert Live(site, s.table[j]) && !Ahead(site, s.table, j, id);
      }
    }
  }

  /** A probe sees exactly the first rows of partitions in which nothing runs. */
  lemma ProbeIsExact(site: Site, s: State, w: Worker, id: Id)
    requires Collates(site)
    ensures Enabled(site, s, Probe(w, {id})) <==> FirstOfItsPartition(site, s.table, id)
    ensures var n := Perform(site, s, Probe(w, {id}));
            n.candidates == s.candidates + {(w, id)} && n.locks == s.locks && n.table == s.table
  {
    if IsHead(site, s.table, id) {
      var p := s.table[id].partition.value;
      forall j | j in s.table && OnQueue(site, s.table[j], p)
        ensures s.table[j].status != Pending
        ensures s.table[j].status == Enqueued && Theirs(site, s.table[j]) ==>
                  NoLater(site, s.table[id], id, s.table[j], j)
      {
        assert !Running(site, s.table[j]);
        assert Startable(site, s.table[j]) ==> !Before(site, s.table[j], j, s.table[id], id);
      }
      assert FirstOfItsPartition(site, s.table, id);
    } else if FirstOfItsPartition(site, s.table, id) {
      FirstIsHead(site, s.table, id);
    }
  }

  lemma FirstIsHead(site: Site, t: Table, id: Id)
    requires FirstOfItsPartition(site, t, id)
    ensures IsHead(site, t, id)
  {
    forall j | j in t && t[j].partition == t[id].partition
      ensures !Running(site, t[j]) && (Startable(site, t[j]) ==> !Before(site, t[j], j, t[id], id))
    {
      if Live(site, t[j]) { assert OnQueue(site, t[j], t[id].partition.value); }
    }
  }

  /** A lock is taken on a candidate that still waits and that nobody has locked, and on no other; a locked one is
      skipped, not waited for. */
  lemma LockIsExact(site: Site, s: State, w: Worker, id: Id)
    requires Enabled(site, s, Lock(w, id))
    ensures var n := Perform(site, s, Lock(w, id));
            && n.table == s.table && n.starts == s.starts && n.candidates == s.candidates - {(w, id)}
            && (id in s.locks ==> n.locks == s.locks)
            && (id !in s.locks ==>
                  n.locks == if id in s.table && s.table[id].status == Enqueued && s.table[id].partition.Some?
                                && OnQueue(site, s.table[id], s.table[id].partition.value) && Theirs(site, s.table[id])
                             then s.locks[id := w] else s.locks)
  {
  }

  /** A worker that commits or rolls back gives up its own locks and candidates, and no other's. It commits when it has
      no candidate left to try, and starts what it locked, each row once. */
  lemma WorkerLetsGo(site: Site, s: State, w: Worker, e: Event)
    requires e == Rollback(w) || (e.FlipAndCommit? && e.worker == w && Enabled(site, s, e))
    ensures var n := Perform(site, s, e);
            && (forall id :: id in n.locks <==> id in s.locks && s.locks[id] != w)
            && (forall id :: id in n.locks ==> n.locks[id] == s.locks[id])
            && (forall v, id :: (v, id) in n.candidates <==> (v, id) in s.candidates && v != w)
            && (e.Rollback? ==> n.table == s.table && n.starts == s.starts)
            && (e.FlipAndCommit? ==>
                  && n.starts == s.starts + e.claimed && (forall id :: (w, id) !in s.candidates)
                  && (forall id :: id in e.claimed <==> id in s.locks && s.locks[id] == w)
                  && |e.claimed| == |set id | id in s.locks && s.locks[id] == w|)
  {
  }

  lemma SafeByColumns(site: Site, s: State)
    requires Collates(site) && Safe(site, s)
    ensures OneRunsPerPartition(site, s.table) && StartedInOrder(site, s.table, s.starts)
  {
    forall i, j, p | i in s.table && j in s.table && OnQueue(site, s.table[i], p) && OnQueue(site, s.table[j], p)
                     && s.table[i].status == Pending && s.table[j].status == Pending
      ensures i == j
    {
      SafeMeansExclusive(site, s, i, j);
    }
  }

  lemma FlippedRowRuns(site: Site, r: Row, executor: string, now: int)
    requires Startable(site, r)
    ensures Started(site, r, ClaimRow(r, executor, site.version, false, site.app, now), executor, now)
  {
  }

  /** What a worker flips was the first of its partition, runs now, and nothing else changed. */
  lemma FlipStartsTheFirst(site: Site, s: State, w: Worker, executor: string, now: int, claimed: seq<Id>)
    requires Collates(site) && Safe(site, s) && Enabled(site, s, FlipAndCommit(w, executor, now, claimed))
    ensures var u := Perform(site, s, FlipAndCommit(w, executor, now, claimed)).table;
            && u.Keys == s.table.Keys
            && (forall id :: id in claimed ==>
                  FirstOfItsPartition(site, s.table, id) && Started(site, s.table[id], u[id], executor, now))
            && (forall id :: id in u && id !in claimed ==> u[id] == s.table[id])
  {
    FlipKeepsKeys(site, s, w, executor, now);
    var u := Perform(site, s, FlipAndCommit(w, executor, now, claimed)).table;
    forall id | id in claimed
      ensures FirstOfItsPartition(site, s.table, id) && Started(site, s.table[id], u[id], executor, now)
    {
      LockedIsFirst(site, s, id);
      FlippedRowRuns(site, s.table[id], executor, now);
      assert u[id] == ClaimRow(s.table[id], executor, site.version, false, site.app, now);
    }
  }

  /** What one step starts is first in its partition. */
  ghost predicate StartsTheFirst(site: Site, s: State, n: State) {
    forall id, p :: id in n.table && n.table[id].status == Pending && OnQueue(site, n.table[id], p) ==>
      (id in s.table && s.table[id].status == Pending) || FirstOfItsPartition(site, s.table, id)
  }

  lemma StepStartsTheFirst(site: Site, s: State, e: Event)
    requires Collates(site) && Safe(site, s) && Enabled(site, s, e)
    ensures StartsTheFirst(site, s, Perform(site, s, e))
  {
    var n := Perform(site, s, e);
    forall id | id in n.table && Running(site, n.table[id]) && !(id in s.table && s.table[id].status == Pending)
      ensures FirstOfItsPartition(site, s.table, id)
    {
      if e.FlipAndCommit? {
        FlipStartsTheFirst(site, s, e.worker, e.executor, e.now, e.claimed);
      } else if e.Statement? {
        NothingElseStarts(site, s.table, e.action, id);
      }
    }
  }

  /** From any table with nothing running, under any interleaving of orderly steps: at most one row runs per partition
      and at most one is locked or runs, rows start in the order of priority, age and ID, and whatever starts next was
      the first of a partition in which nothing ran. */
  lemma OnePerPartitionInOrder(site: Site, t: Table, events: seq<Event>)
    requires Collates(site) && forall id, p :: id in t && OnQueue(site, t[id], p) ==> t[id].status != Pending
    requires IsRun(site, State(t, {}, map[], []), events)
    ensures var s := After(site, State(t, {}, map[], []), events);
            && Exclusive(site, s) && OneRunsPerPartition(site, s.table) && StartedInOrder(site, s.table, s.starts)
            && (forall e :: Enabled(site, s, e) ==> StartsTheFirst(site, s, Perform(site, s, e)))
  {
    forall id | id in t
      ensures !Running(site, t[id])
    {
      if t[id].partition.Some? && OnQueue(site, t[id], t[id].partition.value) {
        assert t[id].status != Pending;
      }
    }
    RunIsSafe(site, State(t, {}, map[], []), events);
    var s := After(site, State(t, {}, map[], []), events);
    SafeIsExclusive(site, s);
    SafeByColumns(site, s);
    forall e | Enabled(site, s, e)
      ensures StartsTheFirst(site, s, Perform(site, s, e))
    {
      StepStartsTheFirst(site, s, e);
    }
  }

  // ---------------------------------------------------------------- the condition on arrivals is exact

  /** Some orderly continuation starts two rows of a partition side by side, or out of order. */
  ghost predicate GoesWrong(site: Site, s: State) {
    exists events ::
      IsRun(site, s, events) && !(Exclusive(site, After(site, s, events)) && Ordered(site, After(site, s, events)))
  }

  lemma WrongNow(site: Site, s: State)
    requires !(Exclusive(site, s) && Ordered(site, s))
    ensures GoesWrong(site, s)
  {
    assert IsRun(site, s, []) && After(site, s, []) == s;
  }

  lemma WrongLater(site: Site, s: State, e: Event)
    requires Enabled(site, s, e) && Orderly(site, s, e) && GoesWrong(site, Perform(site, s, e))
    ensures GoesWrong(site, s)
  {
    var n := Perform(site, s, e);
    var rest :| IsRun(site, n, rest) && !(Exclusive(site, After(site, n, rest)) && Ordered(site, After(site, n, rest)));
    var events := [e] + rest;
    assert events[0] == e && events[1..] == rest;
    assert IsRun(site, s, events) && After(site, s, events) == After(site, n, rest);
  }

  lemma TwoAdmitted(site: Site, s: State, i: Id, j: Id)
    requires Admitted(site, s, i) && Admitted(site, s, j) && SamePartition(s, i, j) && i != j
    ensures GoesWrong(site, s)
  {
    WrongNow(site, s);
  }

  /** Everyone else in the partition. */
  function Rivals(t: Table, id: Id, spared: Id): set<Id>
    requires id in t
  {
    set k | k in t && t[k].partition == t[id].partition && k != id && k != spared
  }

  lemma RivalsAreCancelled(t: Table, ids: set<Id>)
    ensures var u := Apply(t, Cancel(ids, 0));
            u.Keys == t.Keys && forall k :: k in t ==> u[k] == if k in ids then CancelRow(t[k], 0) else t[k]
  {
  }

  lemma CancelledIsNotLive(site: Site, r: Row)
    ensures !Live(site, CancelRow(r, 0)) && CancelRow(r, 0).partition == r.partition
  {
  }

  /** Once its rivals are cancelled, a row that nothing spared is ahead of heads its partition. */
  lemma CancelMakesHead(site: Site, t: Table, id: Id, spared: Id)
    requires id in t && Startable(site, t[id])
    requires spared in t && spared != id ==> !Running(site, t[spared]) && !Before(site, t[spared], spared, t[id], id)
    ensures var u := Apply(t, Cancel(Rivals(t, id, spared), 0));
            && IsHead(site, u, id) && u.Keys == t.Keys
            && (forall k :: k in t && k !in Rivals(t, id, spared) ==> u[k] == t[k])
            && (forall k :: k in t ==> SameKey(t[k], u[k]))
  {
    var u := Apply(t, Cancel(Rivals(t, id, spared), 0));
    RivalsAreCancelled(t, Rivals(t, id, spared));
    forall k | k in u && u[k].partition == u[id].partition
      ensures !Running(site, u[k]) && (Startable(site, u[k]) ==> !Before(site, u[k], k, u[id], id))
    {
      CancelledIsNotLive(site, t[k]);
    }
  }

  /** A locked row and a startable one ahead of it: another worker can lock that one too. */
  lemma LockedBehindGoesWrong(site: Site, s: State, id: Id, j: Id)
    requires id in s.table && j in s.table && Startable(site, s.table[id]) && Startable(site, s.table[j])
    requires j in s.locks && id !in s.locks && Ahead(site, s.table, id, j)
    ensures GoesWrong(site, s)
  {
    var rivals := Rivals(s.table, id, j);
    if k :| k in rivals && k in s.locks {
      TwoAdmitted(site, s, k, j);
    } else {
      var cancel := Statement(Cancel(rivals, 0));
      CancelMakesHead(site, s.table, id, j);
      var n := Perform(site, s, cancel);
      TwoLocked(site, n, id, j);
      QuietStatements(site, s, cancel.action);
      WrongLater(site, s, cancel);
    }
  }

  /** A worker that holds nothing takes the head. */
  lemma HeadIsTaken(site: Site, s: State, w: Worker, id: Id)
    requires IsHead(site, s.table, id) && id !in s.locks && (w, id) !in s.candidates
    requires GoesWrong(site, s.(locks := s.locks[id := w]))
    ensures GoesWrong(site, s)
  {
    var probed := Perform(site, s, Probe(w, {id}));
    assert (w, id) in probed.candidates;
    assert probed.candidates - {(w, id)} == s.candidates;
    assert Perform(site, probed, Lock(w, id)) == s.(locks := s.locks[id := w]);
    WrongLater(site, probed, Lock(w, id));
    WrongLater(site, s, Probe(w, {id}));
  }

  lemma TwoLocked(site: Site, s: State, id: Id, j: Id)
    requires IsHead(site, s.table, id) && id !in s.locks && j in s.locks && j in s.table && SamePartition(s, id, j)
    ensures GoesWrong(site, s)
  {
    var probed := Perform(site, s, Probe(0, {id}));
    assert (0, id) in probed.candidates;
    TwoAdmitted(site, Perform(site, probed, Lock(0, id)), id, j);
    WrongLater(site, probed, Lock(0, id));
    WrongLater(site, s, Probe(0, {id}));
  }

  /** A candidate and a startable row ahead of it: its worker can lock it first. */
  lemma CandidateBehindGoesWrong(site: Site, s: State, id: Id, j: Id)
    requires id in s.table && Startable(site, s.table[id])
    requires Candidate(site, s, j) && j !in s.locks && Ahead(site, s.table, id, j)
    ensures GoesWrong(site, s)
  {
    var w :| (w, j) in s.candidates;
    var n := Perform(site, s, Lock(w, j));
    if id in s.locks {
      TwoAdmitted(site, n, id, j);
    } else {
      LockedBehindGoesWrong(site, n, id, j);
    }
    WrongLater(site, s, Lock(w, j));
  }

  lemma CandidateBesideRunningGoesWrong(site: Site, s: State, id: Id, j: Id)
    requires id in s.table && Running(site, s.table[id])
    requires Candidate(site, s, j) && j !in s.locks && s.table[id].partition == s.table[j].partition
    ensures GoesWrong(site, s)
  {
    var w :| (w, j) in s.candidates;
    TwoAdmitted(site, Perform(site, s, Lock(w, j)), id, j);
    WrongLater(site, s, Lock(w, j));
  }

  /** A row that has started and a startable one ahead of it: that one can be made the head and started after it. */
  lemma StartedBehindGoesWrong(site: Site, s: State, id: Id, j: Id)
    requires id in s.table && j in s.table && Startable(site, s.table[id])
    requires j in s.starts && id !in s.locks && Ahead(site, s.table, id, j)
    ensures GoesWrong(site, s)
  {
    var rivals := Rivals(s.table, id, id);
    var w: Worker := 0;
    if k :| k in rivals && k in s.locks {
      w := s.locks[k];
      if l :| l in rivals && l in s.locks && l != k {
        TwoAdmitted(site, s, k, l);
        return;
      }
    }
    var s0 := Perform(site, s, Rollback(w));
    assert forall k :: k in rivals ==> k !in s0.locks;
    HeadStartsLast(site, s0, w, id, j);
    WrongLater(site, s, Rollback(w));
  }

  lemma HeadStartsLast(site: Site, s: State, w: Worker, id: Id, j: Id)
    requires id in s.table && j in s.table && Startable(site, s.table[id])
    requires j in s.starts && id !in s.locks && Ahead(site, s.table, id, j)
    requires forall k :: k in Rivals(s.table, id, id) ==> k !in s.locks
    requires LockedBy(s, w) == {} && forall p :: p in s.candidates ==> p.0 != w
    ensures GoesWrong(site, s)
  {
    var cancel := Statement(Cancel(Rivals(s.table, id, id), 0));
    CancelMakesHead(site, s.table, id, id);
    var n := Perform(site, s, cancel);
    HeadFlipsLast(site, n.(locks := n.locks[id := w]), w, id, j);
    HeadIsTaken(site, n, w, id);
    QuietStatements(site, s, cancel.action);
    WrongLater(site, s, cancel);
  }

  lemma HeadFlipsLast(site: Site, s: State, w: Worker, id: Id, j: Id)
    requires id in s.table && j in s.table && Ahead(site, s.table, id, j) && j in s.starts
    requires LockedBy(s, w) == {id} && forall p :: p in s.candidates ==> p.0 != w
    requires Startable(site, s.table[id])
    ensures GoesWrong(site, s)
  {
    var flip := FlipAndCommit(w, "", 0, [id]);
    assert Enabled(site, s, flip) by { assert |[id]| == |{id}|; }
    var n := Perform(site, s, flip);
    FlipKeepsKeys(site, s, w, "", 0);
    var i :| 0 <= i < |s.starts| && s.starts[i] == j;
    assert n.starts[i] == j && n.starts[|s.starts|] == id && Ahead(site, n.table, id, j);
    WrongNow(site, n);
    WrongLater(site, s, flip);
  }

  lemma StrayArrivalGoesWrong(site: Site, s: State, a: Action, id: Id)
    requires Safe(site, s) && Enabled(site, s, Statement(a)) && KeysKept(s.table, Apply(s.table, a))
    requires var n := Perform(site, s, Statement(a));
             && Arrives(site, s.table, n.table, id)
             && !(BehindTracked(site, n, id) && (Candidate(site, n, id) ==> Cleared(site, n.table, id)))
    ensures GoesWrong(site, Perform(site, s, Statement(a)))
  {
    var n := Perform(site, s, Statement(a));
    if Running(site, n.table[id]) { NothingElseStarts(site, s.table, a, id); }
    assert Startable(site, n.table[id]) && id !in n.locks;
    if !BehindTracked(site, n, id) {
      var j :| Tracked(site, n, j) && j in n.table && Ahead(site, n.table, id, j);
      if j in n.locks {
        LockedBehindGoesWrong(site, n, id, j);
      } else if j in n.starts {
        StartedBehindGoesWrong(site, n, id, j);
      } else {
        CandidateBehindGoesWrong(site, n, id, j);
      }
    } else {
      var k :| k in n.table && Live(site, n.table[k]) && Ahead(site, n.table, k, id);
      if Running(site, n.table[k]) {
        CandidateBesideRunningGoesWrong(site, n, k, id);
      } else {
        CandidateBehindGoesWrong(site, n, k, id);
      }
    }
  }

  /** The condition on arrivals is exact: after a statement that keeps the sort keys every orderly continuation keeps
      exclusion and order if and only if the statement meets it. */
  lemma ArrivalsBehindIsExact(site: Site, s: State, a: Action)
    requires Collates(site) && Safe(site, s) && Enabled(site, s, Statement(a)) && KeysKept(s.table, Apply(s.table, a))
    ensures !GoesWrong(site, Perform(site, s, Statement(a)))
            <==> ArrivalsBehind(site, s, Perform(site, s, Statement(a)))
  {
    var n := Perform(site, s, Statement(a));
    if ArrivalsBehind(site, s, n) {
      StatementIsSafe(site, s, a);
      forall events | IsRun(site, n, events)
        ensures Exclusive(site, After(site, n, events)) && Ordered(site, After(site, n, events))
      {
        RunIsSafe(site, n, events);
        SafeIsExclusive(site, After(site, n, events));
      }
    } else {
      var id :| Arrives(site, s.table, n.table, id) && !(BehindTracked(site, n, id)
        && (Candidate(site, n, id) ==> Cleared(site, n.table, id)));
      StrayArrivalGoesWrong(site, s, a, id);
    }
  }

  // ---------------------------------------------------------------- a resume into the queue is not orderly

  function TaskRow(createdAt: int): Row {
    Row("wf", Enqueued, Some("q"), None, Some("k"), 0, createdAt, None, None, 0, 0, "x", None, None, false, None, false,
        None, None, None, "", None, None, None, None)
  }

  function Claimed(r: Row): Row {
    ClaimRow(r, "x", "v", false, None, 0)
  }

  function Backlog(): State {
    State(map["a" := TaskRow(1), "b" := TaskRow(2)], {}, map[], [])
  }

  /** Worker 1 holds the head, which has meanwhile been cancelled. */
  function HeldCancelled(): State {
    Backlog().(table := map["a" := CancelRow(TaskRow(1), 0), "b" := TaskRow(2)], candidates := {(1, "a")})
  }

  /** Worker 2 has started the successor. */
  function SuccessorRuns(): State {
    State(map["a" := CancelRow(TaskRow(1), 0), "b" := Claimed(TaskRow(2))], {(1, "a")}, map[], ["b"])
  }

  /** The head is resumed into the same queue. */
  function HeadResumed(): State {
    SuccessorRuns().(table := map["a" := ResumeRow(CancelRow(TaskRow(1), 0), "q", 0), "b" := Claimed(TaskRow(2))])
  }

  function BothRun(): State {
    State(map["a" := Claimed(HeadResumed().table["a"]), "b" := Claimed(TaskRow(2))], {}, map[], ["b", "a"])
  }

  ghost predicate OneStep(site: Site, s: State, e: Event, n: State) {
    Enabled(site, s, e) && Perform(site, s, e) == n
  }

  ghost predicate RaceSite(site: Site) {
    site.queue == "q" && site.version == "v" && site.isLatest && site.app == None
  }

  lemma HeadIsProbed(site: Site)
    requires RaceSite(site)
    ensures OneStep(site, Backlog(), Probe(1, {"a"}), Backlog().(candidates := {(1, "a")}))
  {
    assert (set id | id in {"a"} :: (1, id)) == {(1, "a")};
  }

  lemma HeadIsCancelled(site: Site)
    requires RaceSite(site)
    ensures OneStep(site, Backlog().(candidates := {(1, "a")}), Statement(Cancel({"a"}, 0)), HeldCancelled())
  {
    assert Apply(Backlog().table, Cancel({"a"}, 0)) == HeldCancelled().table;
  }

  lemma SuccessorIsProbedAndLocked(site: Site)
    requires RaceSite(site)
    ensures var probed := HeldCancelled().(candidates := {(1, "a"), (2, "b")});
            && OneStep(site, HeldCancelled(), Probe(2, {"b"}), probed)
            && OneStep(site, probed, Lock(2, "b"), HeldCancelled().(locks := map["b" := 2]))
  {
    assert (set id | id in {"b"} :: (2, id)) == {(2, "b")};
  }

  lemma SuccessorStarts(site: Site)
    requires RaceSite(site)
    ensures OneStep(site, HeldCancelled().(locks := map["b" := 2]), FlipAndCommit(2, "x", 0, ["b"]), SuccessorRuns())
  {
    var s := HeldCancelled().(locks := map["b" := 2]);
    assert LockedBy(s, 2) == {"b"};
    assert Apply(s.table, Claim({"b"}, "x", "v", false, None, 0)) == SuccessorRuns().table;
    assert WithoutWorker(s, 2) == HeldCancelled();
  }

  lemma HeadIsResumedAndLocked(site: Site)
    requires RaceSite(site)
    ensures var locked := HeadResumed().(candidates := {}, locks := map["a" := 1]);
            && OneStep(site, SuccessorRuns(), Statement(Resume({"a"}, "q", 0)), HeadResumed())
            && OneStep(site, HeadResumed(), Lock(1, "a"), locked)
  {
    assert Apply(SuccessorRuns().table, Resume({"a"}, "q", 0)) == HeadResumed().table;
  }

  lemma HeadStartsToo(site: Site)
    requires RaceSite(site)
    ensures OneStep(site, HeadResumed().(candidates := {}, locks := map["a" := 1]), FlipAndCommit(1, "x", 0, ["a"]),
                    BothRun())
  {
    var s := HeadResumed().(candidates := {}, locks := map["a" := 1]);
    assert LockedBy(s, 1) == {"a"};
    assert Apply(s.table, Claim({"a"}, "x", "v", false, None, 0)) == BothRun().table;
    assert WithoutWorker(s, 1) == HeadResumed().(candidates := {});
  }

  ghost function AllSteps(): seq<Event> {
    [Probe(1, {"a"}), Statement(Cancel({"a"}, 0)), Probe(2, {"b"}), Lock(2, "b"), FlipAndCommit(2, "x", 0, ["b"]),
     Statement(Resume({"a"}, "q", 0)), Lock(1, "a"), FlipAndCommit(1, "x", 0, ["a"])]
  }

  lemma TakeStep(site: Site, s: State, events: seq<Event>, n: State)
    requires events != [] && OneStep(site, s, events[0], n)
    ensures After(site, s, events) == After(site, n, events[1..])
  {
  }

  /** A reachable state with two rows of one partition running: exclusion fails once resumes may enter the queue. */
  lemma ResumeIntoQueueBreaksExclusion(site: Site)
    requires RaceSite(site)
    ensures After(site, Backlog(), AllSteps()) == BothRun()
    ensures Admitted(site, BothRun(), "a") && Admitted(site, BothRun(), "b") && SamePartition(BothRun(), "a", "b")
  {
    var e := AllSteps();
    HeadIsProbed(site);
    HeadIsCancelled(site);
    TakeStep(site, Backlog(), e, Backlog().(candidates := {(1, "a")}));
    TakeStep(site, Backlog().(candidates := {(1, "a")}), e[1..], HeldCancelled());
    SuccessorIsProbedAndLocked(site);
    TakeStep(site, HeldCancelled(), e[1..][1..], HeldCancelled().(candidates := {(1, "a"), (2, "b")}));
    var e3 := e[1..][1..][1..];
    TakeStep(site, HeldCancelled().(candidates := {(1, "a"), (2, "b")}), e3, HeldCancelled().(locks := map["b" := 2]));
    SuccessorStarts(site);
    TakeStep(site, HeldCancelled().(locks := map["b" := 2]), e3[1..], SuccessorRuns());
    HeadIsResumedAndLocked(site);
    var e5 := e3[1..][1..];
    TakeStep(site, SuccessorRuns(), e5, HeadResumed());
    TakeStep(site, HeadResumed(), e5[1..], HeadResumed().(candidates := {}, locks := map["a" := 1]));
    HeadStartsToo(site);
    TakeStep(site, HeadResumed().(candidates := {}, locks := map["a" := 1]), e5[1..][1..], BothRun());
  }
}
