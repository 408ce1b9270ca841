/** The flow-controlled dequeue, one transaction per call and one call at a time, and the limits it keeps over whole
    runs. */
module QueueLimits {
  import opened Wrappers
  import opened WorkflowRows

  datatype RateLimit = RateLimit(limit: nat, periodMs: nat)

  datatype Limits = Limits(
    workerConcurrency: Option<nat>,
    partitionWorkerConcurrency: Option<nat>,
    globalConcurrency: Option<nat>,
    partitionConcurrency: Option<nat>,
    rateLimit: Option<RateLimit>,
    partitionRateLimit: Option<RateLimit>)

  /** The rows one dequeuer counts: a queue, seen by an application, perhaps one partition of it. */
  datatype Scope = Scope(queue: string, app: Option<string>, key: Option<string>)

  predicate InScope(s: Scope, r: Row) {
    r.queue == Some(s.queue) && AppMatches(s.app, r.app) && (s.key.Some? ==> r.partition == s.key)
  }

  /** What a budget counts: rows running now, or rate-limited starts later than `since`. */
  datatype Measure = Running | StartedAfter(since: int)

  predicate Counts(m: Measure, r: Row) {
    match m
    case Running => r.status == Pending
    case StartedAfter(since) =>
      r.rateLimited && r.status != Enqueued && r.status != Delayed && r.startedAt.Some? && r.startedAt.value > since
  }

  function CountedIds(t: Table, s: Scope, m: Measure): set<Id> {
    set id | id in t && InScope(s, t[id]) && Counts(m, t[id])
  }

  function Count(t: Table, s: Scope, m: Measure): nat {
    |CountedIds(t, s, m)|
  }

  /** One call of the dequeue: who asks, for which queue and partition, and at what database time. */
  datatype Caller = Caller(
    queue: string,
    executor: string,
    version: string,
    latest: Option<string>,
    app: Option<string>,
    key: Option<string>,
    localRunning: nat,
    partitionLocalRunning: nat,
    now: int)

  function Whole(c: Caller): Scope { Scope(c.queue, c.app, None) }
  function Part(c: Caller): Scope { Scope(c.queue, c.app, c.key) }

  predicate Eligible(c: Caller, r: Row) {
    && r.status == Enqueued
    && InScope(Part(c), r)
    && (r.version == Some(c.version) || (r.version.None? && (c.latest.None? || c.latest == Some(c.version))))
  }

  function EligibleIds(t: Table, c: Caller): set<Id> {
    set id | id in t && Eligible(c, t[id])
  }

  predicate Before(a: Row, b: Row) {
    a.priority < b.priority || (a.priority == b.priority && a.createdAt < b.createdAt)
  }

  // ---------------------------------------------------------------- the budget

  /** None is Infinity. */
  function AtMost(max: Option<int>, n: int): Option<int> {
    if max.None? || n < max.value then Some(n) else max
  }

  function NonNegative(n: int): nat {
    if n < 0 then 0 else n
  }

  /** This worker's own registry. */
  function LocalAllowance(limits: Limits, c: Caller): Option<int> {
    var max := if limits.workerConcurrency.None? then None
               else AtMost(None, NonNegative(limits.workerConcurrency.value - c.localRunning));
    if limits.partitionWorkerConcurrency.None? then max
    else AtMost(max, NonNegative(limits.partitionWorkerConcurrency.value - c.partitionLocalRunning))
  }

  function RateAllowance(t: Table, limits: Limits, c: Caller, local: Option<int>): Option<int> {
    var max := if limits.rateLimit.None? then local
               else AtMost(local, RateSlots(t, limits.rateLimit.value, Whole(c), c.now));
    if limits.partitionRateLimit.None? then max
    else AtMost(max, RateSlots(t, limits.partitionRateLimit.value, Part(c), c.now))
  }

  function ConcurrencyAllowance(t: Table, limits: Limits, c: Caller, rated: Option<int>): Option<int> {
    var max := if limits.globalConcurrency.None? then rated
               else AtMost(rated, NonNegative(limits.globalConcurrency.value - Count(t, Whole(c), Running)));
    if limits.partitionConcurrency.None? then max
    else AtMost(max, NonNegative(limits.partitionConcurrency.value - Count(t, Part(c), Running)))
  }

  /** Every limit that is set, applied to the table as it stands. */
  function Allowance(t: Table, limits: Limits, c: Caller): Option<int> {
    ConcurrencyAllowance(t, limits, c, RateAllowance(t, limits, c, LocalAllowance(limits, c)))
  }

  function RateSlots(t: Table, rate: RateLimit, s: Scope, now: int): int {
    rate.limit - Count(t, s, StartedAfter(now - rate.periodMs))
  }

  /** Different rows, each eligible. */
  ghost predicate Claimable(t: Table, c: Caller, rows: seq<Id>) {
    && (forall i, j :: 0 <= i < j < |rows| ==> rows[i] != rows[j])
    && (forall i :: 0 <= i < |rows| ==> rows[i] in EligibleIds(t, c))
  }

  /** `rows` is what `ORDER BY priority, created_at LIMIT max` may return: ties fall either way. */
  ghost predicate IsSelection(t: Table, c: Caller, max: Option<int>, rows: seq<Id>) {
    && Claimable(t, c, rows)
    && (forall i, j :: 0 <= i < j < |rows| ==> !Before(t[rows[j]], t[rows[i]]))
    && (forall id, i :: id in EligibleIds(t, c) && id !in rows && 0 <= i < |rows| ==> !Before(t[id], t[rows[i]]))
    && |rows| == (if max.None? || |EligibleIds(t, c)| <= max.value then |EligibleIds(t, c)| else NonNegative(max.value))
  }

  function Ids(rows: seq<Id>): set<Id> {
    set i | 0 <= i < |rows| :: rows[i]
  }

  predicate RateLimited(limits: Limits) {
    limits.rateLimit.Some? || limits.partitionRateLimit.Some?
  }

  function ClaimOf(c: Caller, limits: Limits, rows: seq<Id>): Action {
    Claim(Ids(rows), c.executor, c.version, RateLimited(limits), c.app, c.now)
  }

  // ---------------------------------------------------------------- by columns

  /** The rows of a queue, or of one partition of it, that an application may see. */
  predicate Seen(r: Row, queue: string, app: Option<string>, key: Option<string>) {
    && r.queue == Some(queue)
    && (app == None || r.app == None || r.app == app)
    && (key == None || r.partition == key)
  }

  function PendingRows(t: Table, queue: string, app: Option<string>, key: Option<string>): set<Id> {
    set id | id in t && Seen(t[id], queue, app, key) && t[id].status == Pending
  }

  function StartsSince(t: Table, queue: string, app: Option<string>, key: Option<string>, since: int): set<Id> {
    set id | id in t && Seen(t[id], queue, app, key) && t[id].rateLimited && t[id].status !in {Enqueued, Delayed}
             && t[id].startedAt.Some? && since < t[id].startedAt.value
  }

  /** What the caller may start: a worker of the latest version, or where none is known, takes unversioned rows too. */
  function StartableRows(t: Table, c: Caller): set<Id> {
    set id | id in t && t[id].status == Enqueued && Seen(t[id], c.queue, c.app, c.key)
             && (t[id].version == Some(c.version) || (t[id].version == None && c.latest in {None, Some(c.version)}))
  }

  /** With `n` more every limit that is set is kept. */
  ghost predicate Within(t: Table, limits: Limits, c: Caller, n: nat) {
    && (limits.workerConcurrency.Some? ==> c.localRunning + n <= limits.workerConcurrency.value)
    && (limits.partitionWorkerConcurrency.Some? ==>
          c.partitionLocalRunning + n <= limits.partitionWorkerConcurrency.value)
    && (limits.globalConcurrency.Some? ==>
          |PendingRows(t, c.queue, c.app, None)| + n <= limits.globalConcurrency.value)
    && (limits.partitionConcurrency.Some? ==>
          |PendingRows(t, c.queue, c.app, c.key)| + n <= limits.partitionConcurrency.value)
    && (limits.rateLimit.Some? ==>
          |StartsSince(t, c.queue, c.app, None, c.now - limits.rateLimit.value.periodMs)| + n
          <= limits.rateLimit.value.limit)
    && (limits.partitionRateLimit.Some? ==>
          |StartsSince(t, c.queue, c.app, c.key, c.now - limits.partitionRateLimit.value.periodMs)| + n
          <= limits.partitionRateLimit.value.limit)
  }

  /** The startable rows of least priority and, among equals, earliest creation, in that order. */
  ghost predicate FirstInLine(t: Table, c: Caller, rows: seq<Id>) {
    && (forall i, j :: 0 <= i < j < |rows| ==> rows[i] != rows[j])
    && (forall i :: 0 <= i < |rows| ==> rows[i] in StartableRows(t, c))
    && (forall i, j :: 0 <= i < j < |rows| ==> NoLater(t, rows[i], rows[j]))
    && (forall i, id :: 0 <= i < |rows| && id in StartableRows(t, c) && id !in rows ==> NoLater(t, rows[i], id))
  }

  predicate NoLater(t: Table, i: Id, j: Id) {
    && i in t && j in t
    && (t[i].priority < t[j].priority || (t[i].priority == t[j].priority && t[i].createdAt <= t[j].createdAt))
  }

  /** A started row: running here, now, once more, counted if any rate is, and owned. */
  ghost predicate Started(r: Row, u: Row, c: Caller, limits: Limits) {
    && u.status == Pending && u.executor == c.executor && u.version == Some(c.version) && u.startedAt == Some(c.now)
    && u.attempts == r.attempts + 1 && u.updatedAt == c.now
    && u.rateLimited == (limits.rateLimit != None || limits.partitionRateLimit != None)
    && u.app == (if r.app != None then r.app else c.app)
    && u.deadline == (if r.deadline == None && r.timeout.Some? then Some(c.now + r.timeout.value) else r.deadline)
    && u.queue == r.queue && u.partition == r.partition && u.priority == r.priority && u.dedup == r.dedup
    && u.input == r.input && u.output == r.output && u.error == r.error && u.completedAt == r.completedAt
  }

  lemma CountsAreColumns(t: Table, queue: string, app: Option<string>, key: Option<string>, since: int)
    ensures CountedIds(t, Scope(queue, app, key), Running) == PendingRows(t, queue, app, key)
    ensures CountedIds(t, Scope(queue, app, key), StartedAfter(since)) == StartsSince(t, queue, app, key, since)
  {
  }

  lemma EligibleAreColumns(t: Table, c: Caller)
    ensures EligibleIds(t, c) == StartableRows(t, c)
  {
  }

  lemma RatesAreColumns(t: Table, limits: Limits, c: Caller)
    ensures limits.rateLimit.Some? ==>
              RateSlots(t, limits.rateLimit.value, Whole(c), c.now) == limits.rateLimit.value.limit
              - |StartsSince(t, c.queue, c.app, None, c.now - limits.rateLimit.value.periodMs)|
    ensures limits.partitionRateLimit.Some? ==>
              RateSlots(t, limits.partitionRateLimit.value, Part(c), c.now) == limits.partitionRateLimit.value.limit
              - |StartsSince(t, c.queue, c.app, c.key, c.now - limits.partitionRateLimit.value.periodMs)|
  {
    if limits.rateLimit.Some? {
      CountsAreColumns(t, c.queue, c.app, None, c.now - limits.rateLimit.value.periodMs);
    }
    if limits.partitionRateLimit.Some? {
      CountsAreColumns(t, c.queue, c.app, c.key, c.now - limits.partitionRateLimit.value.periodMs);
    }
  }

  predicate Allows(max: Option<int>, n: nat) {
    max.None? || n <= max.value
  }

  lemma LocalIsExact(limits: Limits, c: Caller, n: nat)
    requires n > 0
    ensures Allows(LocalAllowance(limits, c), n) <==>
              && (limits.workerConcurrency.Some? ==> c.localRunning + n <= limits.workerConcurrency.value)
              && (limits.partitionWorkerConcurrency.Some? ==>
                    c.partitionLocalRunning + n <= limits.partitionWorkerConcurrency.value)
  {
  }

  lemma RatesAreExact(t: Table, limits: Limits, c: Caller, local: Option<int>, n: nat)
    ensures Allows(RateAllowance(t, limits, c, local), n) <==>
              && Allows(local, n)
              && (limits.rateLimit.Some? ==> n <= RateSlots(t, limits.rateLimit.value, Whole(c), c.now))
              && (limits.partitionRateLimit.Some? ==>
                    n <= RateSlots(t, limits.partitionRateLimit.value, Part(c), c.now))
  {
  }

  lemma ConcurrencyIsExact(t: Table, limits: Limits, c: Caller, rated: Option<int>, n: nat)
    requires n > 0
    ensures Allows(ConcurrencyAllowance(t, limits, c, rated), n) <==>
              && Allows(rated, n)
              && (limits.globalConcurrency.Some? ==>
                    Count(t, Whole(c), Running) + n <= limits.globalConcurrency.value)
              && (limits.partitionConcurrency.Some? ==>
                    Count(t, Part(c), Running) + n <= limits.partitionConcurrency.value)
  {
  }

  /** The allowance is no more and no less than every limit leaves. */
  lemma AllowanceIsExact(t: Table, limits: Limits, c: Caller, n: nat)
    requires n > 0
    ensures Allows(Allowance(t, limits, c), n) <==> Within(t, limits, c, n)
  {
    var local := LocalAllowance(limits, c);
    LocalIsExact(limits, c, n);
    RatesAreExact(t, limits, c, local, n);
    ConcurrencyIsExact(t, limits, c, RateAllowance(t, limits, c, local), n);
    RatesAreColumns(t, limits, c);
    CountsAreColumns(t, c.queue, c.app, None, 0);
    CountsAreColumns(t, c.queue, c.app, c.key, 0);
  }

  /** So a selection keeps every limit, and leaves no startable row that all of them have room for. */
  lemma SelectionIsExact(t: Table, limits: Limits, c: Caller, rows: seq<Id>)
    requires IsSelection(t, c, Allowance(t, limits, c), rows)
    ensures rows != [] ==> Within(t, limits, c, |rows|)
    ensures forall n: nat :: n <= |StartableRows(t, c)| && Within(t, limits, c, n) ==> n <= |rows|
    ensures FirstInLine(t, c, rows)
  {
    EligibleAreColumns(t, c);
    if rows != [] {
      AllowanceIsExact(t, limits, c, |rows|);
    }
    forall n: nat | n <= |StartableRows(t, c)| && Within(t, limits, c, n) ensures n <= |rows| {
      if n > 0 { AllowanceIsExact(t, limits, c, n); }
    }
  }

  // ---------------------------------------------------------------- the method

  ghost predicate IsFirst(t: Table, ids: set<Id>, id: Id)
    requires ids <= t.Keys
  {
    id in ids && forall j :: j in ids ==> !Before(t[j], t[id])
  }

  lemma {:induction false} SomeFirst(t: Table, ids: set<Id>) returns (first: Id)
    requires ids != {} && ids <= t.Keys
    ensures IsFirst(t, ids, first)
    decreases |ids|
  {
    first :| first in ids;
    if ids != {first} {
      var other := SomeFirst(t, ids - {first});
      if !Before(t[first], t[other]) {
        first := other;
      }
    }
  }

  lemma IdsGrow(rows: seq<Id>, id: Id)
    ensures Ids(rows + [id]) == Ids(rows) + {id}
  {
    var more := rows + [id];
    assert forall i :: 0 <= i < |rows| ==> more[i] == rows[i];
    assert more[|rows|] == id;
  }

  /** `rows` lists a part of `all`, each once, and `rest` is what it leaves. */
  ghost predicate Parted(all: set<Id>, rows: seq<Id>, rest: set<Id>) {
    && rest <= all && Ids(rows) == all - rest && |rows| + |rest| == |all|
    && (forall i :: 0 <= i < |rows| ==> rows[i] in all && rows[i] !in rest)
    && (forall i, j :: 0 <= i < j < |rows| ==> rows[i] != rows[j])
  }

  predicate Ahead(t: Table, i: Id, j: Id) {
    i in t && j in t && Before(t[i], t[j])
  }

  /** `rows` are in order, and nothing of `rest` belongs before any of them. */
  ghost predicate Leads(t: Table, rows: seq<Id>, rest: set<Id>) {
    && (forall i, j :: 0 <= i < j < |rows| ==> !Ahead(t, rows[j], rows[i]))
    && (forall id, i :: id in rest && 0 <= i < |rows| ==> !Ahead(t, id, rows[i]))
  }

  lemma TakenIsParted(all: set<Id>, rows: seq<Id>, rest: set<Id>, id: Id)
    requires Parted(all, rows, rest) && id in rest
    ensures Parted(all, rows + [id], rest - {id})
  {
    IdsGrow(rows, id);
  }

  lemma TakenLeads(t: Table, rows: seq<Id>, rest: set<Id>, id: Id)
    requires Leads(t, rows, rest) && id in rest && forall j :: j in rest ==> !Ahead(t, j, id)
    ensures Leads(t, rows + [id], rest - {id})
  {
    var more := rows + [id];
    forall i, j | 0 <= i < j < |more| ensures !Ahead(t, more[j], more[i]) {
      assert more[i] == rows[i] && (j < |rows| ==> more[j] == rows[j]);
    }
    forall j, i | j in rest - {id} && 0 <= i < |more| ensures !Ahead(t, j, more[i]) {
      assert j in rest && (i < |rows| ==> more[i] == rows[i]);
    }
  }

  /** The ordered, limited select under its row locks. */
  method SelectStartable(t: Table, c: Caller, max: Option<int>) returns (rows: seq<Id>)
    ensures IsSelection(t, c, max, rows)
  {
    var all := EligibleIds(t, c);
    var rest := all;
    rows := [];
    while rest != {} && (max.None? || |rows| < max.value)
      invariant Parted(all, rows, rest) && Leads(t, rows, rest)
      invariant rows != [] && max.Some? ==> |rows| <= max.value
      decreases |rest|
    {
      ghost var first := SomeFirst(t, rest);
      var id :| id in rest && forall j :: j in rest ==> !Before(t[j], t[id]);
      TakenIsParted(all, rows, rest, id);
      TakenLeads(t, rows, rest, id);
      rows, rest := rows + [id], rest - {id};
    }
    forall id, i | id in all && id !in rows && 0 <= i < |rows| ensures !Before(t[id], t[rows[i]]) {
      assert id !in Ids(rows) && id in rest && !Ahead(t, id, rows[i]);
    }
    forall i, j | 0 <= i < j < |rows| ensures !Before(t[rows[j]], t[rows[i]]) {
      assert !Ahead(t, rows[j], rows[i]);
    }
  }

  method RateLimitRemaining(t: Table, rate: RateLimit, s: Scope, now: int) returns (slots: int)
    ensures slots == RateSlots(t, rate, s, now)
  {
    slots := rate.limit - |set id | id in t && InScope(s, t[id]) && Counts(StartedAfter(now - rate.periodMs), t[id])|;
  }

  method PendingCount(t: Table, s: Scope) returns (n: nat)
    ensures n == Count(t, s, Running)
  {
    n := |set id | id in t && InScope(s, t[id]) && Counts(Running, t[id])|;
  }

  /** Flip the selected rows to PENDING. */
  method MarkStarted(db: SystemDatabase, limits: Limits, c: Caller, rows: seq<Id>)
    modifies db
    ensures db.workflowStatus == Apply(old(db.workflowStatus), ClaimOf(c, limits, rows))
  {
    var t, flipped, limited := db.workflowStatus, Ids(rows), RateLimited(limits);
    db.workflowStatus := map id | id in t ::
      if id in flipped then ClaimRow(t[id], c.executor, c.version, limited, c.app, c.now) else t[id];
  }

  lemma NothingStarted(t: Table, limits: Limits, c: Caller, max: Option<int>)
    requires Spent(max)
    ensures IsSelection(t, c, max, [])
    ensures Apply(t, ClaimOf(c, limits, [])) == t
  {
  }

  predicate Spent(max: Option<int>) {
    max.Some? && max.value <= 0
  }

  method WithinRates(t: Table, limits: Limits, c: Caller, local: Option<int>) returns (max: Option<int>)
    ensures max == RateAllowance(t, limits, c, local)
  {
    max := local;
    if limits.rateLimit.Some? {
      var slots := RateLimitRemaining(t, limits.rateLimit.value, Whole(c), c.now);
      max := AtMost(max, slots);
    }
    if limits.partitionRateLimit.Some? {
      var slots := RateLimitRemaining(t, limits.partitionRateLimit.value, Part(c), c.now);
      max := AtMost(max, slots);
    }
  }

  method WithinConcurrency(t: Table, limits: Limits, c: Caller, rated: Option<int>) returns (max: Option<int>)
    ensures max == ConcurrencyAllowance(t, limits, c, rated)
  {
    max := rated;
    if limits.globalConcurrency.Some? {
      var running := PendingCount(t, Whole(c));
      max := AtMost(max, NonNegative(limits.globalConcurrency.value - running));
    }
    if limits.partitionConcurrency.Some? {
      var running := PendingCount(t, Part(c));
      max := AtMost(max, NonNegative(limits.partitionConcurrency.value - running));
    }
  }

  /** How many workflows may start under every limit; the costlier counts are skipped once nothing may. */
  method MaxTasks(t: Table, limits: Limits, c: Caller) returns (max: Option<int>)
    ensures max == Allowance(t, limits, c) || (Spent(max) && Spent(Allowance(t, limits, c)))
  {
    max := LocalAllowance(limits, c);
    if Spent(max) { return; }
    max := WithinRates(t, limits, c, max);
    if Spent(max) { return; }
    max := WithinConcurrency(t, limits, c, max);
  }

  lemma ClaimedRowStarts(r: Row, limits: Limits, c: Caller)
    requires r.status == Enqueued && AppMatches(c.app, r.app)
    ensures Started(r, ClaimRow(r, c.executor, c.version, RateLimited(limits), c.app, c.now), c, limits)
  {
  }

  lemma ClaimStarts(t: Table, limits: Limits, c: Caller, claimed: seq<Id>)
    requires forall id :: id in claimed ==> id in StartableRows(t, c)
    ensures var u := Apply(t, ClaimOf(c, limits, claimed));
            u.Keys == t.Keys &&
            forall id :: id in t ==> if id in claimed then Started(t[id], u[id], c, limits) else u[id] == t[id]
  {
    var u := Apply(t, ClaimOf(c, limits, claimed));
    forall id | id in t
      ensures if id in claimed then Started(t[id], u[id], c, limits) else u[id] == t[id]
    {
      assert id in Ids(claimed) <==> id in claimed;
      if id in claimed { ClaimedRowStarts(t[id], limits, c); }
    }
  }

  /** Claim the first of the startable workflows, as many as every limit leaves room for. */
  method FindAndMarkStartableWorkflows(db: SystemDatabase, limits: Limits, c: Caller) returns (claimed: seq<Id>)
    modifies db
    ensures IsSelection(old(db.workflowStatus), c, Allowance(old(db.workflowStatus), limits, c), claimed)
    ensures db.workflowStatus == Apply(old(db.workflowStatus), ClaimOf(c, limits, claimed))
    ensures FirstInLine(old(db.workflowStatus), c, claimed)
    ensures claimed != [] ==> Within(old(db.workflowStatus), limits, c, |claimed|)
    ensures forall n: nat ::
              n <= |StartableRows(old(db.workflowStatus), c)| && Within(old(db.workflowStatus), limits, c, n) ==>
                n <= |claimed|
    ensures db.workflowStatus.Keys == old(db.workflowStatus).Keys
    ensures forall id :: id in old(db.workflowStatus) ==>
              if id in claimed then Started(old(db.workflowStatus)[id], db.workflowStatus[id], c, limits)
              else db.workflowStatus[id] == old(db.workflowStatus)[id]
  {
    var max := MaxTasks(db.workflowStatus, limits, c);
    if Spent(max) {
      NothingStarted(db.workflowStatus, limits, c, Allowance(db.workflowStatus, limits, c));
      SelectionIsExact(db.workflowStatus, limits, c, []);
      return [];
    }
    claimed := SelectStartable(db.workflowStatus, c, max);
    SelectionIsExact(db.workflowStatus, limits, c, claimed);
    ClaimStarts(db.workflowStatus, limits, c, claimed);
    MarkStarted(db, limits, c, claimed);
  }

  // ---------------------------------------------------------------- limits over whole runs

  /** A run mixes dequeues on any queues with every other statement. */
  datatype Event = Dequeue(caller: Caller, claimed: seq<Id>) | Statement(action: Action)

  /** What the caller counts is all that anyone would count. */
  ghost predicate CountsAll(t: Table, c: Caller, key: Option<string>, m: Measure) {
    forall id :: id in CountedIds(t, Scope(c.queue, None, key), m) ==> AppMatches(c.app, t[id].app)
  }

  /** ... under each limit that is set. A nameless caller sees all; a named one does where no other name has rows. */
  ghost predicate SeesAll(t: Table, limits: Limits, c: Caller) {
    && (limits.globalConcurrency.Some? ==> CountsAll(t, c, None, Running))
    && (limits.partitionConcurrency.Some? ==> CountsAll(t, c, c.key, Running))
    && (limits.rateLimit.Some? ==> CountsAll(t, c, None, StartedAfter(c.now - limits.rateLimit.value.periodMs)))
    && (limits.partitionRateLimit.Some? ==>
          CountsAll(t, c, c.key, StartedAfter(c.now - limits.partitionRateLimit.value.periodMs)))
  }

  /** Each queue's limits are fixed; a queue limited per partition is always dequeued per partition. If nameless handles
      are to observe, a dequeue that claims sees all rows it counts. */
  ghost predicate Allowed(t: Table, config: string -> Limits, nameless: bool, clock: int, e: Event) {
    match e
    case Dequeue(c, claimed) =>
      var limits := config(c.queue);
      && clock <= c.now
      && (nameless && claimed != [] ==> SeesAll(t, limits, c))
      && IsSelection(t, c, Allowance(t, limits, c), claimed)
      && (limits.partitionConcurrency.Some? || limits.partitionRateLimit.Some? ==> c.key.Some?)
    case Statement(a) => !a.Claim?
  }

  ghost function Perform(t: Table, config: string -> Limits, e: Event): Table {
    match e
    case Dequeue(c, claimed) => Apply(t, ClaimOf(c, config(c.queue), claimed))
    case Statement(a) => Apply(t, a)
  }

  function Tick(clock: int, e: Event): int {
    if e.Dequeue? then e.caller.now else clock
  }

  ghost predicate IsRun(t: Table, config: string -> Limits, nameless: bool, clock: int, events: seq<Event>)
    decreases |events|
  {
    events != [] ==>
      && Allowed(t, config, nameless, clock, events[0])
      && IsRun(Perform(t, config, events[0]), config, nameless, Tick(clock, events[0]), events[1..])
  }

  ghost function After(t: Table, config: string -> Limits, events: seq<Event>): Table
    decreases |events|
  {
    if events == [] then t else After(Perform(t, config, events[0]), config, events[1..])
  }

  /** Database time as of the last dequeue. */
  function ClockAfter(clock: int, events: seq<Event>): int
    decreases |events|
  {
    if events == [] then clock else ClockAfter(Tick(clock, events[0]), events[1..])
  }

  ghost predicate ConcurrencyKept(t: Table, s: Scope, limit: Option<nat>) {
    limit.Some? ==> Count(t, s, Running) <= limit.value
  }

  /** At the clock and ever after, unless more is started. */
  ghost predicate RateKept(t: Table, s: Scope, rate: Option<RateLimit>, clock: int) {
    rate.Some? ==> forall time :: clock <= time ==> RateSlots(t, rate.value, s, time) >= 0
  }

  ghost predicate Observer(app: Option<string>, nameless: bool) {
    app.Some? || nameless
  }

  ghost predicate KeptFor(t: Table, limits: Limits, queue: string, app: Option<string>, key: string, clock: int) {
    && ConcurrencyKept(t, Scope(queue, app, None), limits.globalConcurrency)
    && ConcurrencyKept(t, Scope(queue, app, Some(key)), limits.partitionConcurrency)
    && RateKept(t, Scope(queue, app, None), limits.rateLimit, clock)
    && RateKept(t, Scope(queue, app, Some(key)), limits.partitionRateLimit, clock)
  }

  /** No observer sees any limit of the queue exceeded, for the queue or for any of its partitions. Every named
      application observes, and a handle with no name if `nameless` is set. */
  ghost predicate LimitsKept(t: Table, limits: Limits, queue: string, nameless: bool, clock: int) {
    forall app: Option<string>, key: string :: Observer(app, nameless) ==> KeptFor(t, limits, queue, app, key, clock)
  }

  lemma SubsetSize<T>(a: set<T>, b: set<T>)
    requires a <= b
    ensures |a| <= |b|
  {
    assert b == a + (b - a);
  }

  lemma {:induction false} IdsSize(rows: seq<Id>)
    ensures |Ids(rows)| <= |rows|
  {
    if rows != [] {
      var last := |rows| - 1;
      IdsSize(rows[..last]);
      assert Ids(rows) == Ids(rows[..last]) + {rows[last]};
    }
  }

  lemma ClosedRowNeverAdds(a: Action, id: Id, r: Row, s: Scope, m: Measure)
    requires a.Record? || a.DeadLetter? || a.Cancel?
    requires InScope(s, UpdatedRow(a, id, r)) && Counts(m, UpdatedRow(a, id, r))
    ensures InScope(s, r) && Counts(m, r)
  {
  }

  lemma WaitingRowNeverCounts(a: Action, id: Id, r: Row, s: Scope, m: Measure)
    requires a.Reenqueue? || a.Resume? || a.TransitionDelayed?
    requires InScope(s, UpdatedRow(a, id, r)) && Counts(m, UpdatedRow(a, id, r))
    ensures InScope(s, r) && Counts(m, r)
  {
  }

  lemma AdjustedRowNeverAdds(a: Action, id: Id, r: Row, s: Scope, m: Measure)
    requires a.SetPriority? || a.SetDelay? || a.Debounce? || a.TakeOver? || Inserts(a)
    requires InScope(s, UpdatedRow(a, id, r)) && Counts(m, UpdatedRow(a, id, r))
    ensures InScope(s, r) && Counts(m, r)
  {
  }

  lemma OtherRowNeverAdds(a: Action, id: Id, r: Row, s: Scope, m: Measure)
    requires !a.Claim?
    requires InScope(s, UpdatedRow(a, id, r)) && Counts(m, UpdatedRow(a, id, r))
    ensures InScope(s, r) && Counts(m, r)
  {
    if a.Record? || a.DeadLetter? || a.Cancel? {
      ClosedRowNeverAdds(a, id, r, s, m);
    } else if a.Reenqueue? || a.Resume? || a.TransitionDelayed? {
      WaitingRowNeverCounts(a, id, r, s, m);
    } else {
      AdjustedRowNeverAdds(a, id, r, s, m);
    }
  }

  lemma OthersAddNone(t: Table, a: Action, s: Scope, m: Measure)
    requires !a.Claim?
    ensures CountedIds(Apply(t, a), s, m) <= CountedIds(t, s, m)
  {
    forall id | id in CountedIds(Apply(t, a), s, m)
      ensures id in CountedIds(t, s, m)
    {
      if id in t && Apply(t, a)[id] == UpdatedRow(a, id, t[id]) {
        OtherRowNeverAdds(a, id, t[id], s, m);
      }
    }
  }

  /** Outcomes, cancels, resumes, recovery, inserts: none of them adds to a budget. */
  lemma OthersNeverAdd(t: Table, a: Action, s: Scope, m: Measure)
    requires !a.Claim?
    ensures Count(Apply(t, a), s, m) <= Count(t, s, m)
  {
    OthersAddNone(t, a, s, m);
    SubsetSize(CountedIds(Apply(t, a), s, m), CountedIds(t, s, m));
  }

  /** What a row must be for a claim to bring it into a scope's count: on the scope's queue and key, and counted by the
      claiming application too. */
  lemma ClaimedRowCounts(c: Caller, limited: bool, r: Row, s: Scope, m: Measure)
    requires Eligible(c, r) && (s.key.Some? ==> c.key.Some?)
    requires var u := ClaimRow(r, c.executor, c.version, limited, c.app, c.now); InScope(s, u) && Counts(m, u)
    ensures s.queue == c.queue && (s.key.None? || s.key == c.key)
    ensures c.app.None? || s.app.None? || c.app == s.app
  {
  }

  lemma UnclaimedRowStays(t: Table, limits: Limits, c: Caller, claimed: seq<Id>, id: Id)
    requires id in t && id !in Ids(claimed)
    ensures Apply(t, ClaimOf(c, limits, claimed))[id] == t[id]
  {
  }

  /** A claim adds to an application's scope only what its own count of a scope at least as wide allowed. */
  lemma ClaimAdds(t: Table, limits: Limits, c: Caller, claimed: seq<Id>, app: Option<string>, key: Option<string>,
                  queue: string, m: Measure)
    requires Claimable(t, c, claimed)
    requires key.Some? ==> c.key.Some?
    requires app.None? && queue == c.queue && (key.None? || key == c.key) && claimed != [] ==> CountsAll(t, c, key, m)
    ensures var before := Count(t, Scope(queue, app, key), m);
            var after := Count(Apply(t, ClaimOf(c, limits, claimed)), Scope(queue, app, key), m);
            after <= before ||
            (queue == c.queue && (key.None? || key == c.key) && claimed != [] &&
             after <= Count(t, Scope(queue, c.app, key), m) + |claimed|)
  {
    var s, wide := Scope(queue, app, key), Scope(queue, c.app, key);
    var u := Apply(t, ClaimOf(c, limits, claimed));
    var before, after, base := CountedIds(t, s, m), CountedIds(u, s, m), CountedIds(t, wide, m);
    forall id | id in after && id !in Ids(claimed) ensures id in before {
      UnclaimedRowStays(t, limits, c, claimed, id);
    }
    if added :| added in after && added in Ids(claimed) {
      assert Eligible(c, t[added]);
      ClaimedRowCounts(c, RateLimited(limits), t[added], s, m);
      assert before <= base;
      SubsetSize(after, base + Ids(claimed));
      IdsSize(claimed);
    } else {
      SubsetSize(after, before);
    }
  }

  /** A measure under which this claim's rows count once they are claimed. */
  predicate CountsClaims(m: Measure, limits: Limits, c: Caller) {
    m.StartedAfter? ==> RateLimited(limits) && m.since < c.now
  }

  lemma {:induction false} IdsCount(rows: seq<Id>)
    requires forall i, j :: 0 <= i < j < |rows| ==> rows[i] != rows[j]
    ensures |Ids(rows)| == |rows|
  {
    if rows != [] {
      var last := |rows| - 1;
      IdsCount(rows[..last]);
      assert Ids(rows) == Ids(rows[..last]) + {rows[last]};
    }
  }

  /** A claimed row leaves no count and enters that of its claimer and of a nameless handle. */
  lemma ClaimedRowEnters(c: Caller, limits: Limits, r: Row, s: Scope, m: Measure)
    requires Eligible(c, r) && CountsClaims(m, limits, c)
    requires s.queue == c.queue && (s.key.None? || s.key == c.key) && (s.app.None? || s.app == c.app)
    ensures !Counts(m, r)
    ensures var u := ClaimRow(r, c.executor, c.version, RateLimited(limits), c.app, c.now);
            InScope(s, u) && Counts(m, u)
  {
  }

  lemma EnteringRowsAdd(t: Table, u: Table, ids: set<Id>, s: Scope, m: Measure)
    requires u.Keys == t.Keys && forall id :: id in t && id !in ids ==> u[id] == t[id]
    requires forall id :: id in ids ==> id in CountedIds(u, s, m) && id !in CountedIds(t, s, m)
    ensures Count(u, s, m) == Count(t, s, m) + |ids|
  {
    assert CountedIds(u, s, m) == CountedIds(t, s, m) + ids;
  }

  /** A claim adds exactly its rows to what its claimer counts, and to what a nameless handle counts. */
  lemma ClaimCountsExactly(t: Table, limits: Limits, c: Caller, claimed: seq<Id>, s: Scope, m: Measure)
    requires Claimable(t, c, claimed) && CountsClaims(m, limits, c)
    requires s.queue == c.queue && (s.key.None? || s.key == c.key) && (s.app.None? || s.app == c.app)
    ensures Count(Apply(t, ClaimOf(c, limits, claimed)), s, m) == Count(t, s, m) + |claimed|
  {
    var u := Apply(t, ClaimOf(c, limits, claimed));
    forall id | id in Ids(claimed) ensures id in t && id in CountedIds(u, s, m) && id !in CountedIds(t, s, m) {
      assert Eligible(c, t[id]);
      ClaimedRowEnters(c, limits, t[id], s, m);
    }
    forall id | id in t && id !in Ids(claimed) ensures u[id] == t[id] {
      UnclaimedRowStays(t, limits, c, claimed, id);
    }
    EnteringRowsAdd(t, u, Ids(claimed), s, m);
    IdsCount(claimed);
  }

  /** The slots a rate limit leaves are the starts it has room for: a claim uses up exactly its number of them. */
  lemma SlotsAreRoom(t: Table, limits: Limits, c: Caller, claimed: seq<Id>, rate: RateLimit, key: Option<string>)
    requires Claimable(t, c, claimed) && RateLimited(limits) && rate.periodMs > 0
    requires key.None? || key == c.key
    ensures var s := Scope(c.queue, c.app, key);
            var u := Apply(t, ClaimOf(c, limits, claimed));
            && RateSlots(u, rate, s, c.now) == RateSlots(t, rate, s, c.now) - |claimed|
            && (Count(u, s, StartedAfter(c.now - rate.periodMs)) <= rate.limit <==>
                |claimed| <= RateSlots(t, rate, s, c.now))
  {
    ClaimCountsExactly(t, limits, c, claimed, Scope(c.queue, c.app, key), StartedAfter(c.now - rate.periodMs));
  }

  lemma AllowanceBounds(t: Table, limits: Limits, c: Caller, claimed: seq<Id>)
    requires IsSelection(t, c, Allowance(t, limits, c), claimed) && claimed != []
    ensures limits.globalConcurrency.Some? ==>
              Count(t, Whole(c), Running) + |claimed| <= limits.globalConcurrency.value
    ensures limits.partitionConcurrency.Some? ==>
              Count(t, Part(c), Running) + |claimed| <= limits.partitionConcurrency.value
    ensures limits.rateLimit.Some? ==> |claimed| <= RateSlots(t, limits.rateLimit.value, Whole(c), c.now)
    ensures limits.partitionRateLimit.Some? ==>
              |claimed| <= RateSlots(t, limits.partitionRateLimit.value, Part(c), c.now)
  {
  }

  /** As time passes without a start, the window only loses rows. */
  lemma WindowShrinks(t: Table, s: Scope, rate: RateLimit, earlier: int, later: int)
    requires earlier <= later
    ensures RateSlots(t, rate, s, earlier) <= RateSlots(t, rate, s, later)
  {
    SubsetSize(CountedIds(t, s, StartedAfter(later - rate.periodMs)),
               CountedIds(t, s, StartedAfter(earlier - rate.periodMs)));
  }

  lemma DequeueKeepsConcurrency(t: Table, limits: Limits, c: Caller, claimed: seq<Id>, app: Option<string>,
                                key: Option<string>, queue: string, limit: Option<nat>)
    requires IsSelection(t, c, Allowance(t, limits, c), claimed)
    requires app.None? && queue == c.queue && limit.Some? && (key.None? || key == c.key) && claimed != [] ==>
               CountsAll(t, c, key, Running)
    requires queue == c.queue ==> limit == if key.None? then limits.globalConcurrency else limits.partitionConcurrency
    requires queue == c.queue && key.Some? && limit.Some? ==> c.key.Some?
    requires ConcurrencyKept(t, Scope(queue, app, key), limit)
    ensures ConcurrencyKept(Apply(t, ClaimOf(c, limits, claimed)), Scope(queue, app, key), limit)
  {
    if limit.Some? {
      if queue != c.queue {
        ClaimElsewhere(t, limits, c, claimed, Scope(queue, app, key), Running);
      } else {
        ClaimAdds(t, limits, c, claimed, app, key, queue, Running);
        if claimed != [] {
          AllowanceBounds(t, limits, c, claimed);
        }
      }
    }
  }

  lemma ClaimElsewhere(t: Table, limits: Limits, c: Caller, claimed: seq<Id>, s: Scope, m: Measure)
    requires Claimable(t, c, claimed) && s.queue != c.queue
    ensures Count(Apply(t, ClaimOf(c, limits, claimed)), s, m) <= Count(t, s, m)
  {
    var u := Apply(t, ClaimOf(c, limits, claimed));
    assert forall id :: id in Ids(claimed) ==> Eligible(c, t[id]);
    SubsetSize(CountedIds(u, s, m), CountedIds(t, s, m));
  }

  lemma DequeueKeepsWindow(t: Table, limits: Limits, c: Caller, claimed: seq<Id>, app: Option<string>,
                           key: Option<string>, queue: string, rate: RateLimit)
    requires IsSelection(t, c, Allowance(t, limits, c), claimed)
    requires app.None? && queue == c.queue && (key.None? || key == c.key) && claimed != [] ==>
               CountsAll(t, c, key, StartedAfter(c.now - rate.periodMs))
    requires queue == c.queue ==> Some(rate) == if key.None? then limits.rateLimit else limits.partitionRateLimit
    requires queue == c.queue && key.Some? ==> c.key.Some?
    requires RateSlots(t, rate, Scope(queue, app, key), c.now) >= 0
    ensures RateSlots(Apply(t, ClaimOf(c, limits, claimed)), rate, Scope(queue, app, key), c.now) >= 0
  {
    var window := StartedAfter(c.now - rate.periodMs);
    if queue != c.queue {
      ClaimElsewhere(t, limits, c, claimed, Scope(queue, app, key), window);
    } else {
      ClaimAdds(t, limits, c, claimed, app, key, queue, window);
      if claimed != [] && (key.None? || key == c.key) {
        WindowHasRoom(t, limits, c, claimed, key, rate);
      }
    }
  }

  lemma WindowHasRoom(t: Table, limits: Limits, c: Caller, claimed: seq<Id>, key: Option<string>, rate: RateLimit)
    requires IsSelection(t, c, Allowance(t, limits, c), claimed) && claimed != []
    requires Some(rate) == if key.None? then limits.rateLimit else limits.partitionRateLimit
    requires key.None? || key == c.key
    ensures Count(t, Scope(c.queue, c.app, key), StartedAfter(c.now - rate.periodMs)) + |claimed| <= rate.limit
  {
    AllowanceBounds(t, limits, c, claimed);
  }

  lemma DequeueKeepsRate(t: Table, limits: Limits, c: Caller, claimed: seq<Id>, app: Option<string>,
                         key: Option<string>, queue: string, rate: Option<RateLimit>, clock: int)
    requires IsSelection(t, c, Allowance(t, limits, c), claimed) && clock <= c.now
    requires app.None? && queue == c.queue && rate.Some? && (key.None? || key == c.key) && claimed != [] ==>
               CountsAll(t, c, key, StartedAfter(c.now - rate.value.periodMs))
    requires queue == c.queue ==> rate == if key.None? then limits.rateLimit else limits.partitionRateLimit
    requires queue == c.queue && key.Some? && rate.Some? ==> c.key.Some?
    requires RateKept(t, Scope(queue, app, key), rate, clock)
    ensures RateKept(Apply(t, ClaimOf(c, limits, claimed)), Scope(queue, app, key), rate, c.now)
  {
    if rate.Some? {
      DequeueKeepsWindow(t, limits, c, claimed, app, key, queue, rate.value);
      forall time | c.now <= time
        ensures RateSlots(Apply(t, ClaimOf(c, limits, claimed)), rate.value, Scope(queue, app, key), time) >= 0
      {
        WindowShrinks(Apply(t, ClaimOf(c, limits, claimed)), Scope(queue, app, key), rate.value, c.now, time);
      }
    }
  }

  lemma OthersKeepRate(t: Table, a: Action, s: Scope, rate: Option<RateLimit>, clock: int)
    requires !a.Claim? && RateKept(t, s, rate, clock)
    ensures RateKept(Apply(t, a), s, rate, clock)
  {
    if rate.Some? {
      forall time | clock <= time
        ensures RateSlots(Apply(t, a), rate.value, s, time) >= 0
      {
        assert RateSlots(t, rate.value, s, time) >= 0;
        OthersNeverAdd(t, a, s, StartedAfter(time - rate.value.periodMs));
      }
    }
  }

  lemma EventKeepsLimits(t: Table, config: string -> Limits, queue: string, nameless: bool, clock: int,
                          e: Event)
    requires LimitsKept(t, config(queue), queue, nameless, clock) && Allowed(t, config, nameless, clock, e)
    ensures LimitsKept(Perform(t, config, e), config(queue), queue, nameless, Tick(clock, e))
  {
    var limits := config(queue);
    forall app: Option<string>, key: string | Observer(app, nameless)
      ensures KeptFor(Perform(t, config, e), limits, queue, app, key, Tick(clock, e))
    {
      assert KeptFor(t, limits, queue, app, key, clock);
      match e
      case Dequeue(c, claimed) =>
        var used := config(c.queue);
        DequeueKeepsConcurrency(t, used, c, claimed, app, None, queue, limits.globalConcurrency);
        DequeueKeepsConcurrency(t, used, c, claimed, app, Some(key), queue, limits.partitionConcurrency);
        DequeueKeepsRate(t, used, c, claimed, app, None, queue, limits.rateLimit, clock);
        DequeueKeepsRate(t, used, c, claimed, app, Some(key), queue, limits.partitionRateLimit, clock);
      case Statement(a) =>
        OthersNeverAdd(t, a, Scope(queue, app, None), Running);
        OthersNeverAdd(t, a, Scope(queue, app, Some(key)), Running);
        OthersKeepRate(t, a, Scope(queue, app, None), limits.rateLimit, clock);
        OthersKeepRate(t, a, Scope(queue, app, Some(key)), limits.partitionRateLimit, clock);
    }
  }

  lemma {:induction false} RunKeepsLimits(t: Table, config: string -> Limits, queue: string, nameless: bool,
                                          clock: int, events: seq<Event>)
    requires LimitsKept(t, config(queue), queue, nameless, clock) && IsRun(t, config, nameless, clock, events)
    ensures LimitsKept(After(t, config, events), config(queue), queue, nameless, ClockAfter(clock, events))
    decreases |events|
  {
    if events != [] {
      EventKeepsLimits(t, config, queue, nameless, clock, events[0]);
      RunKeepsLimits(Perform(t, config, events[0]), config, queue, nameless, Tick(clock, events[0]), events[1..]);
    }
  }

  /** What an observer sees in the table: as many running rows, and starts in any window from now on, as the limits
      let. */
  ghost predicate SeenWithin(t: Table, limits: Limits, queue: string, app: Option<string>, key: string, clock: int) {
    && (limits.globalConcurrency.Some? ==> |PendingRows(t, queue, app, None)| <= limits.globalConcurrency.value)
    && (limits.partitionConcurrency.Some? ==>
          |PendingRows(t, queue, app, Some(key))| <= limits.partitionConcurrency.value)
    && (limits.rateLimit.Some? ==>
          forall since :: clock - limits.rateLimit.value.periodMs <= since ==>
            |StartsSince(t, queue, app, None, since)| <= limits.rateLimit.value.limit)
    && (limits.partitionRateLimit.Some? ==>
          forall since :: clock - limits.partitionRateLimit.value.periodMs <= since ==>
            |StartsSince(t, queue, app, Some(key), since)| <= limits.partitionRateLimit.value.limit)
  }

  lemma KeptIsSeen(t: Table, limits: Limits, queue: string, app: Option<string>, key: string, clock: int)
    requires KeptFor(t, limits, queue, app, key, clock)
    ensures SeenWithin(t, limits, queue, app, key, clock)
  {
    CountsAreColumns(t, queue, app, None, 0);
    CountsAreColumns(t, queue, app, Some(key), 0);
    if limits.rateLimit.Some? {
      WindowIsSeen(t, queue, app, None, limits.rateLimit.value, clock);
    }
    if limits.partitionRateLimit.Some? {
      WindowIsSeen(t, queue, app, Some(key), limits.partitionRateLimit.value, clock);
    }
  }

  lemma WindowIsSeen(t: Table, queue: string, app: Option<string>, key: Option<string>, rate: RateLimit, clock: int)
    requires RateKept(t, Scope(queue, app, key), Some(rate), clock)
    ensures forall since :: clock - rate.periodMs <= since ==> |StartsSince(t, queue, app, key, since)| <= rate.limit
  {
    forall since | clock - rate.periodMs <= since ensures |StartsSince(t, queue, app, key, since)| <= rate.limit {
      assert RateSlots(t, rate, Scope(queue, app, key), since + rate.periodMs) >= 0;
      CountsAreColumns(t, queue, app, key, since);
    }
  }

  lemma AllSeeWithin(t: Table, limits: Limits, queue: string, nameless: bool, clock: int)
    requires LimitsKept(t, limits, queue, nameless, clock)
    ensures forall app: Option<string>, key: string :: Observer(app, nameless) ==>
              SeenWithin(t, limits, queue, app, key, clock)
  {
    forall app: Option<string>, key: string | Observer(app, nameless)
      ensures SeenWithin(t, limits, queue, app, key, clock)
    {
      KeptIsSeen(t, limits, queue, app, key, clock);
    }
  }

  /** From an empty table, whatever happens: every queue, every observer, every limit. */
  lemma LimitsNeverExceeded(config: string -> Limits, queue: string, nameless: bool, clock: int, events: seq<Event>)
    requires IsRun(map[], config, nameless, clock, events)
    ensures LimitsKept(After(map[], config, events), config(queue), queue, nameless, ClockAfter(clock, events))
    ensures forall app: Option<string>, key: string :: app.Some? || nameless ==>
              SeenWithin(After(map[], config, events), config(queue), queue, app, key, ClockAfter(clock, events))
  {
    var empty: Table := map[];
    assert forall s: Scope, m: Measure :: CountedIds(empty, s, m) == {};
    assert forall app: Option<string>, key: string :: KeptFor(empty, config(queue), queue, app, key, clock);
    RunKeepsLimits(empty, config, queue, nameless, clock, events);
    AllSeeWithin(After(empty, config, events), config(queue), queue, nameless, ClockAfter(clock, events));
  }

  // ---------------------------------------------------------------- what a nameless observer sees

  /** After a dequeue that uses its budget up, a handle with no name sees the limit kept if and only if it counted
      nothing before that the caller did not: every running row of the queue, or start in the window, the caller's own
      or unclaimed. */
  lemma NamelessViewIsExact(t: Table, limits: Limits, c: Caller, claimed: seq<Id>, key: Option<string>, m: Measure,
                            limit: nat)
    requires Claimable(t, c, claimed) && CountsClaims(m, limits, c) && (key.None? || key == c.key)
    requires Count(t, Scope(c.queue, c.app, key), m) + |claimed| == limit
    ensures var u := Apply(t, ClaimOf(c, limits, claimed));
            Count(u, Scope(c.queue, None, key), m) <= limit <==> CountsAll(t, c, key, m)
  {
    var own, all := CountedIds(t, Scope(c.queue, c.app, key), m), CountedIds(t, Scope(c.queue, None, key), m);
    ClaimCountsExactly(t, limits, c, claimed, Scope(c.queue, None, key), m);
    assert own <= all;
    if CountsAll(t, c, key, m) {
      assert own == all;
    } else {
      var id :| id in all && !AppMatches(c.app, t[id].app);
      assert own <= all - {id};
      SubsetSize(own, all - {id});
    }
  }

  /** No other name has a row. */
  ghost predicate OneName(t: Table, name: string) {
    forall id :: id in t ==> AppMatches(Some(name), t[id].app)
  }

  /** The statement is made under this name or under none. */
  predicate SpeaksFor(name: string, a: Action) {
    match a
    case Init(_, req, _, _) => AppMatches(Some(name), req.app)
    case EnqueueIfAbsent(_, req, _, _, _) => AppMatches(Some(name), req.app)
    case Fork(_, _, _, _, _, _, app, _) => AppMatches(Some(name), app)
    case Debounce(req, _, _, _, _) => AppMatches(Some(name), req.app)
    case Claim(_, _, _, _, app, _) => AppMatches(Some(name), app)
    case _ => true
  }

  predicate Speaks(name: string, e: Event) {
    match e
    case Dequeue(c, _) => AppMatches(Some(name), c.app)
    case Statement(a) => SpeaksFor(name, a)
  }

  lemma RowKeepsName(a: Action, id: Id, r: Row, name: string)
    requires AppMatches(Some(name), r.app) && SpeaksFor(name, a)
    ensures AppMatches(Some(name), UpdatedRow(a, id, r).app)
  {
    UpdateKeepsIdentity(a, id, r);
  }

  lemma UpdateKeepsName(t: Table, a: Action, name: string)
    requires OneName(t, name) && SpeaksFor(name, a) && !Inserts(a)
    ensures OneName(Apply(t, a), name)
  {
    UpdateIsPointwise(t, a);
    forall id | id in t ensures AppMatches(Some(name), UpdatedRow(a, id, t[id]).app) {
      RowKeepsName(a, id, t[id], name);
    }
  }

  lemma InsertKeepsName(t: Table, a: Action, name: string)
    requires OneName(t, name) && SpeaksFor(name, a) && Inserts(a)
    ensures OneName(Apply(t, a), name)
  {
  }

  lemma OneNameStays(t: Table, config: string -> Limits, e: Event, name: string)
    requires OneName(t, name) && Speaks(name, e)
    ensures OneName(Perform(t, config, e), name)
  {
    var a := if e.Dequeue? then ClaimOf(e.caller, config(e.caller.queue), e.claimed) else e.action;
    if Inserts(a) {
      InsertKeepsName(t, a, name);
    } else {
      UpdateKeepsName(t, a, name);
    }
  }

  lemma OneNameSeesAll(t: Table, limits: Limits, c: Caller, name: string)
    requires OneName(t, name) && AppMatches(Some(name), c.app)
    ensures SeesAll(t, limits, c)
  {
  }

  lemma {:induction false} OneNameIsRun(t: Table, config: string -> Limits, clock: int, events: seq<Event>,
                                        name: string)
    requires OneName(t, name) && IsRun(t, config, false, clock, events) && forall e :: e in events ==> Speaks(name, e)
    ensures IsRun(t, config, true, clock, events)
    decreases |events|
  {
    if events != [] {
      var e := events[0];
      OneNameStays(t, config, e, name);
      if e.Dequeue? {
        OneNameSeesAll(t, config(e.caller.queue), e.caller, name);
      }
      OneNameIsRun(Perform(t, config, e), config, Tick(clock, e), events[1..], name);
    }
  }

  /** Beside handles with no name, one application may have a name: nobody then sees a limit exceeded. */
  lemma OneNameKeepsLimits(config: string -> Limits, queue: string, clock: int, events: seq<Event>, name: string)
    requires IsRun(map[], config, false, clock, events) && forall e :: e in events ==> Speaks(name, e)
    ensures LimitsKept(After(map[], config, events), config(queue), queue, true, ClockAfter(clock, events))
  {
    OneNameIsRun(map[], config, clock, events, name);
    LimitsNeverExceeded(config, queue, true, clock, events);
  }

  function WaitingRow(app: string): Row {
    Row("wf", Enqueued, Some("q"), None, None, 0, 0, None, None, 0, 0, "local", None, Some(app), false, None, false,
        None, None, None, "", None, None, None, None)
  }

  function NamedCaller(app: string): Caller {
    Caller("q", app, "v", None, Some(app), None, 0, 0, 0)
  }

  lemma RoomForOne(t: Table, c: Caller)
    requires CountedIds(t, Whole(c), Running) == {}
    ensures Allowance(t, Limits(None, None, Some(1), None, None, None), c) == Some(1)
  {
  }

  lemma SoleSelection(t: Table, c: Caller, id: Id)
    requires EligibleIds(t, c) == {id}
    ensures IsSelection(t, c, Some(1), [id])
  {
    assert id in EligibleIds(t, c);
  }

  lemma SoleClaim(t: Table, limits: Limits, c: Caller, id: Id)
    requires id in t && !RateLimited(limits)
    ensures Apply(t, ClaimOf(c, limits, [id]))
         == t[id := ClaimRow(t[id], c.executor, c.version, false, c.app, c.now)]
  {
    IdsGrow([], id);
    assert [] + [id] == [id];
  }

  /** The only waiting workflow is claimed when nothing the caller counts is running. */
  lemma SoleWaiterStarts(t: Table, c: Caller, id: Id)
    requires c.queue == "q" && EligibleIds(t, c) == {id} && CountedIds(t, Whole(c), Running) == {}
    ensures var limits := Limits(None, None, Some(1), None, None, None);
            && IsSelection(t, c, Allowance(t, limits, c), [id])
            && Apply(t, ClaimOf(c, limits, [id]))
               == t[id := ClaimRow(t[id], c.executor, c.version, false, c.app, c.now)]
  {
    assert id in EligibleIds(t, c);
    RoomForOne(t, c);
    SoleSelection(t, c, id);
    SoleClaim(t, Limits(None, None, Some(1), None, None, None), c, id);
  }

  function TwoNames(): Table {
    map["a" := WaitingRow("A"), "b" := WaitingRow("B")]
  }

  function OneStarted(): Table {
    TwoNames()["a" := ClaimRow(WaitingRow("A"), "A", "v", false, Some("A"), 0)]
  }

  lemma EachNameSeesItsOwn()
    ensures EligibleIds(TwoNames(), NamedCaller("A")) == {"a"} && EligibleIds(OneStarted(), NamedCaller("B")) == {"b"}
    ensures CountedIds(TwoNames(), Whole(NamedCaller("A")), Running) == {}
    ensures CountedIds(OneStarted(), Whole(NamedCaller("B")), Running) == {}
  {
  }

  /** Two named applications may each fill the limit of a shared queue, so a handle that sees both counts twice it. */
  lemma MixedNamesExceedNamelessView(config: string -> Limits)
    requires config("q") == Limits(None, None, Some(1), None, None, None)
    ensures var events := [Dequeue(NamedCaller("A"), ["a"]), Dequeue(NamedCaller("B"), ["b"])];
            && IsRun(TwoNames(), config, false, 0, events)
            && Count(After(TwoNames(), config, events), Scope("q", None, None), Running) == 2
  {
    var t, u, ca, cb := TwoNames(), OneStarted(), NamedCaller("A"), NamedCaller("B");
    EachNameSeesItsOwn();
    SoleWaiterStarts(t, ca, "a");
    SoleWaiterStarts(u, cb, "b");
    var w := u["b" := ClaimRow(u["b"], "B", "v", false, Some("B"), 0)];
    TwoEvents(t, u, w, config, Dequeue(ca, ["a"]), Dequeue(cb, ["b"]));
    assert CountedIds(w, Scope("q", None, None), Running) == {"a", "b"};
  }

  lemma TwoEvents(t: Table, u: Table, w: Table, config: string -> Limits, d: Event, e: Event)
    requires Perform(t, config, d) == u && Perform(u, config, e) == w
    requires Allowed(t, config, false, 0, d) && Allowed(u, config, false, Tick(0, d), e)
    ensures IsRun(t, config, false, 0, [d, e]) && After(t, config, [d, e]) == w
  {
    var events := [d, e];
    assert events[1..] == [e] && events[1..][1..] == [];
    assert After(u, config, events[1..]) == After(w, config, events[1..][1..]);
    assert IsRun(u, config, false, Tick(0, d), events[1..]);
  }
}
