/** The workflow_status table: every statement that moves a workflow between statuses,
    the column invariant those statements keep together, and the finality of outcomes. */
module WorkflowRows {
  import opened Wrappers

  type Id = string

  datatype Status = Enqueued | Delayed | Pending | Success | Error | Cancelled | MaxRecovery

  datatype Row = Row(
    name: string,
    status: Status,
    queue: Option<string>,
    dedup: Option<string>,
    partition: Option<string>,
    priority: int,
    createdAt: int,
    startedAt: Option<int>,
    completedAt: Option<int>,
    updatedAt: int,
    attempts: nat,
    executor: string,
    version: Option<string>,
    app: Option<string>,
    rateLimited: bool,
    delayUntil: Option<int>,
    debounced: bool,
    debounceDeadline: Option<int>,
    timeout: Option<int>,
    deadline: Option<int>,
    input: string,
    output: Option<string>,
    error: Option<string>,
    parent: Option<Id>,
    ownerXid: Option<string>)

  type Table = map<Id, Row>

  /** A terminal outcome as the executor hands it over: a result text or an error text, possibly NULL. */
  datatype Outcome = Returned(output: Option<string>) | Threw(error: Option<string>)

  /** What a caller asks to start or enqueue. */
  datatype Request = Request(
    name: string,
    queue: Option<string>,
    delayMs: Option<int>,
    dedup: Option<string>,
    partition: Option<string>,
    priority: int,
    executor: string,
    version: Option<string>,
    app: Option<string>,
    debounced: bool,
    debounceDeadline: Option<int>,
    timeout: Option<int>,
    deadline: Option<int>,
    input: string,
    parent: Option<Id>)

  /** Rows an application acts on: its own and unclaimed ones; a nameless handle acts on all. */
  predicate AppMatches(app: Option<string>, owner: Option<string>) {
    app.None? || owner.None? || owner == app
  }

  predicate Finished(s: Status) {
    s == Success || s == Error
  }

  predicate Terminal(s: Status) {
    Finished(s) || s == Cancelled || s == MaxRecovery
  }

  function Coalesce<T>(a: Option<T>, b: Option<T>): Option<T> {
    if a.Some? then a else b
  }

  // ---------------------------------------------------------------- row statements

  /** A delay counts only on a queue, and never past the debounce deadline. */
  function DelayUntil(req: Request, now: int): Option<int> {
    if req.queue.None? || req.delayMs.None? || req.delayMs.value <= 0 then None
    else
      var until := now + req.delayMs.value;
      if req.debounceDeadline.Some? && req.debounceDeadline.value < until then req.debounceDeadline else Some(until)
  }

  function InitialStatus(req: Request, now: int): Status {
    if req.queue.None? then Pending else if DelayUntil(req, now).Some? then Delayed else Enqueued
  }

  function InitialRow(req: Request, ownerXid: Option<string>, now: int): Row {
    var status := InitialStatus(req, now);
    Row(req.name, status, req.queue, req.dedup, req.partition, req.priority, now, None, None, now,
        if status == Pending then 1 else 0, req.executor, req.version, req.app, false, DelayUntil(req, now),
        req.debounced, req.debounceDeadline, req.timeout, req.deadline, req.input, None, None, req.parent, ownerXid)
  }

  /** The conflict branch of the insert: only the timestamp and, for a direct start, the executor move. */
  function ReinitRow(r: Row, req: Request, now: int): Row {
    r.(updatedAt := now, executor := if InitialStatus(req, now) == Pending then req.executor else r.executor)
  }

  /** Batch enqueue writes ENQUEUED rows, with the delay column as it is given, and never a dedup ID. */
  function BatchRow(req: Request, queue: string, delayUntil: Option<int>, createdAt: int): Row {
    Row(req.name, Enqueued, Some(queue), None, req.partition, req.priority, createdAt, None, None, createdAt, 0,
        req.executor, req.version, req.app, false, delayUntil, false, None, req.timeout, req.deadline, req.input, None,
        None, req.parent, None)
  }

  /** The row a fork starts from: the original's identity and input, enqueued afresh. */
  function ForkRow(orig: Row, queue: string, version: Option<string>, partition: Option<string>, timeout: Option<int>,
                   app: Option<string>, now: int): Row {
    Row(orig.name, Enqueued, Some(queue), None, partition, 0, now, None, None, now, 0, "",
        Coalesce(version, orig.version), Coalesce(orig.app, app), false, None, false, None, timeout, None, orig.input,
        None, None, None, None)
  }

  function ClaimRow(r: Row, executor: string, version: string, limited: bool, app: Option<string>, now: int): Row {
    if r.status != Enqueued || !AppMatches(app, r.app) then r
    else r.(status := Pending, executor := executor, version := Some(version), startedAt := Some(now),
            rateLimited := limited, app := Coalesce(r.app, app), attempts := r.attempts + 1, updatedAt := now,
            deadline := if r.timeout.Some? && r.deadline.None? then Some(now + r.timeout.value) else r.deadline)
  }

  /** A non-empty text replaces the column; NULL and the empty text leave it alone. */
  function Written(stored: Option<string>, text: Option<string>): Option<string> {
    if text.Some? && text.value != "" then text else stored
  }

  function OutcomeRow(r: Row, o: Outcome, now: int): Row {
    if r.status != Pending then r
    else match o
      case Returned(text) =>
        r.(status := Success, output := Written(r.output, text), dedup := None, completedAt := Some(now),
           updatedAt := now)
      case Threw(text) =>
        r.(status := Error, error := Written(r.error, text), dedup := None, completedAt := Some(now), updatedAt := now)
  }

  function DeadLetterRow(r: Row, minAttempts: nat, now: int): Row {
    if r.status != Pending || r.attempts < minAttempts then r
    else r.(status := MaxRecovery, dedup := None, startedAt := None, queue := None, updatedAt := now,
            completedAt := Some(now))
  }

  function ReenqueueRow(r: Row, executor: string, version: string, app: Option<string>, recoveryQueue: string,
                        now: int): Row {
    if r.status != Pending || r.executor != executor || r.version != Some(version) || !AppMatches(app, r.app) then r
    else r.(status := Enqueued, startedAt := None, updatedAt := now, queue := Coalesce(r.queue, Some(recoveryQueue)))
  }

  function CancelRow(r: Row, now: int): Row {
    if Finished(r.status) then r
    else r.(status := Cancelled, queue := None, dedup := None, startedAt := None, updatedAt := now,
            completedAt := Some(now))
  }

  function ResumeRow(r: Row, queue: string, now: int): Row {
    if Finished(r.status) then r
    else r.(status := Enqueued, queue := Some(queue), attempts := 0, deadline := None, dedup := None,
            startedAt := None, updatedAt := now, completedAt := None)
  }

  function UndelayRow(r: Row, clock: int, app: Option<string>, now: int): Row {
    if r.status != Delayed || r.delayUntil.None? || r.delayUntil.value > clock || !AppMatches(app, r.app) then r
    else r.(status := Enqueued, updatedAt := now, dedup := if r.debounced then None else r.dedup)
  }

  function PriorityRow(r: Row, priority: int, now: int): Row {
    if r.status != Enqueued && r.status != Delayed then r else r.(priority := priority, updatedAt := now)
  }

  function DelayRow(r: Row, until: int, now: int): Row {
    if r.status != Delayed then r else r.(delayUntil := Some(until), updatedAt := now)
  }

  function DebounceRow(r: Row, req: Request, queue: string, dedup: string, until: int, now: int): Row {
    if r.name != req.name || r.queue != Some(queue) || r.dedup != Some(dedup) || r.status != Delayed || !r.debounced
       || !AppMatches(req.app, r.app) then r
    else r.(delayUntil := if r.debounceDeadline.Some? && r.debounceDeadline.value < until then r.debounceDeadline
                          else Some(until),
            input := req.input, updatedAt := now, app := Coalesce(r.app, req.app))
  }

  // ---------------------------------------------------------------- table statements

  /** One UPDATE: `f` decides per row, leaving rows its WHERE clause rejects as they are. */
  function UpdateAll(t: Table, f: (Id, Row) -> Row): (u: Table)
    ensures u.Keys == t.Keys
  {
    map id | id in t :: f(id, t[id])
  }

  predicate SameDedupKey(a: Row, b: Row) {
    a.queue.Some? && a.dedup.Some? && a.queue == b.queue && a.dedup == b.dedup
  }

  /** The partial unique index on (queue_name, deduplication_id). */
  ghost predicate DedupUnique(t: Table) {
    forall i, j :: i in t && j in t && i != j ==> !SameDedupKey(t[i], t[j])
  }

  datatype Action =
    | Init(id: Id, req: Request, ownerXid: string, now: int)
    | EnqueueIfAbsent(id: Id, req: Request, queue: string, delayUntil: Option<int>, createdAt: int)
    | Fork(id: Id, original: Id, queue: string, forkVersion: Option<string>, partition: Option<string>,
           timeout: Option<int>, app: Option<string>, now: int)
    | Claim(ids: set<Id>, executor: string, version: string, limited: bool, app: Option<string>, now: int)
    | Record(id: Id, outcome: Outcome, now: int)
    | DeadLetter(ids: set<Id>, minAttempts: nat, now: int)
    | Reenqueue(executor: string, version: string, app: Option<string>, recoveryQueue: string, now: int)
    | Cancel(ids: set<Id>, now: int)
    | Resume(ids: set<Id>, queue: string, now: int)
    | TransitionDelayed(clock: int, app: Option<string>, now: int)
    | SetPriority(id: Id, priority: int, now: int)
    | SetDelay(id: Id, until: int, now: int)
    | Debounce(req: Request, queue: string, dedup: string, until: int, now: int)
    | TakeOver(id: Id, executor: string)

  ghost predicate DuplicatesKey(t: Table, r: Row) {
    exists j :: j in t && SameDedupKey(t[j], r)
  }

  /** The insert in its transaction: an existing row is touched only for the caller that created it. */
  ghost function InitTable(t: Table, id: Id, req: Request, ownerXid: string, now: int): Table {
    if id in t then
      if t[id].name == req.name && t[id].ownerXid == Some(ownerXid) then t[id := ReinitRow(t[id], req, now)] else t
    else if DuplicatesKey(t, InitialRow(req, Some(ownerXid), now)) then t
    else t[id := InitialRow(req, Some(ownerXid), now)]
  }

  /** What the UPDATE statements do to one row; rows outside the WHERE clause stay as they are. */
  function UpdatedRow(a: Action, id: Id, r: Row): Row {
    match a
    case Claim(ids, executor, version, limited, app, now) =>
      if id in ids then ClaimRow(r, executor, version, limited, app, now) else r
    case Record(i, outcome, now) => if i == id then OutcomeRow(r, outcome, now) else r
    case DeadLetter(ids, min, now) => if id in ids then DeadLetterRow(r, min, now) else r
    case Reenqueue(executor, version, app, queue, now) => ReenqueueRow(r, executor, version, app, queue, now)
    case Cancel(ids, now) => if id in ids then CancelRow(r, now) else r
    case Resume(ids, queue, now) => if id in ids then ResumeRow(r, queue, now) else r
    case TransitionDelayed(clock, app, now) => UndelayRow(r, clock, app, now)
    case SetPriority(i, priority, now) => if i == id then PriorityRow(r, priority, now) else r
    case SetDelay(i, until, now) => if i == id then DelayRow(r, until, now) else r
    case Debounce(req, queue, dedup, until, now) => DebounceRow(r, req, queue, dedup, until, now)
    case TakeOver(i, executor) => if i == id then r.(executor := executor) else r
    case _ => r
  }

  ghost function Apply(t: Table, a: Action): Table {
    match a
    case Init(id, req, xid, now) => InitTable(t, id, req, xid, now)
    case EnqueueIfAbsent(id, req, queue, delayUntil, createdAt) =>
      if id in t || req.dedup.Some? then t else t[id := BatchRow(req, queue, delayUntil, createdAt)]
    case Fork(id, original, queue, version, partition, timeout, app, now) =>
      if id in t || original !in t then t
      else t[id := ForkRow(t[original], queue, version, partition, timeout, app, now)]
    case _ =>
      var u := UpdateAll(t, (id, r) => UpdatedRow(a, id, r));
      // Recovery can move a queue-less row onto a dedup key already held there; the index then fails the statement.
      if a.Reenqueue? && !DedupUnique(u) then t else u
  }

  predicate Inserts(a: Action) {
    a.Init? || a.EnqueueIfAbsent? || a.Fork?
  }

  /** An UPDATE statement takes effect row by row, or, failing on the dedup index, not at all. */
  lemma UpdateIsPointwise(t: Table, a: Action)
    requires !Inserts(a)
    ensures var u := Apply(t, a);
            u == t || (u.Keys == t.Keys && forall id :: id in t ==> u[id] == UpdatedRow(a, id, t[id]))
  {
  }

  ghost function RunAll(t: Table, actions: seq<Action>): Table
    decreases |actions|
  {
    if actions == [] then t else RunAll(Apply(t, actions[0]), actions[1..])
  }

  // ---------------------------------------------------------------- the column invariant

  ghost predicate RowOk(r: Row) {
    && (r.completedAt.Some? <==> Terminal(r.status))
    && (r.dedup.Some? ==> r.status in {Delayed, Enqueued, Pending})
    && (r.status in {Enqueued, Delayed, Cancelled, MaxRecovery} ==> r.startedAt.None?)
    && (r.status in {Enqueued, Delayed} ==> r.queue.Some?)
    && (r.status in {Cancelled, MaxRecovery} ==> r.queue.None?)
    && (r.status == Pending && r.queue.Some? ==> r.startedAt.Some?)
    && (r.status == Delayed ==> r.delayUntil.Some?)
    && (r.output.Some? ==> r.status == Success)
    && (r.error.Some? ==> r.status == Error)
  }

  ghost predicate TableOk(t: Table) {
    && (forall id :: id in t ==> RowOk(t[id]))
    && DedupUnique(t)
  }

  /** A row keeps its dedup key or drops it: the only way an UPDATE here stays within the unique index. */
  ghost predicate KeepsOrDropsKey(r: Row, u: Row) {
    u.dedup.None? || (u.dedup == r.dedup && u.queue == r.queue)
  }

  lemma UpdateKeepsUnique(t: Table, u: Table)
    requires u.Keys == t.Keys && DedupUnique(t)
    requires forall id :: id in t ==> KeepsOrDropsKey(t[id], u[id])
    ensures DedupUnique(u)
  {
    forall i, j | i in u && j in u && i != j
      ensures !SameDedupKey(u[i], u[j])
    {
      assert KeepsOrDropsKey(t[i], u[i]) && KeepsOrDropsKey(t[j], u[j]);
      assert !SameDedupKey(t[i], t[j]);
    }
  }

  lemma NewRowKeepsTable(t: Table, id: Id, r: Row)
    requires TableOk(t) && id !in t && RowOk(r) && !DuplicatesKey(t, r)
    ensures TableOk(t[id := r])
  {
    var u := t[id := r];
    forall i, j | i in u && j in u && i != j
      ensures !SameDedupKey(u[i], u[j])
    {
      if i == id {
        assert j in t && !SameDedupKey(t[j], r);
      } else if j == id {
        assert i in t && !SameDedupKey(t[i], r);
      }
    }
  }

  lemma InitKeepsTable(t: Table, id: Id, req: Request, ownerXid: string, now: int)
    requires TableOk(t)
    ensures TableOk(InitTable(t, id, req, ownerXid, now))
  {
    var u := InitTable(t, id, req, ownerXid, now);
    if id in t {
      UpdateKeepsUnique(t, u);
    } else if u != t {
      NewRowKeepsTable(t, id, InitialRow(req, Some(ownerXid), now));
    }
  }

  lemma ClosingKeepsRow(a: Action, id: Id, r: Row)
    requires RowOk(r) && (a.Record? || a.DeadLetter? || a.Cancel?)
    ensures RowOk(UpdatedRow(a, id, r)) && KeepsOrDropsKey(r, UpdatedRow(a, id, r))
  {
  }

  lemma OpeningKeepsRow(a: Action, id: Id, r: Row)
    requires RowOk(r) && (a.Claim? || a.Resume? || a.TransitionDelayed?)
    ensures RowOk(UpdatedRow(a, id, r)) && KeepsOrDropsKey(r, UpdatedRow(a, id, r))
  {
  }

  lemma RecoveryKeepsRow(a: Action, id: Id, r: Row)
    requires RowOk(r) && a.Reenqueue?
    ensures RowOk(UpdatedRow(a, id, r))
  {
  }

  lemma AdjustingKeepsRow(a: Action, id: Id, r: Row)
    requires RowOk(r) && (a.SetPriority? || a.SetDelay? || a.Debounce? || a.TakeOver? || Inserts(a))
    ensures RowOk(UpdatedRow(a, id, r)) && KeepsOrDropsKey(r, UpdatedRow(a, id, r))
  {
  }

  lemma UpdateKeepsRow(a: Action, id: Id, r: Row)
    requires RowOk(r)
    ensures RowOk(UpdatedRow(a, id, r))
    ensures a.Reenqueue? || KeepsOrDropsKey(r, UpdatedRow(a, id, r))
  {
    if a.Record? || a.DeadLetter? || a.Cancel? {
      ClosingKeepsRow(a, id, r);
    } else if a.Claim? || a.Resume? || a.TransitionDelayed? {
      OpeningKeepsRow(a, id, r);
    } else if a.Reenqueue? {
      RecoveryKeepsRow(a, id, r);
    } else {
      AdjustingKeepsRow(a, id, r);
    }
  }

  lemma UpdateKeepsTable(t: Table, a: Action)
    requires TableOk(t) && !Inserts(a)
    ensures TableOk(Apply(t, a))
  {
    UpdateIsPointwise(t, a);
    forall id | id in t
      ensures RowOk(UpdatedRow(a, id, t[id])) && (a.Reenqueue? || KeepsOrDropsKey(t[id], UpdatedRow(a, id, t[id])))
    {
      UpdateKeepsRow(a, id, t[id]);
    }
    if !a.Reenqueue? {
      UpdateKeepsUnique(t, Apply(t, a));
    }
  }

  /** Every statement keeps every column consistent and the dedup index unique. */
  lemma StatementKeepsTable(t: Table, a: Action)
    requires TableOk(t)
    ensures TableOk(Apply(t, a))
  {
    match a
    case Init(id, req, xid, now) => InitKeepsTable(t, id, req, xid, now);
    case EnqueueIfAbsent(id, req, queue, delayUntil, createdAt) =>
      if Apply(t, a) != t {
        NewRowKeepsTable(t, id, BatchRow(req, queue, delayUntil, createdAt));
      }
    case Fork(id, original, queue, version, partition, timeout, app, now) =>
      if Apply(t, a) != t {
        NewRowKeepsTable(t, id, ForkRow(t[original], queue, version, partition, timeout, app, now));
      }
    case _ => UpdateKeepsTable(t, a);
  }

  /** The column invariant over whole runs: any mix of statements, from any consistent table. */
  lemma {:induction false} RunKeepsTable(t: Table, actions: seq<Action>)
    requires TableOk(t)
    ensures TableOk(RunAll(t, actions))
    decreases |actions|
  {
    if actions != [] {
      StatementKeepsTable(t, actions[0]);
      RunKeepsTable(Apply(t, actions[0]), actions[1..]);
    }
  }

  // ---------------------------------------------------------------- what no statement changes

  /** What a workflow is: only its place in the life cycle moves. */
  ghost predicate SameIdentity(r: Row, u: Row) {
    && u.name == r.name && u.partition == r.partition && u.createdAt == r.createdAt && u.timeout == r.timeout
    && u.parent == r.parent && u.ownerXid == r.ownerXid
  }

  lemma UpdateKeepsIdentity(a: Action, id: Id, r: Row)
    ensures var u := UpdatedRow(a, id, r);
            && SameIdentity(r, u)
            && (r.app.Some? ==> u.app == r.app)
            && (r.deadline.Some? && !(a.Resume? && id in a.ids) ==> u.deadline == r.deadline)
            && (r.input != u.input ==> r.status == Delayed && r.debounced && a.Debounce?)
  {
  }

  lemma StatementKeepsIdentity(t: Table, a: Action, id: Id)
    requires id in t
    ensures id in Apply(t, a) && SameIdentity(t[id], Apply(t, a)[id])
    ensures t[id].app.Some? ==> Apply(t, a)[id].app == t[id].app
    ensures t[id].deadline.Some? && !(a.Resume? && id in a.ids) ==> Apply(t, a)[id].deadline == t[id].deadline
  {
    UpdateKeepsIdentity(a, id, t[id]);
  }

  /** Over a whole run a row keeps its identity and, once it has one, its owner; its deadline, once set, stands until a
      resume names it. */
  lemma {:induction false} RunKeepsIdentity(t: Table, actions: seq<Action>, id: Id)
    requires id in t
    ensures id in RunAll(t, actions) && SameIdentity(t[id], RunAll(t, actions)[id])
    ensures t[id].app.Some? ==> RunAll(t, actions)[id].app == t[id].app
    ensures t[id].deadline.Some? && (forall a :: a in actions && a.Resume? ==> id !in a.ids) ==>
              RunAll(t, actions)[id].deadline == t[id].deadline
    decreases |actions|
  {
    if actions != [] {
      StatementKeepsIdentity(t, actions[0], id);
      RunKeepsIdentity(Apply(t, actions[0]), actions[1..], id);
    }
  }

  /** A claim starts the clock of a workflow with a timeout, once: a claim after recovery keeps the first deadline. */
  lemma ClaimStartsTheClockOnce(r: Row, executor: string, version: string, limited: bool, app: Option<string>, now: int,
                                recoveryQueue: string, later: int)
    requires r.status == Enqueued && AppMatches(app, r.app) && r.timeout.Some?
    ensures var first := ClaimRow(r, executor, version, limited, app, now);
            var back := ReenqueueRow(first, executor, version, app, recoveryQueue, later);
            var again := ClaimRow(back, executor, version, limited, app, later);
            && first.deadline == Some(if r.deadline.Some? then r.deadline.value else now + r.timeout.value)
            && back.status == Enqueued && again.deadline == first.deadline && again.attempts == r.attempts + 2
  {
  }

  // ---------------------------------------------------------------- finality of outcomes

  /** The columns a reader of a finished workflow sees. */
  ghost predicate SameOutcome(r: Row, u: Row) {
    u.status == r.status && u.output == r.output && u.error == r.error && u.completedAt == r.completedAt
  }

  /** Only claims and outcome writes are about running; no other statement finishes a row or alters a finished one. */
  lemma OthersKeepOutcome(a: Action, id: Id, r: Row)
    requires !a.Record?
    ensures Finished(UpdatedRow(a, id, r).status) <==> Finished(r.status)
    ensures Finished(r.status) ==> SameOutcome(r, UpdatedRow(a, id, r))
  {
  }

  lemma StatementKeepsOutcome(t: Table, a: Action, id: Id)
    requires id in t && Finished(t[id].status)
    ensures id in Apply(t, a) && SameOutcome(t[id], Apply(t, a)[id])
  {
  }

  lemma {:induction false} RunKeepsOutcome(t: Table, actions: seq<Action>, id: Id)
    requires id in t && Finished(t[id].status)
    ensures id in RunAll(t, actions) && SameOutcome(t[id], RunAll(t, actions)[id])
    decreases |actions|
  {
    if actions != [] {
      StatementKeepsOutcome(t, actions[0], id);
      RunKeepsOutcome(Apply(t, actions[0]), actions[1..], id);
    }
  }

  /** The row count the outcome write reports: it landed exactly when the row was PENDING. */
  predicate Lands(t: Table, a: Action, id: Id) {
    a.Record? && a.id == id && id in t && t[id].status == Pending
  }

  /** How many outcome writes for `id` report true over a run. */
  ghost function OutcomeWins(t: Table, actions: seq<Action>, id: Id): nat
    decreases |actions|
  {
    if actions == [] then 0
    else (if Lands(t, actions[0], id) then 1 else 0) + OutcomeWins(Apply(t, actions[0]), actions[1..], id)
  }

  lemma {:induction false} FinishedNeverWinsAgain(t: Table, actions: seq<Action>, id: Id)
    requires id in t && Finished(t[id].status)
    ensures OutcomeWins(t, actions, id) == 0
    decreases |actions|
  {
    if actions != [] {
      StatementKeepsOutcome(t, actions[0], id);
      FinishedNeverWinsAgain(Apply(t, actions[0]), actions[1..], id);
    }
  }

  /** At most one outcome write per workflow ever reports true, and if one does the row is finished for good. */
  lemma {:induction false} AtMostOneOutcome(t: Table, actions: seq<Action>, id: Id)
    ensures OutcomeWins(t, actions, id) <= 1
    ensures OutcomeWins(t, actions, id) == 1 ==>
              id in RunAll(t, actions) && Finished(RunAll(t, actions)[id].status)
    decreases |actions|
  {
    if actions != [] {
      var u := Apply(t, actions[0]);
      if Lands(t, actions[0], id) {
        FinishedNeverWinsAgain(u, actions[1..], id);
        RunKeepsOutcome(u, actions[1..], id);
      } else {
        AtMostOneOutcome(u, actions[1..], id);
      }
    }
  }

  /** A landed write stores exactly the handed-over text: a PENDING row carries no stale result to leak through. */
  lemma LandedOutcomeIsExact(t: Table, id: Id, outcome: Outcome, now: int)
    requires TableOk(t) && id in t && t[id].status == Pending
    ensures var r := Apply(t, Record(id, outcome, now))[id];
            match outcome
            case Returned(text) =>
              r.status == Success && r.error == None && r.output == (if text == Some("") then None else text)
            case Threw(text) =>
              r.status == Error && r.output == None && r.error == (if text == Some("") then None else text)
  {
    assert RowOk(t[id]);
  }

  // ---------------------------------------------------------------- the imperative handle

  datatype InitResult =
    | Ready(status: Status, deadline: Option<int>, shouldExecute: bool)
    | NameConflict(existing: string)
    | QueueDuplicated

  /** Holds the table and runs the transactions that are more than one statement. */
  class SystemDatabase {
    var workflowStatus: Table

    constructor ()
      ensures workflowStatus == map[]
    {
      workflowStatus := map[];
    }

    /** Whether some other row already holds this row's dedup key. */
    method FindDuplicate(r: Row) returns (found: bool)
      ensures found == DuplicatesKey(workflowStatus, r)
    {
      found := exists j :: j in workflowStatus && SameDedupKey(workflowStatus[j], r);
    }

    /** Insert or re-read the row, rolling back unless this caller created it. */
    method InitWorkflowStatus(id: Id, req: Request, ownerXid: string, now: int) returns (res: InitResult)
      modifies this
      ensures workflowStatus == Apply(old(workflowStatus), Init(id, req, ownerXid, now))
      ensures res.Ready? && res.shouldExecute ==>
                id in workflowStatus && workflowStatus[id].ownerXid == Some(ownerXid)
      ensures res.Ready? && !res.shouldExecute ==> workflowStatus == old(workflowStatus) && id in workflowStatus
      ensures res.Ready? ==> res.status == workflowStatus[id].status && res.deadline == workflowStatus[id].deadline
      ensures res.NameConflict? <==> id in old(workflowStatus) && old(workflowStatus)[id].name != req.name
      ensures res.QueueDuplicated? ==> workflowStatus == old(workflowStatus) && id !in workflowStatus
    {
      var before := workflowStatus;
      var row := InitialRow(req, Some(ownerXid), now);
      if id in workflowStatus {
        workflowStatus := workflowStatus[id := ReinitRow(workflowStatus[id], req, now)];
        row := workflowStatus[id];
      } else {
        var duplicate := FindDuplicate(row);
        if duplicate {
          return QueueDuplicated;
        }
        workflowStatus := workflowStatus[id := row];
      }
      if row.name != req.name {
        workflowStatus := before;
        return NameConflict(row.name);
      }
      var shouldExecute := row.ownerXid == Some(ownerXid);
      if !shouldExecute {
        workflowStatus := before;
      }
      return Ready(row.status, row.deadline, shouldExecute);
    }

    /** Record an outcome, reporting whether the write landed. */
    method RecordWorkflowOutcome(id: Id, outcome: Outcome, now: int) returns (landed: bool)
      modifies this
      ensures landed <==> id in old(workflowStatus) && old(workflowStatus)[id].status == Pending
      ensures landed == Lands(old(workflowStatus), Record(id, outcome, now), id)
      ensures workflowStatus == Apply(old(workflowStatus), Record(id, outcome, now))
    {
      landed := id in workflowStatus && workflowStatus[id].status == Pending;
      if landed {
        workflowStatus := workflowStatus[id := OutcomeRow(workflowStatus[id], outcome, now)];
      }
    }
  }
}
