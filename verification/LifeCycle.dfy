/** The life cycle of a workflow's row, told by its columns: which statement moves it from one status to the next, what
    each column is after a move, and what that makes of its times over whole runs. */
module LifeCycle {
  import opened Wrappers
  import opened WorkflowRows

  /** Two names that are both given agree. */
  ghost predicate Agree(a: Option<string>, b: Option<string>) {
    a.Some? && b.Some? ==> a.value == b.value
  }

  // ---------------------------------------------------------------- status by status

  /** A waiting row is started by a claim, an overdue one is let in by the transition, and either can be cancelled. */
  lemma WaitingMovesAreExact(a: Action, id: Id, r: Row)
    requires !Inserts(a) && r.status in {Enqueued, Delayed}
    ensures var u := UpdatedRow(a, id, r);
            && u.status in {Enqueued, Delayed, Pending, Cancelled} && (r.status == Enqueued ==> u.status != Delayed)
            && (u.status == Cancelled <==> a.Cancel? && id in a.ids)
            && (u.status == Pending <==> r.status == Enqueued && a.Claim? && id in a.ids && Agree(a.app, r.app))
            && (r.status == Delayed ==>
                  (u.status == Enqueued <==>
                   || (a.Resume? && id in a.ids)
                   || (a.TransitionDelayed? && r.delayUntil.Some? && r.delayUntil.value <= a.clock
                       && Agree(a.app, r.app))))
  {
  }

  /** A running row is finished by its outcome, given up by the dead letter, put back by recovery or a resume, or
      cancelled. */
  lemma RunningMovesAreExact(a: Action, id: Id, r: Row)
    requires !Inserts(a) && r.status == Pending
    ensures var u := UpdatedRow(a, id, r);
            && u.status != Delayed
            && (u.status == Success <==> a.Record? && a.id == id && a.outcome.Returned?)
            && (u.status == Error <==> a.Record? && a.id == id && a.outcome.Threw?)
            && (u.status == MaxRecovery <==> a.DeadLetter? && id in a.ids && a.minAttempts <= r.attempts)
            && (u.status == Cancelled <==> a.Cancel? && id in a.ids)
            && (u.status == Enqueued <==>
                || (a.Resume? && id in a.ids)
                || (a.Reenqueue? && r.executor == a.executor && r.version == Some(a.version) && Agree(a.app, r.app)))
  {
  }

  /** A row that was cancelled or given up comes back by a resume only; a finished one does not. */
  lemma ClosedMovesAreExact(a: Action, id: Id, r: Row)
    requires !Inserts(a) && r.status in {Success, Error, Cancelled, MaxRecovery}
    ensures var u := UpdatedRow(a, id, r);
            && (r.status in {Success, Error} ==> u.status == r.status)
            && (r.status in {Cancelled, MaxRecovery} ==>
                  && (u.status == Enqueued <==> a.Resume? && id in a.ids)
                  && (r.status != Cancelled ==> (u.status == Cancelled <==> a.Cancel? && id in a.ids))
                  && u.status in {Enqueued, Cancelled, r.status})
  {
  }

  // ---------------------------------------------------------------- column by column

  ghost predicate Starts(r: Row, u: Row) {
    r.status == Enqueued && u.status == Pending
  }

  /** A resume that takes effect. */
  ghost predicate Resumes(a: Action, id: Id, r: Row) {
    a.Resume? && id in a.ids && r.status in {Enqueued, Delayed, Pending, Cancelled, MaxRecovery}
  }

  /** A debounce that finds its row. */
  ghost predicate Bounces(a: Action, r: Row) {
    && a.Debounce? && r.status == Delayed && r.debounced && r.name == a.req.name && Agree(a.req.app, r.app)
    && r.queue.Some? && r.queue.value == a.queue && r.dedup.Some? && r.dedup.value == a.dedup
  }

  /** The time columns follow the status: a row has a start while it runs and once it has finished, and an end exactly
      once it is over. */
  lemma TimesFollowStatus(a: Action, id: Id, r: Row)
    requires !Inserts(a) && RowOk(r)
    ensures var u := UpdatedRow(a, id, r);
            && (Starts(r, u) ==> u.startedAt == Some(a.now) && u.attempts == r.attempts + 1)
            && (!Starts(r, u) && u.status in {Pending, Success, Error} ==> u.startedAt == r.startedAt)
            && (u.status in {Enqueued, Delayed, Cancelled, MaxRecovery} ==> u.startedAt.None?)
            && (u.status in {Enqueued, Delayed, Pending} ==> u.completedAt.None?)
            && (u.status in {Success, Error, Cancelled, MaxRecovery} ==>
                  u.completedAt == if u.status == r.status && !(a.Cancel? && id in a.ids && r.status == Cancelled)
                                   then r.completedAt else Some(a.now))
            && (u != r && !a.TakeOver? ==> u.updatedAt == a.now)
            && (a.TakeOver? ==> u.updatedAt == r.updatedAt)
            && (Resumes(a, id, r) ==> u.attempts == 0)
            && (!Resumes(a, id, r) && !Starts(r, u) ==> u.attempts == r.attempts)
  {
  }

  /** The key on the queue lives while the row waits or runs; a resume and the end of a debounce drop it. The queue goes
      with the row until it is over, unless recovery or a resume puts it on another. */
  lemma PlaceFollowsStatus(a: Action, id: Id, r: Row)
    requires !Inserts(a) && RowOk(r)
    ensures var u := UpdatedRow(a, id, r);
            && u.dedup == (if u.status !in {Enqueued, Delayed, Pending} || Resumes(a, id, r)
                              || (r.status == Delayed && u.status == Enqueued && r.debounced)
                           then None else r.dedup)
            && (Resumes(a, id, r) ==> u.queue == Some(a.queue))
            && (u.status in {Cancelled, MaxRecovery} ==> u.queue.None?)
            && (!Resumes(a, id, r) && r.status == Pending && u.status == Enqueued ==>
                  u.queue == Some(if r.queue.Some? then r.queue.value else a.recoveryQueue))
            && (u.status == r.status && !Resumes(a, id, r) ==> u.queue == r.queue)
            && (Starts(r, u) || u.status in {Success, Error} || (r.status == Delayed && u.status == Enqueued) ==>
                  u.queue == r.queue || Resumes(a, id, r))
  {
  }

  /** Who runs a row, and until when, is settled by the claim that starts it. */
  lemma ClaimSettlesTheRunner(a: Action, id: Id, r: Row)
    requires !Inserts(a)
    ensures var u := UpdatedRow(a, id, r);
            && (Starts(r, u) ==>
                  && u.executor == a.executor && u.version == Some(a.version) && u.rateLimited == a.limited
                  && u.app == (if r.app.None? then a.app else r.app)
                  && (r.deadline.Some? ==> u.deadline == r.deadline)
                  && (r.deadline.None? && r.timeout.None? ==> u.deadline.None?)
                  && (r.deadline.None? && r.timeout.Some? ==> u.deadline == Some(a.now + r.timeout.value)))
            && (!Starts(r, u) ==>
                  && u.executor == (if a.TakeOver? && a.id == id then a.executor else r.executor)
                  && u.version == r.version && u.rateLimited == r.rateLimited
                  && u.app == (if Bounces(a, r) && r.app.None? then a.req.app else r.app)
                  && u.deadline == (if Resumes(a, id, r) then None else r.deadline))
  {
  }

  /** A row is moved about and put off while it waits, and only then is its input replaced. */
  lemma WaitingIsAdjusted(a: Action, id: Id, r: Row)
    requires !Inserts(a)
    ensures var u := UpdatedRow(a, id, r);
            && u.priority == (if a.SetPriority? && a.id == id && r.status in {Enqueued, Delayed} then a.priority
                              else r.priority)
            && u.input == (if Bounces(a, r) then a.req.input else r.input)
            && (a.SetDelay? && a.id == id && r.status == Delayed ==> u.delayUntil == Some(a.until))
            && (Bounces(a, r) ==>
                  && u.delayUntil.Some? && u.delayUntil.value <= a.until
                  && (r.debounceDeadline.Some? ==> u.delayUntil.value <= r.debounceDeadline.value)
                  && u.delayUntil in {Some(a.until), r.debounceDeadline})
            && (!Bounces(a, r) && !(a.SetDelay? && a.id == id && r.status == Delayed) ==> u.delayUntil == r.delayUntil)
            && SameIdentity(r, u) && u.debounced == r.debounced && u.debounceDeadline == r.debounceDeadline
  {
  }

  /** A result is what was handed over when the row was running, an empty text aside. */
  lemma OutcomeIsHandedOver(a: Action, id: Id, r: Row)
    requires !Inserts(a) && RowOk(r)
    ensures var u := UpdatedRow(a, id, r);
            var lands := r.status == Pending && a.Record? && a.id == id;
            && (lands && a.outcome.Returned? ==>
                  u.error.None? && u.output == if a.outcome.output == Some("") then None else a.outcome.output)
            && (lands && a.outcome.Threw? ==>
                  u.output.None? && u.error == if a.outcome.error == Some("") then None else a.outcome.error)
            && (!lands ==> u.output == r.output && u.error == r.error)
  {
  }

  // ---------------------------------------------------------------- rows that enter

  /** A row that nothing has happened to yet. */
  ghost predicate Fresh(r: Row, now: int) {
    && r.createdAt == now && r.updatedAt == now && r.startedAt.None? && r.completedAt.None? && r.output.None?
    && r.error.None? && !r.rateLimited && (r.status in {Enqueued, Delayed} ==> r.attempts == 0)
  }

  /** The columns a caller's request fills, whichever way it comes in. */
  ghost predicate AsRequested(r: Row, req: Request) {
    && r.name == req.name && r.partition == req.partition && r.priority == req.priority
    && r.executor == req.executor && r.version == req.version && r.app == req.app && r.timeout == req.timeout
    && r.deadline == req.deadline && r.input == req.input && r.parent == req.parent
  }

  ghost predicate OthersStay(t: Table, u: Table, id: Id) {
    && (forall i :: i in t ==> i in u && (i != id ==> u[i] == t[i]))
    && (forall i :: i in u ==> i == id || i in t)
  }

  /** Some row holds the key on that queue. */
  ghost predicate KeyIsHeld(t: Table, queue: Option<string>, dedup: Option<string>) {
    queue.Some? && dedup.Some? && exists j :: j in t && t[j].queue == queue && t[j].dedup == dedup
  }

  /** A request without a queue runs at once; on a queue it waits, for as long as it asked but not past its debounce
      deadline, and it does not enter while its key is held. */
  lemma RequestEnters(t: Table, id: Id, req: Request, xid: string, now: int)
    requires id !in t
    ensures var u := Apply(t, Init(id, req, xid, now));
            && OthersStay(t, u, id) && (id in u <==> !KeyIsHeld(t, req.queue, req.dedup))
            && (id in u ==>
                  var r := u[id];
                  && Fresh(r, now) && AsRequested(r, req) && r.queue == req.queue && r.dedup == req.dedup
                  && r.ownerXid == Some(xid) && r.debounced == req.debounced
                  && r.debounceDeadline == req.debounceDeadline
                  && (r.status == Pending <==> req.queue.None?) && (r.status == Pending ==> r.attempts == 1)
                  && (r.status == Delayed <==> req.queue.Some? && req.delayMs.Some? && req.delayMs.value > 0)
                  && r.status in {Pending, Delayed, Enqueued} && (r.delayUntil.Some? <==> r.status == Delayed)
                  && (r.status == Delayed ==>
                        && r.delayUntil.value <= now + req.delayMs.value
                        && (req.debounceDeadline.Some? ==> r.delayUntil.value <= req.debounceDeadline.value)
                        && r.delayUntil in {Some(now + req.delayMs.value), req.debounceDeadline}))
  {
    assert DuplicatesKey(t, InitialRow(req, Some(xid), now)) ==> KeyIsHeld(t, req.queue, req.dedup);
  }

  /** Asking again changes nothing unless the caller is the one that created the row, and then only its timestamp and,
      where it is to run at once, its executor. */
  lemma RequestReenters(t: Table, id: Id, req: Request, xid: string, now: int)
    requires id in t
    ensures var u := Apply(t, Init(id, req, xid, now));
            && OthersStay(t, u, id)
            && (t[id].name != req.name || t[id].ownerXid != Some(xid) ==> u[id] == t[id])
            && (t[id].name == req.name && t[id].ownerXid == Some(xid) ==>
                  u[id].updatedAt == now && u[id].executor == if req.queue.None? then req.executor else t[id].executor)
            && u[id].(updatedAt := 0, executor := "") == t[id].(updatedAt := 0, executor := "")
  {
  }

  /** A batch row waits at once, whatever its delay column says; a known ID or one with a key is passed over. */
  lemma BatchEnters(t: Table, id: Id, req: Request, queue: string, delayUntil: Option<int>, createdAt: int)
    ensures var u := Apply(t, EnqueueIfAbsent(id, req, queue, delayUntil, createdAt));
            && (id in t || req.dedup.Some? ==> u == t)
            && (id !in t && req.dedup.None? ==>
                  && OthersStay(t, u, id) && id in u && Fresh(u[id], createdAt) && AsRequested(u[id], req)
                  && u[id].status == Enqueued && u[id].queue == Some(queue) && u[id].dedup.None?
                  && u[id].delayUntil == delayUntil && !u[id].debounced && u[id].debounceDeadline.None?
                  && u[id].ownerXid.None?)
  {
  }

  /** A fork waits on the queue it was given with the original's name, input and, unless another is asked for, version;
      nothing of the original's run goes with it. */
  lemma ForkEnters(t: Table, id: Id, original: Id, queue: string, version: Option<string>, partition: Option<string>,
                   timeout: Option<int>, app: Option<string>, now: int)
    ensures var u := Apply(t, Action.Fork(id, original, queue, version, partition, timeout, app, now));
            && (id in t || original !in t ==> u == t)
            && (id !in t && original in t ==>
                  var r, o := u[id], t[original];
                  && OthersStay(t, u, id) && Fresh(r, now) && r.name == o.name && r.input == o.input
                  && r.status == Enqueued && r.queue == Some(queue) && r.partition == partition && r.timeout == timeout
                  && r.version == (if version.Some? then version else o.version)
                  && r.app == (if o.app.Some? then o.app else app)
                  && r.priority == 0 && r.executor == "" && r.dedup.None? && r.delayUntil.None? && !r.debounced
                  && r.debounceDeadline.None? && r.deadline.None? && r.parent.None? && r.ownerXid.None?)
  {
  }

  lemma DueRowIsLetIn(r: Row, clock: int, app: Option<string>, now: int)
    requires RowOk(r)
    ensures var u := UndelayRow(r, clock, app, now);
            && u.app == r.app && (r.status != Delayed ==> u == r)
            && (r.status == Delayed ==>
                  && r.delayUntil.Some? && u.delayUntil == r.delayUntil && u.status in {Delayed, Enqueued}
                  && (u.status == Delayed <==> !Agree(app, r.app) || clock < r.delayUntil.value)
                  && (u == r <==> u.status == Delayed))
  {
  }

  /** After the transition the application's rows that stay put off are exactly those due later than the clock. */
  lemma TransitionLetsInTheDue(t: Table, clock: int, app: Option<string>, now: int)
    requires TableOk(t)
    ensures var u := Apply(t, TransitionDelayed(clock, app, now));
            && u.Keys == t.Keys
            && (forall id :: id in u && Agree(app, u[id].app) && u[id].status == Delayed ==>
                  u[id].delayUntil.Some? && clock < u[id].delayUntil.value)
            && (forall id :: id in t && t[id].status == Delayed ==>
                  (u[id] == t[id] <==> !Agree(app, t[id].app) || clock < t[id].delayUntil.value)
                  && u[id].status in {Delayed, Enqueued})
            && (forall id :: id in t && t[id].status != Delayed ==> u[id] == t[id])
  {
    var u := Apply(t, TransitionDelayed(clock, app, now));
    forall id | id in t
      ensures Agree(app, u[id].app) && u[id].status == Delayed ==>
                u[id].delayUntil.Some? && clock < u[id].delayUntil.value
      ensures t[id].status == Delayed ==>
                (u[id] == t[id] <==> !Agree(app, t[id].app) || clock < t[id].delayUntil.value)
                && u[id].status in {Delayed, Enqueued}
      ensures t[id].status != Delayed ==> u[id] == t[id]
    {
      DueRowIsLetIn(t[id], clock, app, now);
      assert u[id] == UndelayRow(t[id], clock, app, now);
    }
  }

  // ---------------------------------------------------------------- times over whole runs

  /** When a statement happens. A takeover leaves no trace of it, and batch rows carry stamps of their own. */
  function TimeOf(a: Action, last: int): int {
    if a.EnqueueIfAbsent? || a.TakeOver? then last else a.now
  }

  /** The clock does not go back, and the transition does not let in rows before their time. */
  ghost predicate Timely(actions: seq<Action>, last: int)
    decreases |actions|
  {
    actions != [] ==>
      && last <= TimeOf(actions[0], last)
      && (actions[0].TransitionDelayed? ==> actions[0].clock <= actions[0].now)
      && Timely(actions[1..], TimeOf(actions[0], last))
  }

  function LastTime(actions: seq<Action>, last: int): int
    decreases |actions|
  {
    if actions == [] then last else LastTime(actions[1..], TimeOf(actions[0], last))
  }

  /** Started, then over. */
  ghost predicate InOrder(r: Row, last: int) {
    && (r.startedAt.Some? ==> r.startedAt.value <= last)
    && (r.completedAt.Some? ==> r.completedAt.value <= last)
    && (r.startedAt.Some? && r.completedAt.Some? ==> r.startedAt.value <= r.completedAt.value)
  }

  /** Created before that. */
  ghost predicate CreatedBefore(r: Row, last: int) {
    && r.createdAt <= last
    && (r.startedAt.Some? ==> r.createdAt <= r.startedAt.value)
    && (r.completedAt.Some? ==> r.createdAt <= r.completedAt.value)
  }

  /** Not started before it was due. */
  ghost predicate NotEarly(r: Row, last: int) {
    r.delayUntil.Some? ==>
      && (r.startedAt.Some? ==> r.delayUntil.value <= r.startedAt.value)
      && (r.status == Enqueued ==> r.delayUntil.value <= last)
      && (r.status == Pending ==> r.startedAt.Some?)
  }

  ghost predicate AllInOrder(t: Table, last: int) {
    forall id :: id in t ==> InOrder(t[id], last)
  }

  /** No resume names the row, and no batch brings it in with a delay. */
  ghost predicate LeavesDelay(a: Action, id: Id) {
    && (a.Resume? ==> id !in a.ids)
    && (a.EnqueueIfAbsent? && a.id == id ==> a.delayUntil.None?)
    && (a.TransitionDelayed? ==> a.clock <= a.now)
  }

  lemma UpdateKeepsOrder(a: Action, id: Id, r: Row, last: int)
    requires !Inserts(a) && RowOk(r) && InOrder(r, last) && last <= TimeOf(a, last)
    ensures InOrder(UpdatedRow(a, id, r), TimeOf(a, last))
  {
    TimesFollowStatus(a, id, r);
  }

  lemma UpdateKeepsCreated(a: Action, id: Id, r: Row, last: int)
    requires !Inserts(a) && RowOk(r) && last <= TimeOf(a, last) && CreatedBefore(r, last)
    ensures CreatedBefore(UpdatedRow(a, id, r), TimeOf(a, last))
  {
    TimesFollowStatus(a, id, r);
    UpdateKeepsIdentity(a, id, r);
  }

  lemma UpdateIsNotEarly(a: Action, id: Id, r: Row, last: int)
    requires !Inserts(a) && RowOk(r) && InOrder(r, last) && last <= TimeOf(a, last)
    requires NotEarly(r, last) && LeavesDelay(a, id)
    ensures NotEarly(UpdatedRow(a, id, r), TimeOf(a, last))
  {
    TimesFollowStatus(a, id, r);
    WaitingIsAdjusted(a, id, r);
  }

  lemma UpdateKeepsTimes(a: Action, id: Id, r: Row, last: int)
    requires !Inserts(a) && RowOk(r) && InOrder(r, last) && last <= TimeOf(a, last)
    ensures InOrder(UpdatedRow(a, id, r), TimeOf(a, last))
    ensures CreatedBefore(r, last) ==> CreatedBefore(UpdatedRow(a, id, r), TimeOf(a, last))
    ensures NotEarly(r, last) && LeavesDelay(a, id) ==> NotEarly(UpdatedRow(a, id, r), TimeOf(a, last))
  {
    UpdateKeepsOrder(a, id, r, last);
    if CreatedBefore(r, last) { UpdateKeepsCreated(a, id, r, last); }
    if NotEarly(r, last) && LeavesDelay(a, id) { UpdateIsNotEarly(a, id, r, last); }
  }

  lemma EntryIsInOrder(t: Table, a: Action, id: Id, last: int)
    requires Inserts(a) && id in Apply(t, a) && last <= TimeOf(a, last)
    ensures (id in t ==> InOrder(t[id], last)) ==> InOrder(Apply(t, a)[id], TimeOf(a, last))
    ensures (id in t ==> CreatedBefore(t[id], last)) && !(a.EnqueueIfAbsent? && a.id == id) ==>
              CreatedBefore(Apply(t, a)[id], TimeOf(a, last))
    ensures (id in t ==> NotEarly(t[id], last)) && LeavesDelay(a, id) ==>
              NotEarly(Apply(t, a)[id], TimeOf(a, last))
  {
    match a
    case Init(i, req, xid, now) =>
      if i in t { RequestReenters(t, i, req, xid, now); } else { RequestEnters(t, i, req, xid, now); }
    case EnqueueIfAbsent(i, req, queue, delayUntil, createdAt) => BatchEnters(t, i, req, queue, delayUntil, createdAt);
    case Fork(i, original, queue, version, partition, timeout, app, now) =>
      ForkEnters(t, i, original, queue, version, partition, timeout, app, now);
  }

  lemma RowKeepsTimes(t: Table, a: Action, id: Id, last: int)
    requires TableOk(t) && AllInOrder(t, last) && last <= TimeOf(a, last) && id in Apply(t, a)
    ensures InOrder(Apply(t, a)[id], TimeOf(a, last))
    ensures (id in t ==> CreatedBefore(t[id], last)) && !(a.EnqueueIfAbsent? && a.id == id) ==>
              CreatedBefore(Apply(t, a)[id], TimeOf(a, last))
    ensures (id in t ==> NotEarly(t[id], last)) && LeavesDelay(a, id) ==>
              NotEarly(Apply(t, a)[id], TimeOf(a, last))
  {
    if Inserts(a) {
      EntryIsInOrder(t, a, id, last);
    } else {
      UpdateIsPointwise(t, a);
      UpdateKeepsTimes(a, id, t[id], last);
    }
  }

  lemma StatementKeepsTimes(t: Table, a: Action, last: int)
    requires TableOk(t) && AllInOrder(t, last) && last <= TimeOf(a, last)
    ensures AllInOrder(Apply(t, a), TimeOf(a, last))
  {
    forall id | id in Apply(t, a)
      ensures InOrder(Apply(t, a)[id], TimeOf(a, last))
    {
      RowKeepsTimes(t, a, id, last);
    }
  }

  lemma {:induction false} RunKeepsTimes(t: Table, actions: seq<Action>, id: Id, last: int)
    requires TableOk(t) && AllInOrder(t, last) && Timely(actions, last)
    ensures AllInOrder(RunAll(t, actions), LastTime(actions, last))
    ensures id in RunAll(t, actions) && (id in t ==> CreatedBefore(t[id], last))
            && (forall a :: a in actions ==> !(a.EnqueueIfAbsent? && a.id == id)) ==>
              CreatedBefore(RunAll(t, actions)[id], LastTime(actions, last))
    ensures id in RunAll(t, actions) && (id in t ==> NotEarly(t[id], last))
            && (forall a :: a in actions ==> LeavesDelay(a, id)) ==>
              NotEarly(RunAll(t, actions)[id], LastTime(actions, last))
    decreases |actions|
  {
    if actions != [] {
      var a, u := actions[0], Apply(t, actions[0]);
      assert a in actions;
      StatementKeepsTable(t, a);
      StatementKeepsTimes(t, a, last);
      if id in u { RowKeepsTimes(t, a, id, last); }
      RunKeepsTimes(u, actions[1..], id, TimeOf(a, last));
    }
  }

  /** From an empty table, over any run of statements in time: every row that has started and is over started first, and
      one that no batch brought in was created before either. */
  lemma TimesAreInOrder(actions: seq<Action>, id: Id, start: int)
    requires Timely(actions, start) && id in RunAll(map[], actions)
    ensures var r := RunAll(map[], actions)[id];
            && (r.startedAt.Some? && r.completedAt.Some? ==> r.startedAt.value <= r.completedAt.value)
            && ((forall a :: a in actions ==> !(a.EnqueueIfAbsent? && a.id == id)) ==>
                  && (r.startedAt.Some? ==> r.createdAt <= r.startedAt.value)
                  && (r.completedAt.Some? ==> r.createdAt <= r.completedAt.value))
  {
    RunKeepsTimes(map[], actions, id, start);
  }

  /** Whatever starts has waited as long as it was put off, however often that changed while it waited, unless a resume
      named it or a batch brought it in with a delay. */
  lemma NothingStartsEarly(actions: seq<Action>, id: Id, start: int)
    requires Timely(actions, start) && id in RunAll(map[], actions)
    requires forall a :: a in actions ==>
               (a.Resume? ==> id !in a.ids) && (a.EnqueueIfAbsent? && a.id == id ==> a.delayUntil.None?)
    ensures var r := RunAll(map[], actions)[id];
            && (r.startedAt.Some? && r.delayUntil.Some? ==> r.delayUntil.value <= r.startedAt.value)
            && (r.status == Pending && r.delayUntil.Some? ==> r.startedAt.Some?)
  {
    TransitionsAreTimely(actions, start);
    RunKeepsTimes(map[], actions, id, start);
  }

  lemma {:induction false} TransitionsAreTimely(actions: seq<Action>, last: int)
    requires Timely(actions, last)
    ensures forall a :: a in actions && a.TransitionDelayed? ==> a.clock <= a.now
    decreases |actions|
  {
    if actions != [] {
      TransitionsAreTimely(actions[1..], TimeOf(actions[0], last));
    }
  }

  /** A resume lets a row in before its time. */
  lemma ResumeLetsInEarly(req: Request)
    requires req.queue == Some("q") && req.delayMs == Some(10) && req.debounceDeadline.None? && req.app.None?
    ensures var run := [Init("w", req, "t", 0), Resume({"w"}, "q", 1), Claim({"w"}, "x", "v", false, None, 2)];
            && Timely(run, 0) && "w" in RunAll(map[], run)
            && RunAll(map[], run)["w"].startedAt == Some(2) && RunAll(map[], run)["w"].delayUntil == Some(10)
  {
    var resume, claim := Resume({"w"}, "q", 1), Claim({"w"}, "x", "v", false, None, 2);
    var run := [Init("w", req, "t", 0), resume, claim];
    assert run[1..] == [resume, claim] && [resume, claim][1..] == [claim] && [claim][1..] == [];
    var t := Apply(map[], run[0]);
    RequestEnters(map[], "w", req, "t", 0);
    assert Timely([claim], 1) && Timely([resume, claim], 0);
    assert RunAll(map[], run) == RunAll(t, [resume, claim]) == RunAll(Apply(t, resume), [claim]);
    assert RunAll(Apply(t, resume), [claim]) == RunAll(Apply(Apply(t, resume), claim), []);
  }

  /** So does a batch that brings it in with a delay. */
  lemma BatchLetsInEarly(req: Request)
    requires req.dedup.None? && req.app.None?
    ensures var run := [EnqueueIfAbsent("w", req, "q", Some(10), 0), Claim({"w"}, "x", "v", false, None, 2)];
            && Timely(run, 0) && "w" in RunAll(map[], run)
            && RunAll(map[], run)["w"].startedAt == Some(2) && RunAll(map[], run)["w"].delayUntil == Some(10)
  {
    var claim := Claim({"w"}, "x", "v", false, None, 2);
    var run := [EnqueueIfAbsent("w", req, "q", Some(10), 0), claim];
    assert run[1..] == [claim] && [claim][1..] == [];
    assert Timely([claim], 0);
    assert RunAll(Apply(map[], run[0]), [claim]) == RunAll(Apply(Apply(map[], run[0]), claim), []);
  }
}
