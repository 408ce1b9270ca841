/** The recovery counter: how often one workflow can begin before it is dead-lettered. */
module AttemptBound {
  import opened Wrappers
  import opened WorkflowRows

  /** A claim with the status read and dead-letter check that follow it, as one step. */
  datatype Claimant = Claimant(executor: string, version: string, limited: bool, app: Option<string>, now: int)

  datatype Event =
    | Start(id: Id, req: Request, ownerXid: string, now: int)
    | Dispatch(id: Id, claimant: Claimant)
    | Statement(action: Action)

  predicate Claims(r: Row, c: Claimant) {
    r.status == Enqueued && AppMatches(c.app, r.app)
  }

  predicate Exhausted(attempts: nat, max: nat) {
    attempts > max + 1
  }

  /** The dequeued row: claimed, and dead-lettered if that claim was one too many. */
  function DispatchRow(r: Row, c: Claimant, max: nat): Row {
    var claimed := ClaimRow(r, c.executor, c.version, c.limited, c.app, c.now);
    if Claims(r, c) && Exhausted(claimed.attempts, max) then DeadLetterRow(claimed, claimed.attempts, c.now)
    else claimed
  }

  /** `max` is the tracked workflow's own limit; other workflows have theirs. */
  ghost function Perform(t: Table, e: Event, max: Id -> nat): Table {
    match e
    case Start(id, req, xid, now) => Apply(t, Init(id, req, xid, now))
    case Dispatch(id, c) => if id in t then t[id := DispatchRow(t[id], c, max(id))] else t
    case Statement(a) => Apply(t, a)
  }

  /** Claims and dead letters happen in a dispatch; each start call draws an owner ID of its own. */
  ghost predicate Allowed(t: Table, e: Event) {
    match e
    case Start(_, _, xid, _) => forall id :: id in t ==> t[id].ownerXid != Some(xid)
    case Dispatch(_, _) => true
    case Statement(a) => !a.Claim? && !a.DeadLetter? && !a.Init?
  }

  /** A dispatch is the claim statement and, when the counter it reads back is exhausted, the dead-letter one. */
  lemma DispatchIsClaimThenDeadLetter(t: Table, id: Id, c: Claimant, max: Id -> nat)
    requires id in t
    ensures var u := Apply(t, Claim({id}, c.executor, c.version, c.limited, c.app, c.now));
            Perform(t, Dispatch(id, c), max) ==
            if Claims(t[id], c) && Exhausted(u[id].attempts, max(id))
            then Apply(u, DeadLetter({id}, u[id].attempts, c.now)) else u
  {
  }

  /** Whether this event begins an execution of `w`. */
  ghost predicate Begins(t: Table, e: Event, w: Id, max: Id -> nat) {
    match e
    case Start(id, req, xid, now) =>
      id == w && var u := Perform(t, e, max);
      w in u && u[w].ownerXid == Some(xid) && u[w].status == Pending
    case Dispatch(id, c) => id == w && w in t && Claims(t[w], c) && !Exhausted(t[w].attempts + 1, max(w))
    case Statement(_) => false
  }

  /** An execution begins exactly when the row becomes PENDING. */
  lemma BeginsAreVisible(t: Table, e: Event, w: Id, max: Id -> nat)
    requires Allowed(t, e)
    ensures var u := Perform(t, e, max);
            && (Begins(t, e, w, max) <==>
                  w in u && u[w].status == Pending && (w !in t || t[w].status != Pending))
  {
  }

  /** A dispatch gives the row up exactly when that would be one execution too many. */
  lemma DispatchIsExact(t: Table, e: Event, w: Id, max: Id -> nat)
    requires e.Dispatch?
    ensures var u := Perform(t, e, max);
            && (e.id == w && w in t && t[w].status == Enqueued && u[w].status != Enqueued ==>
                  && u[w].attempts == t[w].attempts + 1
                  && (u[w].status == MaxRecovery <==> max(w) < t[w].attempts)
                  && (u[w].status == Pending <==> t[w].attempts <= max(w)))
            && u.Keys == t.Keys && forall id :: id in t && id != e.id ==> u[id] == t[id]
  {
  }

  ghost predicate Resumes(t: Table, e: Event, w: Id) {
    e.Statement? && e.action.Resume? && w in e.action.ids && w in t && !Finished(t[w].status)
  }

  lemma OtherRowsKeepCounter(a: Action, id: Id, r: Row)
    requires !a.Claim?
    ensures UpdatedRow(a, id, r).attempts == if a.Resume? && id in a.ids && !Finished(r.status) then 0 else r.attempts
  {
  }

  /** The count starts over exactly where the counter does. */
  lemma ResumesAreVisible(t: Table, e: Event, w: Id, max: Id -> nat)
    requires Allowed(t, e)
    ensures var u := Perform(t, e, max);
            && (Resumes(t, e, w) ==> w in u && u[w].attempts == 0 && u[w].status == Enqueued)
            && (!Resumes(t, e, w) && w in t ==> w in u && t[w].attempts <= u[w].attempts)
  {
    if e.Statement? && w in t {
      OtherRowsKeepCounter(e.action, w, t[w]);
    }
  }

  /** Executions of `w` begun since the last resume, given how many there were before this event. */
  ghost function BegunAfter(t: Table, e: Event, w: Id, max: Id -> nat, begun: nat): nat {
    if Resumes(t, e, w) then 0 else if Begins(t, e, w, max) then begun + 1 else begun
  }

  ghost predicate IsRun(t: Table, events: seq<Event>, max: Id -> nat)
    decreases |events|
  {
    events != [] ==> Allowed(t, events[0]) && IsRun(Perform(t, events[0], max), events[1..], max)
  }

  ghost function Begun(t: Table, events: seq<Event>, w: Id, max: Id -> nat, begun: nat): nat
    decreases |events|
  {
    if events == [] then begun
    else Begun(Perform(t, events[0], max), events[1..], w, max, BegunAfter(t, events[0], w, max, begun))
  }

  /** The counter covers every execution begun, and stays within one of the limit while the row is live. */
  ghost predicate Covered(t: Table, w: Id, max: Id -> nat, begun: nat) {
    && begun <= max(w) + 1
    && (w in t ==> begun <= t[w].attempts)
    && (w !in t ==> begun == 0)
  }

  lemma EventKeepsCovered(t: Table, e: Event, w: Id, max: Id -> nat, begun: nat)
    requires Covered(t, w, max, begun) && Allowed(t, e)
    ensures Covered(Perform(t, e, max), w, max, BegunAfter(t, e, w, max, begun))
  {
    if e.Statement? && w in t {
      OtherRowsKeepCounter(e.action, w, t[w]);
    }
  }

  /** At most maxRecoveryAttempts + 1 executions begin between two resumes, over any run. */
  lemma {:induction false} BeginsAreBounded(t: Table, events: seq<Event>, w: Id, max: Id -> nat, begun: nat)
    requires Covered(t, w, max, begun) && IsRun(t, events, max)
    ensures Begun(t, events, w, max, begun) <= max(w) + 1
    decreases |events|
  {
    if events != [] {
      EventKeepsCovered(t, events[0], w, max, begun);
      BeginsAreBounded(Perform(t, events[0], max), events[1..], w, max, BegunAfter(t, events[0], w, max, begun));
    }
  }

  /** In particular from a table that does not know the workflow yet, however it is first started. */
  lemma NewWorkflowIsBounded(t: Table, events: seq<Event>, w: Id, max: Id -> nat)
    requires w !in t && IsRun(t, events, max)
    ensures Begun(t, events, w, max, 0) <= max(w) + 1
  {
    BeginsAreBounded(t, events, w, max, 0);
  }

  // ---------------------------------------------------------------- a workflow that only crashes

  /** One crash: a handle of some name recovers the row at some time, and some worker dequeues it again. */
  datatype Round = Round(app: Option<string>, recovered: int, claimant: Claimant)

  /** Recovery returns the row to its queue and a dequeue picks it up again. */
  function CrashAndRetry(r: Row, round: Round, max: nat, recoveryQueue: string): Row {
    var version := if r.version.Some? then r.version.value else "";
    DispatchRow(ReenqueueRow(r, r.executor, version, round.app, recoveryQueue, round.recovered), round.claimant, max)
  }

  function CrashLoop(r: Row, rounds: seq<Round>, max: nat, recoveryQueue: string): Row
    decreases |rounds|
  {
    if rounds == [] then r
    else CrashLoop(CrashAndRetry(r, rounds[0], max, recoveryQueue), rounds[1..], max, recoveryQueue)
  }

  /** While it lives, the row is recovered and claimed by handles that may act on it. */
  predicate RowIsTheirs(r: Row, rounds: seq<Round>, max: nat, recoveryQueue: string)
    decreases |rounds|
  {
    rounds == [] || r.status != Pending ||
    (AppMatches(rounds[0].app, r.app) && AppMatches(rounds[0].claimant.app, r.app) &&
     RowIsTheirs(CrashAndRetry(r, rounds[0], max, recoveryQueue), rounds[1..], max, recoveryQueue))
  }

  lemma {:induction false} DeadLettersStay(r: Row, rounds: seq<Round>, max: nat, recoveryQueue: string)
    requires r.status == MaxRecovery
    ensures CrashLoop(r, rounds, max, recoveryQueue) == r
    decreases |rounds|
  {
    if rounds != [] {
      DeadLettersStay(r, rounds[1..], max, recoveryQueue);
    }
  }

  /** Crashing over and over, it is dead-lettered exactly when the counter passes the limit, and runs until then,
      whoever recovers and claims it in each round. */
  lemma {:induction false} CrashingIsDeadLettered(r: Row, rounds: seq<Round>, max: nat, recoveryQueue: string)
    requires r.status == Pending && r.version.Some? && !Exhausted(r.attempts, max)
    requires RowIsTheirs(r, rounds, max, recoveryQueue)
    ensures var last := CrashLoop(r, rounds, max, recoveryQueue);
            && (last.status == MaxRecovery <==> Exhausted(r.attempts + |rounds|, max))
            && (last.status == Pending <==> !Exhausted(r.attempts + |rounds|, max))
            && (last.status == Pending ==> last.attempts == r.attempts + |rounds|)
            && (last.status == MaxRecovery ==> last.attempts == max + 2)
    decreases |rounds|
  {
    if rounds != [] {
      var next := CrashAndRetry(r, rounds[0], max, recoveryQueue);
      assert next.attempts == r.attempts + 1;
      if next.status == MaxRecovery {
        DeadLettersStay(next, rounds[1..], max, recoveryQueue);
      } else {
        CrashingIsDeadLettered(next, rounds[1..], max, recoveryQueue);
      }
    }
  }
}
