/** Checkpointed execution of one workflow: any number of executions, at once or one after another, run the same
    deterministic program against the write-once step log and the guarded workflow row. */
module StepReplay {
  import opened Wrappers
  import opened WorkflowRows

  /** A serialized value; serialization never yields the empty text. */
  type Text = s: string | s != "" witness "0"

  /** What a step hands back to the workflow: its output or the error it threw. */
  datatype StepResult = Output(text: string) | Failure(text: string)

  datatype Action = Call(name: string) | Return(result: Option<Text>) | Raise(thrown: Text)

  /** The workflow body: deterministic given the step results so far. */
  type Program = seq<StepResult> -> Action

  /** A row of operation_outputs. */
  datatype Entry = Entry(name: string, result: StepResult, endTime: int)

  type Log = map<nat, Entry>

  datatype Delivery = Result(outcome: Outcome) | WasCancelled | AttemptsExceeded

  datatype Phase =
    | Between                       // about to perform the program's next action
    | Inside(name: string)          // past the check, the step body is executing
    | Parked                        // does not own the outcome: awaits the recorded one
    | Delivered(delivery: Delivery)
    | Confused                      // raised the unexpected-step error

  datatype Execution = Execution(results: seq<StepResult>, phase: Phase)

  type Runner = nat

  datatype State = State(row: Row, log: Log, runs: map<Runner, Execution>)

  datatype Event =
    | Begin(runner: Runner, executor: string, version: string, limited: bool, app: Option<string>, now: int)
    | Check(runner: Runner)
    | Finish(runner: Runner, result: StepResult, endTime: int, checkConflict: bool)
    | Conclude(runner: Runner, now: int)
    | Adopt(runner: Runner)
    | Crash(runner: Runner)
    | Statement(action: WorkflowRows.Action)

  /** The outcome an awaiter reads from a finished row. */
  function RecordedOutcome(r: Row): Outcome {
    if r.status == Error && r.error.Some? && r.error.value != "" then Threw(r.error) else Returned(r.output)
  }

  function OutcomeOf(a: Action): Outcome
    requires !a.Call?
  {
    if a.Return? then Returned(a.result) else Threw(Some(a.thrown))
  }

  ghost predicate Enabled(p: Program, s: State, e: Event) {
    match e
    case Begin(x, _, _, _, app, _) => x !in s.runs && s.row.status == Enqueued && AppMatches(app, s.row.app)
    case Check(x) => x in s.runs && s.runs[x].phase == Between && p(s.runs[x].results).Call?
    case Finish(x, _, _, _) => x in s.runs && s.runs[x].phase.Inside?
    case Conclude(x, _) => x in s.runs && s.runs[x].phase == Between && !p(s.runs[x].results).Call?
    case Adopt(x) => x in s.runs && s.runs[x].phase == Parked && Terminal(s.row.status)
    case Crash(x) => x in s.runs
    case Statement(a) => !a.Claim? && !a.Record?
  }

  function Next(r: Execution, result: StepResult): Execution {
    Execution(r.results + [result], Between)
  }

  /** Read the checkpoint for the next step, throwing if the workflow was cancelled. */
  function CheckStep(s: State, r: Execution, name: string): Execution {
    var n := |r.results|;
    if s.row.status == Cancelled then r.(phase := Parked)
    else if n !in s.log then r.(phase := Inside(name))
    else if s.log[n].name != name then r.(phase := Confused)
    else Next(r, s.log[n].result)
  }

  /** The insert on conflict keeps the first entry; a conflict is noticed by comparing end times, when asked to. */
  function Inserted(log: Log, n: nat, entry: Entry): Log {
    if n in log then log else log[n := entry]
  }

  function FinishStep(log: Log, r: Execution, entry: Entry, checkConflict: bool): Execution {
    var stored := Inserted(log, |r.results|, entry)[|r.results|];
    if checkConflict && stored.endTime != entry.endTime then r.(phase := Parked) else Next(r, entry.result)
  }

  function AdoptedFrom(row: Row): Delivery {
    if row.status == Cancelled then WasCancelled
    else if row.status == MaxRecovery then AttemptsExceeded
    else Result(RecordedOutcome(row))
  }

  ghost function Perform(p: Program, w: Id, s: State, e: Event): State
    requires Enabled(p, s, e)
  {
    match e
    case Begin(x, executor, version, limited, app, now) =>
      s.(row := ClaimRow(s.row, executor, version, limited, app, now), runs := s.runs[x := Execution([], Between)])
    case Check(x) => s.(runs := s.runs[x := CheckStep(s, s.runs[x], p(s.runs[x].results).name)])
    case Finish(x, result, endTime, checkConflict) =>
      var r := s.runs[x];
      var entry := Entry(r.phase.name, result, endTime);
      s.(log := Inserted(s.log, |r.results|, entry), runs := s.runs[x := FinishStep(s.log, r, entry, checkConflict)])
    case Conclude(x, now) =>
      var r := s.runs[x];
      var outcome := OutcomeOf(p(r.results));
      if s.row.status == Pending
      then s.(row := OutcomeRow(s.row, outcome, now), runs := s.runs[x := r.(phase := Delivered(Result(outcome)))])
      else s.(runs := s.runs[x := r.(phase := Parked)])
    case Adopt(x) => s.(runs := s.runs[x := s.runs[x].(phase := Delivered(AdoptedFrom(s.row)))])
    case Crash(x) => s.(runs := s.runs - {x})
    case Statement(a) => s.(row := UpdatedRow(a, w, s.row))
  }

  // ---------------------------------------------------------------- agreement

  /** The results of the first `n` steps, as recorded. */
  function Values(log: Log, n: nat): seq<StepResult>
    requires forall k: nat :: k < n ==> k in log
  {
    seq(n, k requires 0 <= k < n => log[k].result)
  }

  ghost predicate Full(log: Log, n: nat) {
    forall k: nat :: k < n ==> k in log
  }

  /** Every entry is the step the program takes after the entries before it. */
  ghost predicate Lawful(p: Program, log: Log) {
    forall n: nat :: n in log ==> Full(log, n) && p(Values(log, n)) == Call(log[n].name)
  }

  ghost predicate Follows(log: Log, results: seq<StepResult>) {
    Full(log, |results|) && results == Values(log, |results|)
  }

  /** The log is complete at `n`, and the program's result on it is `outcome`. */
  ghost predicate Computes(p: Program, log: Log, n: nat, outcome: Outcome) {
    n !in log && Full(log, n) && !p(Values(log, n)).Call? && outcome == OutcomeOf(p(Values(log, n)))
  }

  ghost predicate RunOk(p: Program, row: Row, log: Log, r: Execution) {
    && Follows(log, r.results)
    && r.phase != Confused
    && (r.phase.Inside? ==> p(r.results) == Call(r.phase.name))
    && (r.phase.Delivered? && r.phase.delivery.Result? ==>
          Finished(row.status) && r.phase.delivery.outcome == RecordedOutcome(row))
  }

  predicate ErrorIsStored(row: Row) {
    row.status == Error ==> row.error.Some? && row.error.value != ""
  }

  ghost predicate Agreement(p: Program, s: State) {
    && RowOk(s.row) && ErrorIsStored(s.row)
    && Lawful(p, s.log)
    && (forall x :: x in s.runs ==> RunOk(p, s.row, s.log, s.runs[x]))
    && (Finished(s.row.status) ==> exists n: nat :: Computes(p, s.log, n, RecordedOutcome(s.row)))
  }

  /** A step record that either sees the slot free or notices that it is taken. */
  ghost predicate NoSilentLoss(s: State, e: Event) {
    e.Finish? && e.runner in s.runs && |s.runs[e.runner].results| in s.log ==>
      e.checkConflict && s.log[|s.runs[e.runner].results|].endTime != e.endTime
  }

  lemma ValuesStable(log: Log, m: nat, entry: Entry, n: nat)
    requires Full(log, n)
    ensures Full(Inserted(log, m, entry), n) && Values(Inserted(log, m, entry), n) == Values(log, n)
  {
  }

  lemma InsertIsLawful(p: Program, log: Log, n: nat, entry: Entry)
    requires Lawful(p, log) && Full(log, n) && p(Values(log, n)) == Call(entry.name)
    ensures Lawful(p, Inserted(log, n, entry))
  {
    var after := Inserted(log, n, entry);
    forall m: nat | m in after
      ensures Full(after, m) && p(Values(after, m)) == Call(after[m].name)
    {
      ValuesStable(log, n, entry, if m in log then m else n);
    }
  }

  /** A complete log cannot grow: the program takes no further step on it. */
  lemma InsertKeepsResult(p: Program, log: Log, n: nat, entry: Entry, m: nat, outcome: Outcome)
    requires Lawful(p, log) && Full(log, n) && p(Values(log, n)) == Call(entry.name)
    requires Computes(p, log, m, outcome)
    ensures Computes(p, Inserted(log, n, entry), m, outcome)
  {
    ValuesStable(log, n, entry, m);
    assert n <= m;
  }

  /** An entry more does not disturb an execution. */
  lemma InsertKeepsRun(p: Program, row: Row, log: Log, n: nat, entry: Entry, r: Execution)
    requires RunOk(p, row, log, r)
    ensures RunOk(p, row, Inserted(log, n, entry), r)
  {
    ValuesStable(log, n, entry, |r.results|);
  }

  lemma WonSlotFollows(log: Log, r: Execution, entry: Entry)
    requires Follows(log, r.results) && |r.results| !in log
    ensures Follows(Inserted(log, |r.results|, entry), r.results + [entry.result])
  {
    var n := Inserted(log, |r.results|, entry);
    ValuesStable(log, |r.results|, entry, |r.results|);
    assert Values(n, |r.results| + 1) == r.results + [entry.result];
  }

  lemma FinishKeepsOwn(p: Program, w: Id, s: State, e: Event)
    requires Agreement(p, s) && Enabled(p, s, e) && e.Finish? && NoSilentLoss(s, e)
    ensures var n := Perform(p, w, s, e); RunOk(p, n.row, n.log, n.runs[e.runner])
  {
    var n, r := Perform(p, w, s, e), s.runs[e.runner];
    var at := |r.results|;
    assert RunOk(p, s.row, s.log, r);
    if at !in s.log {
      WonSlotFollows(s.log, r, Entry(r.phase.name, e.result, e.endTime));
      assert n.runs[e.runner] == Next(r, e.result);
    } else {
      assert n.log == s.log && n.runs[e.runner] == r.(phase := Parked);
    }
  }

  lemma FinishAgrees(p: Program, w: Id, s: State, e: Event)
    requires Agreement(p, s) && Enabled(p, s, e) && e.Finish? && NoSilentLoss(s, e)
    ensures Agreement(p, Perform(p, w, s, e))
  {
    var n := Perform(p, w, s, e);
    var r := s.runs[e.runner];
    var at := |r.results|;
    var entry := Entry(r.phase.name, e.result, e.endTime);
    assert RunOk(p, s.row, s.log, r);
    InsertIsLawful(p, s.log, at, entry);
    forall x | x in n.runs
      ensures RunOk(p, n.row, n.log, n.runs[x])
    {
      if x == e.runner {
        FinishKeepsOwn(p, w, s, e);
      } else {
        assert RunOk(p, s.row, s.log, s.runs[x]);
        InsertKeepsRun(p, s.row, s.log, at, entry, s.runs[x]);
      }
    }
    if Finished(s.row.status) {
      var m: nat :| Computes(p, s.log, m, RecordedOutcome(s.row));
      InsertKeepsResult(p, s.log, at, entry, m, RecordedOutcome(s.row));
    }
  }

  /** A step that touches neither row nor log need only keep its own execution in order. */
  lemma OneRunAgrees(p: Program, s: State, x: Runner, r: Execution)
    requires Agreement(p, s) && RunOk(p, s.row, s.log, r)
    ensures Agreement(p, s.(runs := s.runs[x := r]))
  {
  }

  lemma CheckAgrees(p: Program, w: Id, s: State, e: Event)
    requires Agreement(p, s) && Enabled(p, s, e) && e.Check?
    ensures Agreement(p, Perform(p, w, s, e))
  {
    var r := s.runs[e.runner];
    assert RunOk(p, s.row, s.log, r);
    if |r.results| in s.log {
      assert Values(s.log, |r.results| + 1) == r.results + [s.log[|r.results|].result];
    }
    OneRunAgrees(p, s, e.runner, CheckStep(s, r, p(r.results).name));
  }

  /** What a landed write stores is what readers of the row are given. */
  lemma LandedIsRecorded(row: Row, action: Action, now: int)
    requires RowOk(row) && row.status == Pending && !action.Call?
    ensures var landed := OutcomeRow(row, OutcomeOf(action), now);
            && RowOk(landed) && Finished(landed.status) && ErrorIsStored(landed)
            && RecordedOutcome(landed) == OutcomeOf(action)
  {
  }

  lemma UnfinishedRowMoves(p: Program, row: Row, landed: Row, log: Log, r: Execution)
    requires RunOk(p, row, log, r) && !Finished(row.status)
    ensures RunOk(p, landed, log, r)
  {
  }

  lemma ConcludeLands(p: Program, w: Id, s: State, e: Event)
    requires Agreement(p, s) && Enabled(p, s, e) && e.Conclude? && s.row.status == Pending
    ensures Agreement(p, Perform(p, w, s, e))
  {
    var n, r := Perform(p, w, s, e), s.runs[e.runner];
    assert RunOk(p, s.row, s.log, r);
    LandedIsRecorded(s.row, p(r.results), e.now);
    assert Computes(p, s.log, |r.results|, RecordedOutcome(n.row));
    forall x | x in s.runs
      ensures RunOk(p, n.row, s.log, s.runs[x])
    {
      UnfinishedRowMoves(p, s.row, n.row, s.log, s.runs[x]);
    }
  }

  lemma ConcludeAgrees(p: Program, w: Id, s: State, e: Event)
    requires Agreement(p, s) && Enabled(p, s, e) && e.Conclude?
    ensures Agreement(p, Perform(p, w, s, e))
  {
    if s.row.status == Pending {
      ConcludeLands(p, w, s, e);
    } else {
      assert RunOk(p, s.row, s.log, s.runs[e.runner]);
      OneRunAgrees(p, s, e.runner, s.runs[e.runner].(phase := Parked));
    }
  }

  /** No statement of the status machine touches a finished outcome. */
  lemma StatementAgrees(p: Program, w: Id, s: State, e: Event)
    requires Agreement(p, s) && Enabled(p, s, e) && (e.Statement? || e.Begin?)
    ensures Agreement(p, Perform(p, w, s, e))
  {
    var n := Perform(p, w, s, e);
    if e.Statement? {
      UpdateKeepsRow(e.action, w, s.row);
      OthersKeepOutcome(e.action, w, s.row);
    }
    assert Finished(n.row.status) <==> Finished(s.row.status);
    assert Finished(s.row.status) ==> SameOutcome(s.row, n.row);
    if Finished(s.row.status) {
      var m: nat :| Computes(p, s.log, m, RecordedOutcome(s.row));
      assert Computes(p, n.log, m, RecordedOutcome(n.row));
    }
    forall x | x in n.runs
      ensures RunOk(p, n.row, n.log, n.runs[x])
    {
      if x in s.runs {
        assert RunOk(p, s.row, s.log, s.runs[x]);
      }
    }
  }

  lemma StepAgrees(p: Program, w: Id, s: State, e: Event)
    requires Agreement(p, s) && Enabled(p, s, e) && NoSilentLoss(s, e)
    ensures Agreement(p, Perform(p, w, s, e))
  {
    match e
    case Check(_) => CheckAgrees(p, w, s, e);
    case Finish(_, _, _, _) => FinishAgrees(p, w, s, e);
    case Conclude(_, _) => ConcludeAgrees(p, w, s, e);
    case Statement(_) => StatementAgrees(p, w, s, e);
    case Begin(_, _, _, _, _, _) => StatementAgrees(p, w, s, e);
    case Adopt(x) =>
      assert RunOk(p, s.row, s.log, s.runs[x]);
      OneRunAgrees(p, s, x, s.runs[x].(phase := Delivered(AdoptedFrom(s.row))));
    case Crash(_) =>
  }

  // ---------------------------------------------------------------- where agreement ends

  lemma SilentLossOfSameResult(p: Program, w: Id, s: State, e: Event)
    requires Agreement(p, s) && Enabled(p, s, e) && e.Finish? && !NoSilentLoss(s, e)
    requires s.log[|s.runs[e.runner].results|].result == e.result
    ensures Agreement(p, Perform(p, w, s, e))
  {
    var n := Perform(p, w, s, e);
    var r := s.runs[e.runner];
    assert RunOk(p, s.row, s.log, r);
    assert n.log == s.log && n.row == s.row;
    assert Values(n.log, |r.results| + 1) == r.results + [e.result];
    forall x | x in n.runs
      ensures RunOk(p, n.row, n.log, n.runs[x])
    {
      assert RunOk(p, s.row, s.log, s.runs[x]);
    }
  }

  lemma SilentLossOfOtherResult(p: Program, w: Id, s: State, e: Event)
    requires Agreement(p, s) && Enabled(p, s, e) && e.Finish? && !NoSilentLoss(s, e)
    requires s.log[|s.runs[e.runner].results|].result != e.result
    ensures !Agreement(p, Perform(p, w, s, e))
  {
    var n := Perform(p, w, s, e);
    var r := s.runs[e.runner];
    var at := |r.results|;
    var after := n.runs[e.runner];
    assert after.results == r.results + [e.result];
    assert after.results[at] != n.log[at].result;
    assert !Follows(n.log, after.results) by {
      if Full(n.log, at + 1) {
        assert Values(n.log, at + 1)[at] == n.log[at].result;
      }
    }
    assert !RunOk(p, n.row, n.log, after);
  }

  /** A record that finds its slot taken and does not park keeps agreement exactly when it computed the stored result:
      an end-time collision, a sleep deadline, or an error recorded without the conflict check. */
  lemma SilentLossIsExact(p: Program, w: Id, s: State, e: Event)
    requires Agreement(p, s) && Enabled(p, s, e) && e.Finish? && !NoSilentLoss(s, e)
    ensures Agreement(p, Perform(p, w, s, e)) <==> s.log[|s.runs[e.runner].results|].result == e.result
  {
    if s.log[|s.runs[e.runner].results|].result == e.result {
      SilentLossOfSameResult(p, w, s, e);
    } else {
      SilentLossOfOtherResult(p, w, s, e);
    }
  }

  /** A record that loses its slot unnoticed computed what is stored there. */
  ghost predicate LossMatches(s: State, e: Event) {
    NoSilentLoss(s, e) || s.log[|s.runs[e.runner].results|].result == e.result
  }

  /** One event keeps agreement if and only if it is no silent loss of another result. */
  lemma StepAgreesExactly(p: Program, w: Id, s: State, e: Event)
    requires Agreement(p, s) && Enabled(p, s, e)
    ensures Agreement(p, Perform(p, w, s, e)) <==> LossMatches(s, e)
  {
    if NoSilentLoss(s, e) {
      StepAgrees(p, w, s, e);
    } else {
      SilentLossIsExact(p, w, s, e);
    }
  }

  // ---------------------------------------------------------------- whole runs

  ghost predicate IsRun(p: Program, w: Id, s: State, events: seq<Event>)
    decreases |events|
  {
    events != [] ==> Enabled(p, s, events[0]) && IsRun(p, w, Perform(p, w, s, events[0]), events[1..])
  }

  ghost function After(p: Program, w: Id, s: State, events: seq<Event>): State
    requires IsRun(p, w, s, events)
    decreases |events|
  {
    if events == [] then s else After(p, w, Perform(p, w, s, events[0]), events[1..])
  }

  ghost predicate LossesMatch(p: Program, w: Id, s: State, events: seq<Event>)
    requires IsRun(p, w, s, events)
    decreases |events|
  {
    events != [] ==> LossMatches(s, events[0]) && LossesMatch(p, w, Perform(p, w, s, events[0]), events[1..])
  }

  /** Agreement in every state of the run. */
  ghost predicate AgreesThroughout(p: Program, w: Id, s: State, events: seq<Event>)
    requires IsRun(p, w, s, events)
    decreases |events|
  {
    Agreement(p, s) && (events != [] ==> AgreesThroughout(p, w, Perform(p, w, s, events[0]), events[1..]))
  }

  lemma {:induction false} AgreesAtTheEnd(p: Program, w: Id, s: State, events: seq<Event>)
    requires IsRun(p, w, s, events) && AgreesThroughout(p, w, s, events)
    ensures Agreement(p, After(p, w, s, events))
    decreases |events|
  {
    if events != [] {
      AgreesAtTheEnd(p, w, Perform(p, w, s, events[0]), events[1..]);
    }
  }

  /** Log, executions and outcome agree throughout a run if and only if every record that lost its slot unnoticed had
      computed the stored result. */
  lemma {:induction false} RunAgreesExactly(p: Program, w: Id, s: State, events: seq<Event>)
    requires Agreement(p, s) && IsRun(p, w, s, events)
    ensures AgreesThroughout(p, w, s, events) <==> LossesMatch(p, w, s, events)
    decreases |events|
  {
    if events != [] {
      var n := Perform(p, w, s, events[0]);
      StepAgreesExactly(p, w, s, events[0]);
      if Agreement(p, n) {
        RunAgreesExactly(p, w, n, events[1..]);
      }
    }
  }

  /** A direct start: the row is PENDING and one execution is about to begin. */
  ghost predicate Fresh(s: State) {
    && RowOk(s.row) && !Finished(s.row.status) && s.log == map[]
    && forall x :: x in s.runs ==> s.runs[x] == Execution([], Between)
  }

  /** Replay and duplicate agreement over any interleaving of executions, crashes, recoveries and lost races in which no
      record that loses its slot unnoticed computed another result. */
  lemma ExecutionsAgree(p: Program, w: Id, s: State, events: seq<Event>)
    requires Fresh(s) && IsRun(p, w, s, events) && LossesMatch(p, w, s, events)
    ensures var n := After(p, w, s, events);
            && (forall x :: x in n.runs ==> Follows(n.log, n.runs[x].results) && n.runs[x].phase != Confused)
            && (forall x :: x in n.runs && n.runs[x].phase.Delivered? && n.runs[x].phase.delivery.Result? ==>
                  Finished(n.row.status) && n.runs[x].phase.delivery.outcome == RecordedOutcome(n.row))
            && (Finished(n.row.status) ==> exists k: nat :: Computes(p, n.log, k, RecordedOutcome(n.row)))
  {
    RunAgreesExactly(p, w, s, events);
    AgreesAtTheEnd(p, w, s, events);
    var n := After(p, w, s, events);
    forall x | x in n.runs
      ensures RunOk(p, n.row, n.log, n.runs[x])
    {
    }
  }

  /** With the results recorded, all of them, the program is at its end and does `last`. */
  ghost predicate Ends(p: Program, log: Log, rs: seq<StepResult>, last: Action) {
    && |rs| !in log && (forall k: nat :: k < |rs| ==> k in log && rs[k] == log[k].result)
    && p(rs) == last
  }

  /** The columns hold what the program returned or threw, and nothing else. */
  ghost predicate Stores(row: Row, last: Action) {
    match last
    case Return(res) => row.status == Success && row.output == res && row.error == None
    case Raise(e) => row.status == Error && row.error == Some(e) && row.output == None
    case Call(_) => false
  }

  ghost predicate Hands(outcome: Outcome, last: Action) {
    match last
    case Return(res) => outcome == Returned(res)
    case Raise(e) => outcome == Threw(Some(e))
    case Call(_) => false
  }

  lemma StoredIsEnd(p: Program, s: State, n: nat)
    requires Agreement(p, s) && Finished(s.row.status) && Computes(p, s.log, n, RecordedOutcome(s.row))
    ensures var rs := Values(s.log, n);
            Ends(p, s.log, rs, p(rs)) && Stores(s.row, p(rs)) && Hands(RecordedOutcome(s.row), p(rs))
  {
  }

  /** Over every such run: what a finished row stores, and what every execution hands its caller, is the very value the
      program returned, or the error it threw, on all the recorded results. */
  lemma ResultsAreThePrograms(p: Program, w: Id, s: State, events: seq<Event>)
    requires Fresh(s) && IsRun(p, w, s, events) && LossesMatch(p, w, s, events)
    ensures var n := After(p, w, s, events);
            && (forall x :: x in n.runs && n.runs[x].phase.Delivered? && n.runs[x].phase.delivery.Result? ==>
                  Finished(n.row.status))
            && (Finished(n.row.status) ==> exists rs, last ::
                  && Ends(p, n.log, rs, last) && Stores(n.row, last)
                  && forall x :: x in n.runs && n.runs[x].phase.Delivered? && n.runs[x].phase.delivery.Result? ==>
                       Hands(n.runs[x].phase.delivery.outcome, last))
    ensures var n := After(p, w, s, events);
            forall x, k: nat :: x in n.runs && k < |n.runs[x].results| ==>
              k in n.log && n.runs[x].results[k] == n.log[k].result
  {
    ExecutionsAgree(p, w, s, events);
    RunAgreesExactly(p, w, s, events);
    AgreesAtTheEnd(p, w, s, events);
    var n := After(p, w, s, events);
    if Finished(n.row.status) {
      var k: nat :| Computes(p, n.log, k, RecordedOutcome(n.row));
      StoredIsEnd(p, n, k);
      assert Ends(p, n.log, Values(n.log, k), p(Values(n.log, k)));
    }
  }

  /** A record that finds its slot taken checks for conflicts, and no attempt before it ended when it does. */
  ghost predicate DistinctEndTimes(p: Program, w: Id, s: State, events: seq<Event>, used: set<int>)
    requires IsRun(p, w, s, events)
    decreases |events|
  {
    events != [] ==>
      var e := events[0];
      && (e.Finish? && |s.runs[e.runner].results| in s.log ==> e.checkConflict && e.endTime !in used)
      && DistinctEndTimes(p, w, Perform(p, w, s, e), events[1..], if e.Finish? then used + {e.endTime} else used)
  }

  ghost predicate EndTimesIn(log: Log, used: set<int>) {
    forall n :: n in log ==> log[n].endTime in used
  }

  lemma {:induction false} DistinctEndTimesMatch(p: Program, w: Id, s: State, events: seq<Event>, used: set<int>)
    requires EndTimesIn(s.log, used) && IsRun(p, w, s, events) && DistinctEndTimes(p, w, s, events, used)
    ensures LossesMatch(p, w, s, events)
    decreases |events|
  {
    if events != [] {
      var e, n := events[0], Perform(p, w, s, events[0]);
      var more := if e.Finish? then used + {e.endTime} else used;
      assert EndTimesIn(n.log, more);
      DistinctEndTimesMatch(p, w, n, events[1..], more);
    }
  }

  /** Records that lose a race notice it when attempts end at different times; one that is written unchecked, as a
      sleep's deadline is, does no harm where it finds its slot free. */
  lemma RunAgrees(p: Program, w: Id, s: State, events: seq<Event>, used: set<int>)
    requires Agreement(p, s) && EndTimesIn(s.log, used)
    requires IsRun(p, w, s, events) && DistinctEndTimes(p, w, s, events, used)
    ensures AgreesThroughout(p, w, s, events)
  {
    DistinctEndTimesMatch(p, w, s, events, used);
    RunAgreesExactly(p, w, s, events);
  }

  /** Write-once: no event, whatever its end times, changes or removes a recorded step. */
  lemma {:induction false} LogIsWriteOnce(p: Program, w: Id, s: State, events: seq<Event>, k: nat)
    requires IsRun(p, w, s, events) && k in s.log
    ensures k in After(p, w, s, events).log && After(p, w, s, events).log[k] == s.log[k]
    decreases |events|
  {
    if events != [] {
      LogIsWriteOnce(p, w, Perform(p, w, s, events[0]), events[1..], k);
    }
  }

  // ---------------------------------------------------------------- what a complete log does to a new execution

  ghost function Checks(x: Runner, n: nat): seq<Event> {
    seq(n, _ => Check(x))
  }

  lemma ReplayOneStep(p: Program, w: Id, s: State, x: Runner)
    requires Agreement(p, s) && x in s.runs && s.runs[x].phase == Between
    requires |s.runs[x].results| in s.log && s.row.status != Cancelled
    ensures Enabled(p, s, Check(x))
    ensures Perform(p, w, s, Check(x)) ==
            s.(runs := s.runs[x := Execution(Values(s.log, |s.runs[x].results| + 1), Between)])
  {
    var r := s.runs[x];
    assert RunOk(p, s.row, s.log, r);
    assert p(Values(s.log, |r.results|)) == Call(s.log[|r.results|].name);
    assert Values(s.log, |r.results| + 1) == r.results + [s.log[|r.results|].result];
  }

  /** The state with execution `x` having replayed `k` steps. */
  ghost function Replayed(s: State, x: Runner, k: nat): State
    requires Full(s.log, k)
  {
    s.(runs := s.runs[x := Execution(Values(s.log, k), Between)])
  }

  lemma ReplayedOneMore(p: Program, w: Id, s: State, x: Runner, k: nat)
    requires Full(s.log, k + 1) && s.row.status != Cancelled && Agreement(p, Replayed(s, x, k))
    ensures var at := Replayed(s, x, k);
            Enabled(p, at, Check(x)) && Perform(p, w, at, Check(x)) == Replayed(s, x, k + 1)
  {
    var at := Replayed(s, x, k);
    assert x in at.runs && at.runs[x].phase == Between && |at.runs[x].results| == k && k in at.log;
    ReplayOneStep(p, w, at, x);
    assert at.runs[x := Execution(Values(s.log, k + 1), Between)] == Replayed(s, x, k + 1).runs;
  }

  lemma ReplayedAgrees(p: Program, w: Id, s: State, x: Runner, k: nat)
    requires Full(s.log, k + 1) && s.row.status != Cancelled && Agreement(p, Replayed(s, x, k))
    ensures Agreement(p, Replayed(s, x, k + 1))
  {
    var at := Replayed(s, x, k);
    ReplayedOneMore(p, w, s, x, k);
    CheckAgrees(p, w, at, Check(x));
  }

  lemma RunOneMore(p: Program, w: Id, s: State, e: Event, events: seq<Event>)
    requires Enabled(p, s, e) && IsRun(p, w, Perform(p, w, s, e), events)
    ensures IsRun(p, w, s, [e] + events)
    ensures After(p, w, s, [e] + events) == After(p, w, Perform(p, w, s, e), events)
  {
    assert ([e] + events)[1..] == events;
  }

  lemma {:induction false} ReplayedStaysAgreed(p: Program, w: Id, s: State, x: Runner, k: nat, n: nat)
    requires k <= n && Full(s.log, n) && s.row.status != Cancelled && Agreement(p, Replayed(s, x, k))
    ensures Agreement(p, Replayed(s, x, n))
    decreases n - k
  {
    if k < n {
      ReplayedAgrees(p, w, s, x, k);
      ReplayedStaysAgreed(p, w, s, x, k + 1, n);
    }
  }

  ghost predicate StepsOn(p: Program, w: Id, s: State, x: Runner, k: nat) {
    && Full(s.log, k + 1) && Enabled(p, Replayed(s, x, k), Check(x))
    && Perform(p, w, Replayed(s, x, k), Check(x)) == Replayed(s, x, k + 1)
  }

  lemma {:induction false} ReplayOn(p: Program, w: Id, s: State, x: Runner, k: nat, n: nat)
    requires k <= n && Full(s.log, n) && forall j: nat :: k <= j < n ==> StepsOn(p, w, s, x, j)
    ensures IsRun(p, w, Replayed(s, x, k), Checks(x, n - k))
    ensures After(p, w, Replayed(s, x, k), Checks(x, n - k)) == Replayed(s, x, n)
    decreases n - k
  {
    if k < n {
      assert StepsOn(p, w, s, x, k);
      ReplayOn(p, w, s, x, k + 1, n);
      RunOneMore(p, w, Replayed(s, x, k), Check(x), Checks(x, n - (k + 1)));
      assert Checks(x, n - k) == [Check(x)] + Checks(x, n - (k + 1));
    }
  }

  /** A recovered execution reads every recorded step back, runs none of them again, and reaches the same result. */
  lemma ReplayReachesResult(p: Program, w: Id, s: State, x: Runner, n: nat, outcome: Outcome)
    requires Agreement(p, s) && x in s.runs && s.runs[x].phase == Between && |s.runs[x].results| <= n
    requires Computes(p, s.log, n, outcome) && s.row.status != Cancelled
    ensures var events := Checks(x, n - |s.runs[x].results|);
            && IsRun(p, w, s, events)
            && After(p, w, s, events) == s.(runs := s.runs[x := Execution(Values(s.log, n), Between)])
    ensures OutcomeOf(p(Values(s.log, n))) == outcome
  {
    var k := |s.runs[x].results|;
    assert RunOk(p, s.row, s.log, s.runs[x]);
    assert s.runs[x].results == Values(s.log, k);
    assert s.runs == s.runs[x := Execution(Values(s.log, k), Between)];
    assert s == Replayed(s, x, k);
    forall j: nat | k <= j < n ensures StepsOn(p, w, s, x, j) {
      ReplayedStaysAgreed(p, w, s, x, k, j);
      ReplayedOneMore(p, w, s, x, j);
    }
    ReplayOn(p, w, s, x, k, n);
  }

  // ---------------------------------------------------------------- one execution at a time

  predicate Alive(r: Execution) {
    r.phase.Between? || r.phase.Inside?
  }

  /** A dispatch happens only once earlier executions have crashed, parked or delivered. */
  ghost predicate Sequential(p: Program, w: Id, s: State, events: seq<Event>)
    requires IsRun(p, w, s, events)
    decreases |events|
  {
    events != [] ==>
      && (events[0].Begin? ==> forall x :: x in s.runs ==> !Alive(s.runs[x]))
      && Sequential(p, w, Perform(p, w, s, events[0]), events[1..])
  }

  ghost predicate AtMostOneAlive(s: State) {
    && (forall x, y :: x in s.runs && y in s.runs && Alive(s.runs[x]) && Alive(s.runs[y]) ==> x == y)
    && (forall x :: x in s.runs && s.runs[x].phase.Inside? ==> |s.runs[x].results| !in s.log)
  }

  lemma SequentialStep(p: Program, w: Id, s: State, e: Event)
    requires Agreement(p, s) && AtMostOneAlive(s) && Enabled(p, s, e)
    requires e.Begin? ==> forall x :: x in s.runs ==> !Alive(s.runs[x])
    ensures NoSilentLoss(s, e) && AtMostOneAlive(Perform(p, w, s, e))
  {
  }

  lemma {:induction false} SequentialMatches(p: Program, w: Id, s: State, events: seq<Event>)
    requires Agreement(p, s) && AtMostOneAlive(s)
    requires IsRun(p, w, s, events) && Sequential(p, w, s, events)
    ensures LossesMatch(p, w, s, events)
    decreases |events|
  {
    if events != [] {
      SequentialStep(p, w, s, events[0]);
      StepAgrees(p, w, s, events[0]);
      SequentialMatches(p, w, Perform(p, w, s, events[0]), events[1..]);
    }
  }

  /** Sequential replay never loses a record race, so sleep deadlines and unchecked errors are stable too. */
  lemma SequentialReplayAgrees(p: Program, w: Id, s: State, events: seq<Event>)
    requires Agreement(p, s) && AtMostOneAlive(s)
    requires IsRun(p, w, s, events) && Sequential(p, w, s, events)
    ensures AgreesThroughout(p, w, s, events)
  {
    SequentialMatches(p, w, s, events);
    RunAgreesExactly(p, w, s, events);
  }

  // ---------------------------------------------------------------- what one execution does

  /** The other executions, and all but what the event is about, stay as they are. */
  ghost predicate OnlyMoves(s: State, n: State, x: Runner) {
    && (forall y :: y != x ==> (y in n.runs <==> y in s.runs))
    && (forall y :: y != x && y in s.runs ==> n.runs[y] == s.runs[y])
  }

  /** An execution at a step: it stops if the workflow is cancelled, takes the recorded result of that very step, raises
      where another is recorded, and goes inside only where nothing is. */
  lemma CheckIsExact(p: Program, w: Id, s: State, x: Runner)
    requires Enabled(p, s, Check(x))
    ensures var n, r := Perform(p, w, s, Check(x)), s.runs[x];
            var at, step := |r.results|, p(r.results);
            && n.row == s.row && n.log == s.log && OnlyMoves(s, n, x) && x in n.runs
            && r.phase == Between && step.Call?
            && (n.runs[x].phase == Parked <==> s.row.status == Cancelled)
            && (n.runs[x].phase == Inside(step.name) <==> s.row.status != Cancelled && at !in s.log)
            && (n.runs[x].phase == Confused <==>
                  s.row.status != Cancelled && at in s.log && s.log[at].name != step.name)
            && (n.runs[x].phase == Between ==> at in s.log && n.runs[x].results == r.results + [s.log[at].result])
            && (n.runs[x].phase != Between ==> n.runs[x].results == r.results)
            && n.runs[x].phase in {Parked, Confused, Between, Inside(step.name)}
  {
  }

  /** An execution leaves a step with its own result, recorded where the slot is free, unless it notices that it
      lost. */
  lemma FinishIsExact(p: Program, w: Id, s: State, e: Event)
    requires Enabled(p, s, e) && e.Finish?
    ensures var n, r := Perform(p, w, s, e), s.runs[e.runner];
            var at := |r.results|;
            && n.row == s.row && OnlyMoves(s, n, e.runner) && e.runner in n.runs && r.phase.Inside?
            && n.log.Keys == s.log.Keys + {at} && (forall k :: k in s.log ==> n.log[k] == s.log[k])
            && (at !in s.log ==> n.log[at] == Entry(r.phase.name, e.result, e.endTime))
            && (n.runs[e.runner] == r.(phase := Parked) <==>
                  at in s.log && e.checkConflict && s.log[at].endTime != e.endTime)
            && (n.runs[e.runner].phase != Parked ==>
                  n.runs[e.runner] == Execution(r.results + [e.result], Between))
  {
  }

  /** At its end an execution owns the outcome if the row is still running, and else waits for the recorded one. */
  lemma ConcludeIsExact(p: Program, w: Id, s: State, x: Runner, now: int)
    requires Enabled(p, s, Conclude(x, now)) && RowOk(s.row)
    ensures var n, r := Perform(p, w, s, Conclude(x, now)), s.runs[x];
            && n.log == s.log && OnlyMoves(s, n, x) && x in n.runs && r.phase == Between
            && (s.row.status == Pending ==>
                  && Stores(n.row, p(r.results)) && n.row.completedAt == Some(now)
                  && n.runs[x].phase.Delivered? && n.runs[x].phase.delivery.Result?
                  && Hands(n.runs[x].phase.delivery.outcome, p(r.results)))
            && (s.row.status != Pending ==> n.row == s.row && n.runs[x] == r.(phase := Parked))
  {
  }

  /** What an execution that waited hands out is told by the row: cancelled, given up, the recorded error if there is
      one, else the recorded output. */
  lemma AdoptIsExact(p: Program, w: Id, s: State, x: Runner)
    requires Enabled(p, s, Adopt(x))
    ensures var n := Perform(p, w, s, Adopt(x));
            && n.row == s.row && n.log == s.log && OnlyMoves(s, n, x) && x in n.runs
            && s.row.status in {Success, Error, Cancelled, MaxRecovery} && s.runs[x].phase == Parked
            && n.runs[x].phase.Delivered? && n.runs[x].results == s.runs[x].results
            && (n.runs[x].phase.delivery == WasCancelled <==> s.row.status == Cancelled)
            && (n.runs[x].phase.delivery == AttemptsExceeded <==> s.row.status == MaxRecovery)
            && (s.row.status == Success ==> n.runs[x].phase.delivery == Result(Returned(s.row.output)))
            && (s.row.status == Error && s.row.error.Some? && |s.row.error.value| > 0 ==>
                  n.runs[x].phase.delivery == Result(Threw(s.row.error)))
            && (s.row.status == Error && (s.row.error.None? || |s.row.error.value| == 0) ==>
                  n.runs[x].phase.delivery == Result(Returned(s.row.output)))
  {
  }

  /** An execution begins by a claim of the waiting row and has no results yet; only a crash takes one away. */
  lemma ExecutionsComeAndGo(p: Program, w: Id, s: State, e: Event, x: Runner)
    requires Enabled(p, s, e)
    ensures var n := Perform(p, w, s, e);
            && (x !in s.runs ==> (x in n.runs <==> e.Begin? && e.runner == x))
            && (x in s.runs ==> (x !in n.runs <==> e.Crash? && e.runner == x))
            && (x in s.runs && (e.Begin? || e.Statement? || e.runner != x) && x in n.runs ==> n.runs[x] == s.runs[x])
            && (x !in s.runs && x in n.runs ==>
                  n.runs[x].results == [] && n.runs[x].phase == Between
                  && s.row.status == Enqueued && n.row.status == Pending && n.row.executor == e.executor)
            && (e.Begin? || e.Crash? ==> n.log == s.log && OnlyMoves(s, n, e.runner))
            && (e.Crash? ==> n.row == s.row)
            && (e.Statement? ==> n.runs == s.runs && n.log == s.log && n.row == UpdatedRow(e.action, w, s.row)
                                 && (n.row.status == Pending ==> s.row.status == Pending)
                                 && (Finished(n.row.status) ==> Finished(s.row.status)))
  {
  }

  /** No execution is stuck: it can take or end its step, come to its end, or, once the row is over, hand out what that
      says; any can crash, and a waiting row can be claimed for a new one. */
  lemma ExecutionsCanGoOn(p: Program, s: State, x: Runner)
    ensures x in s.runs ==> Enabled(p, s, Crash(x))
    ensures x in s.runs && s.runs[x].phase == Between && p(s.runs[x].results).Call? ==> Enabled(p, s, Check(x))
    ensures x in s.runs && s.runs[x].phase == Between && !p(s.runs[x].results).Call? ==>
              forall now :: Enabled(p, s, Conclude(x, now))
    ensures x in s.runs && s.runs[x].phase.Inside? ==>
              forall result, at, checks :: Enabled(p, s, Finish(x, result, at, checks))
    ensures x in s.runs && s.runs[x].phase == Parked && s.row.status in {Success, Error, Cancelled, MaxRecovery} ==>
              Enabled(p, s, Adopt(x))
    ensures x !in s.runs && s.row.status == Enqueued ==>
              forall executor, version, limited, now :: Enabled(p, s, Begin(x, executor, version, limited, None, now))
  {
  }

  // ---------------------------------------------------------------- a cancelled workflow

  ghost predicate NoResume(w: Id, events: seq<Event>) {
    forall e :: e in events && e.Statement? && e.action.Resume? ==> w !in e.action.ids
  }

  /** The steps that are in progress. */
  ghost function InProgress(s: State): map<Runner, Execution> {
    map x | x in s.runs && s.runs[x].phase.Inside? :: s.runs[x]
  }

  lemma CancelledStep(p: Program, w: Id, s: State, e: Event)
    requires s.row.status == Cancelled && Enabled(p, s, e) && NoResume(w, [e])
    ensures var n := Perform(p, w, s, e);
            && n.row.status == Cancelled && n.runs.Keys <= s.runs.Keys
            && (forall x :: x in InProgress(n) ==> x in InProgress(s) && InProgress(n)[x] == InProgress(s)[x])
            && (forall k :: k in n.log && k !in s.log ==>
                  exists x :: x in InProgress(s) && |InProgress(s)[x].results| == k)
  {
    assert e in [e];
    if e.Finish? {
      assert e.runner in InProgress(s);
    }
  }

  /** Once a workflow is cancelled, and as long as it is not resumed, no execution begins and no step begins: whatever
      is recorded afterwards is a step that was in progress then. */
  lemma {:induction false} CancelledBeginsNothing(p: Program, w: Id, s: State, events: seq<Event>)
    requires s.row.status == Cancelled && IsRun(p, w, s, events) && NoResume(w, events)
    ensures var n := After(p, w, s, events);
            && n.row.status == Cancelled && n.runs.Keys <= s.runs.Keys
            && (forall x :: x in InProgress(n) ==> x in InProgress(s) && InProgress(n)[x] == InProgress(s)[x])
            && (forall k :: k in n.log && k !in s.log ==>
                  exists x :: x in InProgress(s) && |InProgress(s)[x].results| == k)
    decreases |events|
  {
    if events != [] {
      var m := Perform(p, w, s, events[0]);
      var n := After(p, w, m, events[1..]);
      CancelledStep(p, w, s, events[0]);
      CancelledBeginsNothing(p, w, m, events[1..]);
      forall k | k in n.log && k !in s.log
        ensures exists x :: x in InProgress(s) && |InProgress(s)[x].results| == k
      {
        if k !in m.log {
          var x :| x in InProgress(m) && |InProgress(m)[x].results| == k;
          assert x in InProgress(s) && InProgress(s)[x] == InProgress(m)[x];
        }
      }
    }
  }
}
