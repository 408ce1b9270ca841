/** One step call: check the checkpoint, run the body under its retry policy, record what came out. */
module StepCalls {
  import opened Wrappers
  import opened StepReplay

  /** The retry predicate's verdict on a failed attempt. */
  datatype Verdict = Retry | Stop | PredicateFailed(error: string)

  datatype Attempt = Succeeds(output: string) | Fails(error: string, verdict: Verdict)

  datatype StepError = Plain(error: string) | MaxRetries(errors: seq<string>)

  datatype CallResult =
    | Value(output: string)
    | Threw(error: StepError)
    | Replayed(result: StepResult)
    | Conflict
    | Cancelled
    | UnexpectedStep

  /** What the attempts amount to, before anything is recorded. */
  datatype BodyResult = Done(output: string) | GaveUp(error: StepError) | Interrupted

  /** How one call of the step body behaves from outside: attempt numbers start at 1. */
  datatype Body = Body(attempt: nat -> Attempt, cancelledBefore: nat -> bool, retries: bool, maxAttempts: nat)

  predicate TriesAgain(b: Body, k: nat) {
    !b.cancelledBefore(k) && b.attempt(k).Fails? && b.attempt(k).verdict == Retry
  }

  function ErrorsUpTo(b: Body, n: nat): seq<string>
    requires forall k: nat :: 1 <= k <= n ==> TriesAgain(b, k)
  {
    seq(n, i requires 0 <= i < n && TriesAgain(b, i + 1) => b.attempt(i + 1).error)
  }

  /** Attempt `k` is reached, and settles the call. */
  ghost predicate Settles(b: Body, k: nat) {
    1 <= k <= b.maxAttempts && !TriesAgain(b, k) && forall j: nat :: 1 <= j < k ==> TriesAgain(b, j)
  }

  function Settlement(b: Body, k: nat): BodyResult
    requires !TriesAgain(b, k)
  {
    if b.cancelledBefore(k) then Interrupted
    else match b.attempt(k)
      case Succeeds(output) => Done(output)
      case Fails(error, Stop) => GaveUp(Plain(error))
      case Fails(_, PredicateFailed(error)) => GaveUp(Plain(error))
  }

  /** A retried call ends as its first settling attempt does; if none settles, with every error in order. */
  ghost predicate IsOutcome(b: Body, r: BodyResult) {
    if !b.retries then
      r == match b.attempt(0) { case Succeeds(output) => Done(output) case Fails(error, _) => GaveUp(Plain(error)) }
    else
      && (forall k: nat :: Settles(b, k) ==> r == Settlement(b, k))
      && ((forall k: nat :: 1 <= k <= b.maxAttempts ==> TriesAgain(b, k)) ==>
            r == GaveUp(MaxRetries(ErrorsUpTo(b, b.maxAttempts))))
  }

  /** The outcome is determined: two results of the same attempts are the same. */
  lemma {:induction false} OutcomeIsUnique(b: Body, r: BodyResult, q: BodyResult)
    requires IsOutcome(b, r) && IsOutcome(b, q)
    ensures r == q
  {
    if b.retries && !(forall k: nat :: 1 <= k <= b.maxAttempts ==> TriesAgain(b, k)) {
      var k: nat :| 1 <= k <= b.maxAttempts && !TriesAgain(b, k);
      FirstSettles(b, k);
      var first: nat :| Settles(b, first);
    }
  }

  /** The attempts before `k` ran and failed, and the policy asked for another each time. */
  predicate AllTriedAgain(b: Body, k: nat) {
    forall j: nat :: 1 <= j < k ==>
      b.attempt(j).Fails? && b.attempt(j).verdict == Retry && !b.cancelledBefore(j)
  }

  /** Attempt `k` is the one that counts: within the limit, and those before it all led to another. */
  predicate Reached(b: Body, k: nat) {
    1 <= k <= b.maxAttempts && AllTriedAgain(b, k)
  }

  lemma EachTriedAgain(b: Body, k: nat)
    requires forall j: nat :: 1 <= j < k ==> TriesAgain(b, j)
    ensures AllTriedAgain(b, k)
  {
    forall j: nat | 1 <= j < k
      ensures b.attempt(j).Fails? && b.attempt(j).verdict == Retry && !b.cancelledBefore(j)
    {
      assert TriesAgain(b, j);
    }
  }

  /** What a call ends with: without retries as its one attempt does, and else, attempt by attempt, the output of the
      first that succeeds, the error of the first that may not be repeated or that the predicate itself throws, an
      interruption at the first that meets a cancellation, and else all the errors. */
  lemma {:induction false} OutcomeIsExact(b: Body, r: BodyResult)
    requires IsOutcome(b, r)
    ensures !b.retries ==>
              match b.attempt(0)
              case Succeeds(output) => r == Done(output)
              case Fails(error, _) => r == GaveUp(Plain(error))
    ensures b.retries ==>
            match r
            case Done(output) =>
              exists k: nat :: Reached(b, k) && !b.cancelledBefore(k) && b.attempt(k) == Succeeds(output)
            case Interrupted => exists k: nat :: Reached(b, k) && b.cancelledBefore(k)
            case GaveUp(Plain(error)) =>
              exists k: nat :: Reached(b, k) && !b.cancelledBefore(k) && b.attempt(k).Fails?
                && b.attempt(k).verdict != Retry
                && error == if b.attempt(k).verdict.PredicateFailed? then b.attempt(k).verdict.error
                            else b.attempt(k).error
            case GaveUp(MaxRetries(errors)) =>
              AllTriedAgain(b, b.maxAttempts + 1) && |errors| == b.maxAttempts
              && forall i :: 0 <= i < |errors| ==> errors[i] == b.attempt(i + 1).error
  {
    if !b.retries {
    } else if k: nat :| 1 <= k <= b.maxAttempts && !TriesAgain(b, k) {
      FirstSettles(b, k);
      var first: nat :| Settles(b, first);
      EachTriedAgain(b, first);
      assert Reached(b, first) && r == Settlement(b, first);
    } else {
      EachTriedAgain(b, b.maxAttempts + 1);
    }
  }

  lemma {:induction false} FirstSettles(b: Body, k: nat)
    requires 1 <= k <= b.maxAttempts && !TriesAgain(b, k)
    ensures exists first: nat :: Settles(b, first)
    decreases k
  {
    if forall j: nat :: 1 <= j < k ==> TriesAgain(b, j) {
      assert Settles(b, k);
    } else {
      var j: nat :| 1 <= j < k && !TriesAgain(b, j);
      FirstSettles(b, j);
    }
  }

  method RunBody(b: Body) returns (r: BodyResult)
    ensures IsOutcome(b, r)
  {
    if !b.retries {
      match b.attempt(0)
      case Succeeds(output) => return Done(output);
      case Fails(error, _) => return GaveUp(Plain(error));
    }
    var errors: seq<string> := [];
    var attemptNum := 0;
    while attemptNum < b.maxAttempts
      invariant 0 <= attemptNum <= b.maxAttempts
      invariant forall k: nat :: 1 <= k <= attemptNum ==> TriesAgain(b, k)
      invariant errors == ErrorsUpTo(b, attemptNum)
    {
      attemptNum := attemptNum + 1;
      if b.cancelledBefore(attemptNum) {
        assert Settles(b, attemptNum);
        return Interrupted;
      }
      match b.attempt(attemptNum)
      case Succeeds(output) =>
        assert Settles(b, attemptNum);
        return Done(output);
      case Fails(error, Stop) =>
        assert Settles(b, attemptNum);
        return GaveUp(Plain(error));
      case Fails(_, PredicateFailed(error)) =>
        assert Settles(b, attemptNum);
        return GaveUp(Plain(error));
      case Fails(error, Retry) =>
        errors := errors + [error];
    }
    return GaveUp(MaxRetries(errors));
  }

  /** The step log of one workflow. */
  class Checkpoints {
    var log: Log

    constructor ()
      ensures log == map[]
    {
      log := map[];
    }

    /** Insert, or keep the entry that is there and report the conflict. */
    method RecordOperationResult(n: nat, entry: Entry, checkConflict: bool) returns (conflict: bool)
      modifies this
      ensures log == Inserted(old(log), n, entry)
      ensures conflict <==> checkConflict && log[n].endTime != entry.endTime
    {
      if n !in log {
        log := log[n := entry];
      }
      conflict := checkConflict && log[n].endTime != entry.endTime;
    }

    /** `rival` is what another execution may record while this one's body runs. */
    method CallStepFunction(n: nat, name: string, cancelled: bool, body: Body, rival: Option<Entry>, endTime: int,
                            render: StepError -> string)
      returns (r: CallResult)
      modifies this
      ensures cancelled ==> r == Cancelled && log == old(log)
      ensures !cancelled && n in old(log) ==>
                log == old(log) && r == if old(log)[n].name == name then Replayed(log[n].result) else UnexpectedStep
      ensures !cancelled && n !in old(log) ==>
                exists b :: IsOutcome(body, b) && Recorded(old(log), log, n, name, b, rival, endTime, render, r)
    {
      if cancelled { return Cancelled; }
      if n in log {
        return if log[n].name == name then Replayed(log[n].result) else UnexpectedStep;
      }
      ghost var before := log;
      var b := RunBody(body);
      if rival.Some? {
        log := Inserted(log, n, rival.value);
      }
      match b
      case Interrupted => r := Cancelled;
      case Done(output) =>
        var conflict := RecordOperationResult(n, Entry(name, Output(output), endTime), true);
        r := if conflict then Conflict else Value(output);
      case GaveUp(error) =>
        var conflict := RecordOperationResult(n, Entry(name, Failure(render(error)), endTime), true);
        r := if conflict then Conflict else Threw(error);
      assert Recorded(before, log, n, name, b, rival, endTime, render, r);
    }
  }

  function EntryOf(name: string, b: BodyResult, endTime: int, render: StepError -> string): Option<Entry> {
    match b
    case Done(output) => Some(Entry(name, Output(output), endTime))
    case GaveUp(error) => Some(Entry(name, Failure(render(error)), endTime))
    case Interrupted => None
  }

  /** The first entry stands; the call returns its own result unless it can tell that it lost the race. */
  ghost predicate Recorded(before: Log, after: Log, n: nat, name: string, b: BodyResult, rival: Option<Entry>,
                           endTime: int, render: StepError -> string, r: CallResult) {
    var mine := EntryOf(name, b, endTime, render);
    var winner := if rival.Some? then rival else mine;
    && after == (if winner.Some? then before[n := winner.value] else before)
    && r == (if b.Interrupted? then Cancelled
             else if winner.value.endTime != endTime then Conflict
             else if b.Done? then Value(b.output) else Threw(b.error))
  }

  /** A call refines one checked step of the replay machine: what it returns and stores is what that step delivers. */
  lemma CallRefinesStep(before: Log, after: Log, run: Execution, name: string, b: BodyResult, endTime: int,
                        render: StepError -> string, r: CallResult)
    requires |run.results| !in before && run.phase == Inside(name) && !b.Interrupted?
    requires Recorded(before, after, |run.results|, name, b, None, endTime, render, r)
    ensures var entry := EntryOf(name, b, endTime, render).value;
            && after == Inserted(before, |run.results|, entry) && entry.name == name && entry.endTime == endTime
            && (r.Value? || r.Threw?)
            && FinishStep(before, run, entry, true) == Next(run, entry.result)
            && (r.Value? ==> entry.result == Output(r.output))
            && (r.Threw? ==> entry.result == Failure(render(r.error)))
  {
  }

  /** With a rival's entry in the slot the step parks, and the rival's entry is the one kept. */
  lemma LostCallRefinesStep(before: Log, after: Log, run: Execution, name: string, b: BodyResult, rival: Entry,
                            endTime: int, render: StepError -> string, r: CallResult)
    requires |run.results| !in before && run.phase == Inside(name) && !b.Interrupted? && rival.endTime != endTime
    requires Recorded(before, after, |run.results|, name, b, Some(rival), endTime, render, r)
    ensures r == Conflict && after[|run.results|] == rival
    ensures var entry := EntryOf(name, b, endTime, render).value;
            FinishStep(Inserted(before, |run.results|, rival), run, entry, true).phase == Parked
  {
  }
}
