/** Exactly-once transactions: many calls of one (workflow, step), each checking, running the user function in a
    transaction, recording its output inside that transaction or its error afterwards, and replaying a winner. */
module TransactionOnce {
  import opened Wrappers

  /** A row of transaction_completion. */
  datatype Recorded = Output(text: string) | Failure(text: string)

  datatype Answer =
    | Ran(output: string)              // this call's own committed output
    | Raised(error: string)            // this call's own recorded error
    | Replayed(recorded: Recorded)     // the stored outcome of another execution
    | NotFound                         // a conflict without a stored outcome
    | Unrecorded(error: string)        // the database itself failed outside the user transaction

  type Call = nat

  datatype Phase =
    | Checking
    | Running
    | Returned(output: string)         // user function done, insert not yet made
    | Inserted(output: string)         // insert made, commit pending: holds the key
    | Failing(error: string)           // rolled back or unsure, error to be recorded
    | Conflicted
    | Answered(answer: Answer)

  /** `effects` lists the user effects that committed; `holder` is the transaction with an uncommitted insert. */
  datatype State = State(stored: Option<Recorded>, holder: Option<Call>, effects: seq<(Call, string)>,
                         calls: map<Call, Phase>)

  datatype Event =
    | Enter(call: Call)
    | Check(call: Call)
    | Return(call: Call, output: string)
    | Abort(call: Call, retriable: bool, error: string)   // the function, the insert or the commit fails; rolled back
    | Insert(call: Call)
    | Commit(call: Call, acknowledged: bool, error: string)
    | RecordError(call: Call)
    | LoseRecord(call: Call, landed: bool, error: string) // the error insert's reply is lost, or it never arrived
    | Replay(call: Call)
    | Break(call: Call, error: string)                    // a read outside the transaction fails
    | Crash(call: Call)

  predicate InTransaction(p: Phase) {
    p.Running? || p.Returned? || p.Inserted?
  }

  predicate Enabled(s: State, e: Event) {
    if e.Enter? then e.call !in s.calls
    else
      && e.call in s.calls
      && var p := s.calls[e.call];
         match e
         case Check(_) => p.Checking?
         case Return(_, _) => p.Running?
         case Abort(_, _, _) => InTransaction(p)
         case Insert(_) => p.Returned? && s.holder.None?      // an uncommitted rival insert blocks this one
         case Commit(_, _, _) => p.Inserted?
         case RecordError(_) => p.Failing? && s.holder.None?
         case LoseRecord(_, landed, _) => p.Failing? && (landed ==> s.holder.None?)
         case Replay(_) => p.Conflicted?
         case Break(_, _) => p.Checking? || p.Conflicted?
         case _ => true
  }

  function Go(s: State, c: Call, p: Phase): State {
    s.(calls := s.calls[c := p])
  }

  function Released(s: State, c: Call): State {
    if s.holder == Some(c) then s.(holder := None) else s
  }

  function Perform(s: State, e: Event): State
    requires Enabled(s, e)
  {
    var c := e.call;
    match e
    case Enter(_) => Go(s, c, Checking)
    case Check(_) => Go(s, c, if s.stored.Some? then Answered(Replayed(s.stored.value)) else Running)
    case Return(_, output) => Go(s, c, Returned(output))
    case Abort(_, retriable, error) => Go(Released(s, c), c, if retriable then Checking else Failing(error))
    case Insert(_) =>
      if s.stored.Some? then Go(s, c, Conflicted)
      else Go(s.(holder := Some(c)), c, Inserted(s.calls[c].output))
    case Commit(_, acknowledged, error) =>
      var output := s.calls[c].output;
      Go(s.(holder := None, stored := Some(Output(output)), effects := s.effects + [(c, output)]), c,
         if acknowledged then Answered(Ran(output)) else Failing(error))
    case RecordError(_) =>
      if s.stored.Some? then Go(s, c, Conflicted)
      else Go(s.(stored := Some(Failure(s.calls[c].error))), c, Answered(Raised(s.calls[c].error)))
    case LoseRecord(_, landed, error) =>
      Go(if landed && s.stored.None? then s.(stored := Some(Failure(s.calls[c].error))) else s, c,
         Answered(Unrecorded(error)))
    case Replay(_) => Go(s, c, Answered(if s.stored.Some? then Replayed(s.stored.value) else NotFound))
    case Break(_, error) => Go(s, c, Answered(Unrecorded(error)))
    case Crash(_) => var r := Released(s, c); r.(calls := r.calls - {c})
  }

  // ---------------------------------------------------------------- the invariant

  predicate Delivers(stored: Option<Recorded>, a: Answer) {
    match a
    case Ran(output) => stored == Some(Output(output))
    case Raised(error) => stored == Some(Failure(error))
    case Replayed(recorded) => stored == Some(recorded)
    case NotFound => false
    case Unrecorded(_) => true
  }

  /** The committed effects are one exactly when an output is stored, and it is that output's. */
  predicate EffectMatches(s: State) {
    if s.stored.Some? && s.stored.value.Output?
    then |s.effects| == 1 && s.effects[0].1 == s.stored.value.text
    else s.effects == []
  }

  ghost predicate ExactlyOnce(s: State) {
    && EffectMatches(s)
    && (forall c :: c in s.calls && s.calls[c].Inserted? <==> s.holder == Some(c))
    && (s.holder.Some? ==> s.stored.None?)
    && (forall c :: c in s.calls && s.calls[c].Conflicted? ==> s.stored.Some?)
    && (forall c :: c in s.calls && s.calls[c].Answered? ==> Delivers(s.stored, s.calls[c].answer))
  }

  lemma StepKeepsOnce(s: State, e: Event)
    requires ExactlyOnce(s) && Enabled(s, e)
    ensures ExactlyOnce(Perform(s, e))
    ensures s.stored.Some? ==> Perform(s, e).stored == s.stored && Perform(s, e).effects == s.effects
  {
    var c := e.call;
    if c in s.calls {
      assert s.calls[c].Inserted? <==> s.holder == Some(c);
    }
  }

  ghost predicate IsRun(s: State, events: seq<Event>)
    decreases |events|
  {
    events != [] ==> Enabled(s, events[0]) && IsRun(Perform(s, events[0]), events[1..])
  }

  ghost function After(s: State, events: seq<Event>): State
    requires IsRun(s, events)
    decreases |events|
  {
    if events == [] then s else After(Perform(s, events[0]), events[1..])
  }

  lemma {:induction false} RunKeepsOnce(s: State, events: seq<Event>)
    requires ExactlyOnce(s) && IsRun(s, events)
    ensures ExactlyOnce(After(s, events))
    ensures s.stored.Some? ==> After(s, events).stored == s.stored && After(s, events).effects == s.effects
    decreases |events|
  {
    if events != [] {
      StepKeepsOnce(s, events[0]);
      RunKeepsOnce(Perform(s, events[0]), events[1..]);
    }
  }

  const INITIAL := State(None, None, [], map[])

  /** Over any interleaving of calls, retries, failures, lost acknowledgements and crashes: the effect commits at most
      once, it commits exactly when an output is stored, and every call that answers delivers the stored outcome. */
  lemma TransactionHappensOnce(events: seq<Event>)
    requires IsRun(INITIAL, events)
    ensures var s := After(INITIAL, events);
            && |s.effects| <= 1
            && (|s.effects| == 1 <==> s.stored.Some? && s.stored.value.Output?)
            && (|s.effects| == 1 ==> s.effects[0].1 == s.stored.value.text)
            && (forall c :: c in s.calls && s.calls[c].Answered? ==> Delivers(s.stored, s.calls[c].answer))
  {
    RunKeepsOnce(INITIAL, events);
  }

  /** Whatever happens after an outcome is stored, it stays, and no further effect commits. */
  lemma StoredOutcomeIsFinal(before: seq<Event>, later: seq<Event>)
    requires IsRun(INITIAL, before) && IsRun(After(INITIAL, before), later)
    requires After(INITIAL, before).stored.Some?
    ensures var s := After(INITIAL, before);
            After(s, later).stored == s.stored && After(s, later).effects == s.effects
  {
    RunKeepsOnce(INITIAL, before);
    RunKeepsOnce(After(INITIAL, before), later);
  }

  // ---------------------------------------------------------------- what one call does

  /** The next phase of a call, whatever event comes: it checks before it runs, inserts before it commits, and records
      an error only once its own transaction is gone. */
  lemma CallsMoveInOrder(s: State, e: Event, c: Call)
    requires Enabled(s, e)
    ensures var n := Perform(s, e);
            && (c !in s.calls ==> (c in n.calls <==> e.Enter? && e.call == c))
            && (c !in s.calls && c in n.calls ==> n.calls[c] == Checking)
            && (c in s.calls ==> (c !in n.calls <==> e.Crash? && e.call == c))
            && (c in s.calls && c in n.calls && (e.call != c || e.Enter?) ==> n.calls[c] == s.calls[c])
            && (c in s.calls && c in n.calls && e.call == c && !e.Enter? ==> MovesOn(s, e, s.calls[c], n.calls[c]))
  {
  }

  /** What an event does to the database: an outcome is stored by the commit of an insert or by the record of an error,
      lost reply or not, an effect goes in with its output only, and the key is held from insert to commit. */
  lemma TablesMoveExactly(s: State, e: Event)
    requires ExactlyOnce(s) && Enabled(s, e)
    ensures var n := Perform(s, e);
            var c := e.call;
            && (e.Commit? ==>
                  && s.calls[c].Inserted? && n.stored == Some(Output(s.calls[c].output)) && n.holder.None?
                  && n.effects == s.effects + [(c, s.calls[c].output)])
            && (!e.Commit? ==> n.effects == s.effects)
            && (e.RecordError? || (e.LoseRecord? && e.landed) ==>
                  s.calls[c].Failing?
                  && n.stored == if s.stored.Some? then s.stored else Some(Failure(s.calls[c].error)))
            && (!e.Commit? && !e.RecordError? && !(e.LoseRecord? && e.landed) ==> n.stored == s.stored)
            && (e.Insert? && s.stored.None? ==> n.holder == Some(c))
            && ((e.Abort? || e.Crash?) && s.holder == Some(c) ==> n.holder.None?)
            && (!e.Commit? && !(e.Insert? && s.stored.None?) && !((e.Abort? || e.Crash?) && s.holder == Some(c)) ==>
                  n.holder == s.holder)
  {
  }

  /** No call is stuck but one that waits for a rival's uncommitted insert, and that rival can commit. */
  lemma CallsCanGoOn(s: State, c: Call)
    requires c in s.calls
    ensures Enabled(s, Crash(c))
    ensures s.calls[c].Checking? ==> Enabled(s, Check(c))
    ensures s.calls[c].Running? ==> forall output :: Enabled(s, Return(c, output))
    ensures s.calls[c].Returned? && s.holder.None? ==> Enabled(s, Insert(c))
    ensures s.calls[c].Inserted? ==> forall heard, error :: Enabled(s, Commit(c, heard, error))
    ensures s.calls[c].Failing? && s.holder.None? ==> Enabled(s, RecordError(c))
    ensures s.calls[c].Conflicted? ==> Enabled(s, Replay(c))
    ensures s.calls[c].Running? || s.calls[c].Returned? || s.calls[c].Inserted? ==>
              forall retriable, error :: Enabled(s, Abort(c, retriable, error))
    ensures s.calls[c].Checking? || s.calls[c].Conflicted? ==> forall error :: Enabled(s, Break(c, error))
    ensures s.calls[c].Failing? ==> forall error :: Enabled(s, LoseRecord(c, false, error))
    ensures s.calls[c].Failing? && s.holder.None? ==> forall error :: Enabled(s, LoseRecord(c, true, error))
    ensures ExactlyOnce(s) && s.holder.Some? ==>
              s.holder.value in s.calls && forall heard, error :: Enabled(s, Commit(s.holder.value, heard, error))
  {
  }

  predicate MovesOn(s: State, e: Event, p: Phase, q: Phase) {
    match p
    case Checking =>
      if e.Break? then q == Answered(Unrecorded(e.error))
      else e.Check? && if s.stored.None? then q == Running else q == Answered(Replayed(s.stored.value))
    case Running => if e.Return? then q == Returned(e.output) else e.Abort? && RolledBack(e, q)
    case Returned(output) =>
      if e.Insert? then s.holder.None? && if s.stored.None? then q == Inserted(output) else q == Conflicted
      else e.Abort? && RolledBack(e, q)
    case Inserted(output) =>
      if e.Commit? then if e.acknowledged then q == Answered(Ran(output)) else q == Failing(e.error)
      else e.Abort? && RolledBack(e, q)
    case Failing(error) =>
      if e.LoseRecord? then q == Answered(Unrecorded(e.error)) && (e.landed ==> s.holder.None?)
      else e.RecordError? && s.holder.None?
           && if s.stored.None? then q == Answered(Raised(error)) else q == Conflicted
    case Conflicted =>
      if e.Break? then q == Answered(Unrecorded(e.error))
      else e.Replay? && if s.stored.None? then q == Answered(NotFound) else q == Answered(Replayed(s.stored.value))
    case Answered(_) => false
  }

  /** A retriable failure goes back to the check, any other is to be recorded. */
  predicate RolledBack(e: Event, q: Phase)
    requires e.Abort?
  {
    if e.retriable then q == Checking else q == Failing(e.error)
  }

  ghost predicate IsInTransaction(s: State, c: Call) {
    c in s.calls && (s.calls[c].Running? || s.calls[c].Returned? || s.calls[c].Inserted?)
  }

  /** Once an outcome is stored the user function is not run again: a call in a transaction was in it before. */
  lemma {:induction false} StoredIsNotRunAgain(s: State, events: seq<Event>, c: Call)
    requires ExactlyOnce(s) && s.stored.Some? && IsRun(s, events)
    ensures IsInTransaction(After(s, events), c) ==> IsInTransaction(s, c)
    decreases |events|
  {
    if events != [] {
      StepKeepsOnce(s, events[0]);
      StoredIsNotRunAgain(Perform(s, events[0]), events[1..], c);
    }
  }

  lemma RunOn(s: State, e: Event, rest: seq<Event>)
    requires Enabled(s, e) && IsRun(Perform(s, e), rest)
    ensures IsRun(s, [e] + rest) && After(s, [e] + rest) == After(Perform(s, e), rest)
  {
    assert ([e] + rest)[1..] == rest;
  }

  /** The state with the call's transaction inserted and about to commit. */
  lemma ReachesInsert(s: State, c: Call, output: string)
    requires c !in s.calls && s.stored.None? && s.holder.None?
    ensures var events := [Enter(c), Check(c), Return(c, output), Insert(c)];
            && IsRun(s, events)
            && After(s, events) == s.(holder := Some(c), calls := s.calls[c := Inserted(output)])
  {
    var s1 := Perform(s, Enter(c));
    var s2 := Perform(s1, Check(c));
    var s3 := Perform(s2, Return(c, output));
    RunOn(s3, Insert(c), []);
    RunOn(s2, Return(c, output), [Insert(c)]);
    RunOn(s1, Check(c), [Return(c, output)] + [Insert(c)]);
    RunOn(s, Enter(c), [Check(c)] + ([Return(c, output)] + [Insert(c)]));
    assert [Enter(c)] + ([Check(c)] + ([Return(c, output)] + [Insert(c)])) ==
           [Enter(c), Check(c), Return(c, output), Insert(c)];
    assert Perform(s3, Insert(c)).calls == s.calls[c := Inserted(output)];
  }

  /** A call that nothing disturbs runs the function once, commits its effect with its output, and answers that. */
  lemma UndisturbedCommits(s: State, c: Call, output: string)
    requires c !in s.calls && s.stored.None? && s.holder.None?
    ensures var inserting := [Enter(c), Check(c), Return(c, output), Insert(c)];
            var commit := [Commit(c, true, "")];
            && IsRun(s, inserting) && IsRun(After(s, inserting), commit)
            && var n := After(After(s, inserting), commit);
               && n.stored == Some(Output(output)) && n.effects == s.effects + [(c, output)] && n.holder.None?
               && c in n.calls && n.calls[c] == Answered(Ran(output))
  {
    ReachesInsert(s, c, output);
    var n := After(s, [Enter(c), Check(c), Return(c, output), Insert(c)]);
    RunOn(n, Commit(c, true, ""), []);
  }

  /** A commit whose acknowledgement is lost is not taken for a failure: the call answers with its own committed output
      after all, and the error it saw is not recorded. */
  lemma UnheardCommitIsReplayed(s: State, c: Call, output: string, error: string)
    requires c !in s.calls && s.stored.None? && s.holder.None?
    ensures var inserting := [Enter(c), Check(c), Return(c, output), Insert(c)];
            var losing := [Commit(c, false, error), RecordError(c), Replay(c)];
            && IsRun(s, inserting) && IsRun(After(s, inserting), losing)
            && var n := After(After(s, inserting), losing);
               && n.stored == Some(Output(output)) && n.effects == s.effects + [(c, output)]
               && c in n.calls && n.calls[c] == Answered(Replayed(Output(output)))
  {
    ReachesInsert(s, c, output);
    var n := After(s, [Enter(c), Check(c), Return(c, output), Insert(c)]);
    var n1 := Perform(n, Commit(c, false, error));
    var n2 := Perform(n1, RecordError(c));
    RunOn(n2, Replay(c), []);
    RunOn(n1, RecordError(c), [Replay(c)]);
    RunOn(n, Commit(c, false, error), [RecordError(c)] + [Replay(c)]);
    assert [Commit(c, false, error)] + ([RecordError(c)] + [Replay(c)]) ==
           [Commit(c, false, error), RecordError(c), Replay(c)];
  }

  // ---------------------------------------------------------------- one call, as the retry loop runs it

  /** How the attempt that is not retried ends. */
  datatype Ending = Commits(output: string) | CommitsUnheard(output: string, error: string) | Fails(error: string)

  /** The completion row and user data of one (workflow, step). */
  class TransactionCompletion {
    var stored: Option<Recorded>
    var effects: seq<string>

    constructor ()
      ensures stored == None && effects == [] && Consistent()
    {
      stored, effects := None, [];
    }

    predicate Consistent()
      reads this
    {
      effects == if stored.Some? && stored.value.Output? then [stored.value.text] else []
    }

    method CheckExecution() returns (recorded: Option<Recorded>)
      ensures recorded == stored
    {
      recorded := stored;
    }

    /** User function, insert and commit in one transaction; an insert that finds a row rolls everything back. */
    method Transaction(output: string) returns (alreadyRecorded: bool)
      modifies this
      ensures alreadyRecorded == old(stored.Some?)
      ensures if alreadyRecorded then stored == old(stored) && effects == old(effects)
              else stored == Some(Output(output)) && effects == old(effects) + [output]
    {
      alreadyRecorded := stored.Some?;
      if !alreadyRecorded {
        stored, effects := Some(Output(output)), effects + [output];
      }
    }

    method RecordErrorRow(error: string) returns (alreadyRecorded: bool)
      modifies this
      ensures alreadyRecorded == old(stored.Some?) && effects == old(effects)
      ensures stored == if alreadyRecorded then old(stored) else Some(Failure(error))
    {
      alreadyRecorded := stored.Some?;
      if !alreadyRecorded {
        stored := Some(Failure(error));
      }
    }

    /** The loop: `retriable` attempts fail with serialization errors, then one ends for good; `rival`, if any, is an
        error another execution manages to record while the transaction of the given attempt is open. */
    method InvokeTransactionFunction(retriable: nat, ending: Ending, rival: Option<(nat, string)>)
      returns (answer: Answer, waits: seq<real>)
      requires Consistent()
      modifies this
      ensures Consistent() && Delivers(stored, answer)
      ensures old(stored).Some? ==> stored == old(stored) && answer == Replayed(old(stored).value) && waits == []
      ensures old(stored).None? && rival.Some? && rival.value.0 <= retriable ==>
                stored == Some(Failure(rival.value.1)) && answer == Replayed(stored.value)
      ensures old(stored).None? && (rival.None? || rival.value.0 > retriable) ==>
                && stored == Some(if ending.Fails? then Failure(ending.error) else Output(ending.output))
                && answer == (match ending
                              case Commits(output) => Ran(output)
                              case CommitsUnheard(output, _) => Replayed(Output(output))
                              case Fails(error) => Raised(error))
                && |waits| == retriable
      ensures Backoff(waits)
    {
      var retryWait := 1.0;
      waits := [];
      var previous := CheckExecution();
      if previous.Some? {
        return Replayed(previous.value), waits;
      }
      while |waits| < retriable
        invariant |waits| <= retriable && stored == None && old(stored) == None && effects == old(effects)
        invariant rival.None? || rival.value.0 >= |waits|
        invariant Backoff(waits) && Backoff(waits + [retryWait])
      {
        if rival.Some? && rival.value.0 == |waits| {
          var _ := RecordErrorRow(rival.value.1);
        }
        BackoffGrows(waits, retryWait);
        waits := waits + [retryWait];
        retryWait := NextWait(retryWait);
        previous := CheckExecution();
        if previous.Some? {
          return Replayed(previous.value), waits;
        }
      }
      if rival.Some? && rival.value.0 == |waits| {
        var _ := RecordErrorRow(rival.value.1);
      }
      var conflict := false;
      match ending {
        case Commits(output) =>
          conflict := Transaction(output);
          if !conflict { return Ran(output), waits; }
        case CommitsUnheard(output, error) =>
          conflict := Transaction(output);
          if !conflict { conflict := RecordErrorRow(error); }
        case Fails(error) =>
          conflict := RecordErrorRow(error);
          if !conflict { return Raised(error), waits; }
      }
      var winner := CheckExecution();
      return if winner.Some? then Replayed(winner.value) else NotFound, waits;
    }
  }

  const BACKOFF_FACTOR := 1.5
  const MAX_RETRY_WAIT_MS := 2000.0

  function NextWait(wait: real): real {
    if wait * BACKOFF_FACTOR < MAX_RETRY_WAIT_MS then wait * BACKOFF_FACTOR else MAX_RETRY_WAIT_MS
  }

  /** Half as long again, up to two seconds. */
  predicate Grows(wait: real, next: real) {
    if wait * 3.0 < 4000.0 then next * 2.0 == wait * 3.0 else next == 2000.0
  }

  /** Waits start at one millisecond, grow by the factor, and never pass the cap. */
  ghost predicate Backoff(waits: seq<real>) {
    && (waits != [] ==> waits[0] == 1.0)
    && (forall i :: 0 <= i < |waits| ==> 1.0 <= waits[i] <= 2000.0)
    && (forall i, j :: 0 <= i && j == i + 1 && j < |waits| ==> Grows(waits[i], waits[j]))
  }

  lemma BackoffGrows(waits: seq<real>, next: real)
    requires Backoff(waits + [next])
    ensures Backoff(waits) && Backoff(waits + [next] + [NextWait(next)])
  {
    var all := waits + [next];
    assert forall i :: 0 <= i < |waits| ==> waits[i] == all[i];
    assert all[|waits|] == next;
  }
}
