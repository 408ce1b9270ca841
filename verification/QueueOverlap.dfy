/** Dequeues that overlap. Without a partition key, or without a queue-wide budget, the dequeue is a REPEATABLE READ
    transaction: it counts and selects on its snapshot, and fails if a row it claims was written since. */
module QueueOverlap {
  import opened Wrappers
  import opened WorkflowRows
  import opened QueueLimits

  /** A queue on which dequeues count; on any other they lock what they can and count nothing. */
  predicate SharesBudget(limits: Limits) {
    limits.globalConcurrency.Some? || limits.partitionConcurrency.Some? || RateLimited(limits)
  }

  /** A budget shared across partitions makes the dequeue of one partition SERIALIZABLE. */
  predicate WriteSkew(limits: Limits, c: Caller) {
    c.key.Some? && (limits.globalConcurrency.Some? || limits.rateLimit.Some?)
  }

  /** The dequeues that are REPEATABLE READ, a queue limited per partition being dequeued per partition. */
  predicate Counting(limits: Limits, c: Caller) {
    && SharesBudget(limits) && !WriteSkew(limits, c)
    && (limits.partitionConcurrency.Some? || limits.partitionRateLimit.Some? ==> c.key.Some?)
  }

  /** An open dequeue: `written` are the rows written since its snapshot, `rivals` those claimed since by dequeues whose
      claims it may count. */
  datatype Tx = Tx(caller: Caller, snapshot: Table, written: set<Id>, rivals: set<Id>)

  datatype State = State(table: Table, open: map<nat, Tx>, clock: int)

  datatype Event =
    | Begin(tx: nat, caller: Caller)
    | Commit(tx: nat, claimed: seq<Id>)
    | Rollback(tx: nat)
    | Other(action: Action)

  /** What one claims the other may count. */
  predicate Interferes(c: Caller, d: Caller) {
    && c.queue == d.queue
    && (c.key.None? || d.key.None? || c.key == d.key)
    && (c.app.None? || d.app.None? || c.app == d.app)
  }

  function Changed(t: Table, u: Table): set<Id> {
    set id | id in u && (id !in t || u[id] != t[id])
  }

  function Wrote(x: Tx, t: Table, u: Table): Tx {
    x.(written := x.written + Changed(t, u))
  }

  function Overtake(x: Tx, c: Caller, claimed: seq<Id>): Tx {
    if Interferes(x.caller, c) then x.(rivals := x.rivals + Ids(claimed)) else x
  }

  function Later(a: int, b: int): int {
    if a < b then b else a
  }

  /** A claim outside the queues that share budgets. */
  ghost predicate Uncounted(t: Table, config: string -> Limits, a: Action) {
    forall id :: id in t && UpdatedRow(a, id, t[id]) != t[id] ==>
      t[id].queue.Some? && !SharesBudget(config(t[id].queue.value))
  }

  /** What the database lets happen. The row locks only abort more. */
  ghost predicate Enabled(s: State, config: string -> Limits, e: Event) {
    match e
    case Begin(n, c) =>
      n !in s.open && Counting(config(c.queue), c)
    case Commit(n, claimed) =>
      && n in s.open
      && var x := s.open[n];
         && IsSelection(x.snapshot, x.caller, Allowance(x.snapshot, config(x.caller.queue), x.caller), claimed)
         && (forall id :: id in claimed ==> id !in x.written)
    case Rollback(n) => n in s.open
    case Other(a) => a.Claim? ==> Uncounted(s.table, config, a)
  }

  ghost function Perform(s: State, config: string -> Limits, e: Event): State
    requires Enabled(s, config, e)
  {
    match e
    case Begin(n, c) => s.(open := s.open[n := Tx(c, s.table, {}, {})])
    case Commit(n, claimed) =>
      var c := s.open[n].caller;
      var u := Apply(s.table, ClaimOf(c, config(c.queue), claimed));
      State(u, map m | m in s.open && m != n :: Overtake(Wrote(s.open[m], s.table, u), c, claimed),
            Later(s.clock, c.now))
    case Rollback(n) => s.(open := s.open - {n})
    case Other(a) =>
      var u := Apply(s.table, a);
      s.(table := u, open := map m | m in s.open :: Wrote(s.open[m], s.table, u))
  }

  // ---------------------------------------------------------------- dequeuers that see the same rows

  /** The first startable row, tied with no other. */
  ghost predicate Head(t: Table, c: Caller, h: Id) {
    h in EligibleIds(t, c) && forall id :: id in EligibleIds(t, c) && id != h ==> Before(t[h], t[id])
  }

  ghost predicate SameRows(c: Caller, d: Caller) {
    forall r: Row :: Eligible(c, r) <==> Eligible(d, r)
  }

  ghost predicate NoTies(t: Table, c: Caller) {
    EligibleIds(t, c) != {} ==> exists h :: Head(t, c, h)
  }

  /** The first row an open dequeue saw was tied with no other, and still leads unless it was written since. */
  ghost predicate StillLeads(t: Table, x: Tx) {
    NoTies(x.snapshot, x.caller) &&
    forall h :: Head(x.snapshot, x.caller, h) ==> h in x.written || Head(t, x.caller, h)
  }

  /** Dequeues that count one another's claims see the same rows, and nothing gets ahead of their first rows. */
  ghost predicate InStep(t: Table, x: Tx, y: Tx) {
    Interferes(x.caller, y.caller) ==> SameRows(x.caller, y.caller) && StillLeads(t, x) && StillLeads(t, y)
  }

  ghost predicate AllInStep(s: State) {
    forall n, m :: n in s.open && m in s.open && n != m ==> InStep(s.table, s.open[n], s.open[m])
  }

  /** The assumptions: a dequeue begins, and other statements happen, so that any two open dequeues are in step. */
  ghost predicate Orderly(s: State, config: string -> Limits, nameless: bool, e: Event)
    requires Enabled(s, config, e)
  {
    match e
    case Commit(n, claimed) =>
      var c := s.open[n].caller;
      nameless && claimed != [] ==> SeesAll(s.table, config(c.queue), c)
    case Rollback(_) => true
    case _ => AllInStep(Perform(s, config, e))
  }

  /** What was not written since is as the snapshot has it. */
  ghost predicate SnapshotHolds(t: Table, x: Tx) {
    forall id :: id in x.snapshot && id !in x.written ==> id in t && t[id] == x.snapshot[id]
  }

  ghost predicate LostHead(x: Tx) {
    NoTies(x.snapshot, x.caller) && forall h :: Head(x.snapshot, x.caller, h) ==> h in x.written
  }

  /** All that it would count now and did not count then are its rivals' claims. */
  ghost predicate RivalsAdd(t: Table, x: Tx) {
    forall m: Measure :: CountedIds(t, Part(x.caller), m) <= CountedIds(x.snapshot, Part(x.caller), m) + x.rivals
  }

  ghost predicate Accounted(t: Table, x: Tx) {
    SnapshotHolds(t, x) && RivalsAdd(t, x)
  }

  /** An open dequeue that was overtaken has lost its first row. */
  ghost predicate TxOk(t: Table, x: Tx) {
    Accounted(t, x) && (x.rivals != {} ==> LostHead(x))
  }

  ghost predicate Ok(s: State, config: string -> Limits) {
    && (forall n :: n in s.open ==>
          TxOk(s.table, s.open[n]) && Counting(config(s.open[n].caller.queue), s.open[n].caller))
    && AllInStep(s)
  }

  lemma ActionKeepsSnapshot(t: Table, a: Action, x: Tx)
    requires SnapshotHolds(t, x)
    ensures SnapshotHolds(Apply(t, a), Wrote(x, t, Apply(t, a)))
  {
    forall id | id in t ensures id in Apply(t, a) {
      StatementKeepsIdentity(t, a, id);
    }
  }

  lemma ClaimedIsThere(t: Table, x: Tx, claimed: seq<Id>)
    requires SnapshotHolds(t, x) && Claimable(x.snapshot, x.caller, claimed)
    requires forall id :: id in claimed ==> id !in x.written
    ensures Claimable(t, x.caller, claimed)
    ensures forall id :: id in claimed ==> id in t && t[id] == x.snapshot[id]
  {
    forall id | id in claimed ensures id in t && t[id] == x.snapshot[id] && id in EligibleIds(t, x.caller) {
      assert id in x.snapshot;
    }
  }

  lemma SelectionHasHead(t: Table, c: Caller, max: Option<int>, claimed: seq<Id>, h: Id)
    requires IsSelection(t, c, max, claimed) && claimed != [] && Head(t, c, h)
    ensures h in claimed
  {
    assert claimed[0] in claimed && claimed[0] in EligibleIds(t, c);
  }

  lemma HeadIsClaimed(x: Tx, max: Option<int>, claimed: seq<Id>) returns (h: Id)
    requires NoTies(x.snapshot, x.caller) && IsSelection(x.snapshot, x.caller, max, claimed) && claimed != []
    ensures h in claimed && Head(x.snapshot, x.caller, h)
  {
    assert claimed[0] in EligibleIds(x.snapshot, x.caller);
    h :| Head(x.snapshot, x.caller, h);
    SelectionHasHead(x.snapshot, x.caller, max, claimed, h);
  }

  /** A dequeue that claims anything was not overtaken. */
  lemma CommitIsTimely(t: Table, x: Tx, max: Option<int>, claimed: seq<Id>)
    requires TxOk(t, x) && IsSelection(x.snapshot, x.caller, max, claimed) && claimed != []
    requires forall id :: id in claimed ==> id !in x.written
    ensures x.rivals == {}
  {
    if x.rivals != {} {
      var h := HeadIsClaimed(x, max, claimed);
    }
  }

  lemma HeadIsUnique(t: Table, c: Caller, d: Caller, g: Id, h: Id)
    requires SameRows(c, d) && Head(t, c, g) && Head(t, d, h)
    ensures g == h
  {
    assert Eligible(c, t[g]) && Eligible(d, t[h]);
  }

  /** A claim adds nothing to what another counts, but where they interfere its own rows. */
  lemma ClaimAddsRivals(t: Table, limits: Limits, c: Caller, claimed: seq<Id>, d: Caller, m: Measure)
    requires Claimable(t, c, claimed)
    ensures CountedIds(Apply(t, ClaimOf(c, limits, claimed)), Part(d), m)
         <= CountedIds(t, Part(d), m) + (if Interferes(d, c) then Ids(claimed) else {})
  {
    var u := Apply(t, ClaimOf(c, limits, claimed));
    forall id | id in CountedIds(u, Part(d), m) && (id !in Ids(claimed) || !Interferes(d, c))
      ensures id in CountedIds(t, Part(d), m)
    {
      if id in Ids(claimed) {
        assert Eligible(c, t[id]);
      } else {
        UnclaimedRowStays(t, limits, c, claimed, id);
      }
    }
  }

  lemma ClaimKeepsAccount(t: Table, limits: Limits, c: Caller, claimed: seq<Id>, y: Tx)
    requires Claimable(t, c, claimed) && Accounted(t, y)
    ensures var u := Apply(t, ClaimOf(c, limits, claimed)); Accounted(u, Overtake(Wrote(y, t, u), c, claimed))
  {
    var u := Apply(t, ClaimOf(c, limits, claimed));
    ActionKeepsSnapshot(t, ClaimOf(c, limits, claimed), y);
    var z := Overtake(Wrote(y, t, u), c, claimed);
    forall m: Measure
      ensures CountedIds(u, Part(y.caller), m) <= CountedIds(y.snapshot, Part(y.caller), m) + z.rivals
    {
      ClaimAddsRivals(t, limits, c, claimed, y.caller, m);
    }
  }

  lemma ClaimKeepsHead(t: Table, limits: Limits, c: Caller, claimed: seq<Id>, d: Caller, h: Id)
    requires Claimable(t, c, claimed) && Head(t, d, h)
    ensures var u := Apply(t, ClaimOf(c, limits, claimed));
            if h in claimed then h in Changed(t, u) else Head(u, d, h)
  {
    var u := Apply(t, ClaimOf(c, limits, claimed));
    assert forall id :: id in Ids(claimed) ==> id in claimed && Eligible(c, t[id]);
    if h in claimed {
      assert h in Ids(claimed) && Eligible(c, t[h]) && u[h].status == Pending;
    } else {
      UnclaimedRowStays(t, limits, c, claimed, h);
      forall id | id in EligibleIds(u, d) ensures id in EligibleIds(t, d) && u[id] == t[id] {
        if id !in Ids(claimed) {
          UnclaimedRowStays(t, limits, c, claimed, id);
        }
      }
    }
  }

  lemma NothingClaimed(t: Table, limits: Limits, c: Caller)
    ensures Apply(t, ClaimOf(c, limits, [])) == t
  {
  }

  /** A commit that overtakes takes, with its own first row, the first row of the overtaken. */
  lemma OvertakenLosesHead(t: Table, limits: Limits, x: Tx, max: Option<int>, claimed: seq<Id>, y: Tx)
    requires SnapshotHolds(t, x) && InStep(t, y, x) && Interferes(y.caller, x.caller) && claimed != []
    requires IsSelection(x.snapshot, x.caller, max, claimed) && forall id :: id in claimed ==> id !in x.written
    ensures LostHead(Wrote(y, t, Apply(t, ClaimOf(x.caller, limits, claimed))))
  {
    var g := HeadIsClaimed(x, max, claimed);
    ClaimedIsThere(t, x, claimed);
    forall h | Head(y.snapshot, y.caller, h) && h !in y.written
      ensures h in Changed(t, Apply(t, ClaimOf(x.caller, limits, claimed)))
    {
      HeadIsUnique(t, y.caller, x.caller, h, g);
      ClaimKeepsHead(t, limits, x.caller, claimed, y.caller, h);
    }
  }

  /** Another dequeue's commit leaves an open one counting no more than it did, or without its first row. */
  lemma CommitKeepsTx(t: Table, limits: Limits, x: Tx, max: Option<int>, claimed: seq<Id>, y: Tx)
    requires SnapshotHolds(t, x) && TxOk(t, y) && InStep(t, y, x)
    requires IsSelection(x.snapshot, x.caller, max, claimed) && forall id :: id in claimed ==> id !in x.written
    ensures var u := Apply(t, ClaimOf(x.caller, limits, claimed)); TxOk(u, Overtake(Wrote(y, t, u), x.caller, claimed))
  {
    ClaimedIsThere(t, x, claimed);
    ClaimKeepsAccount(t, limits, x.caller, claimed, y);
    if claimed != [] && Interferes(y.caller, x.caller) {
      OvertakenLosesHead(t, limits, x, max, claimed, y);
    }
  }

  lemma CommitKeepsLead(t: Table, limits: Limits, c: Caller, claimed: seq<Id>, y: Tx)
    requires Claimable(t, c, claimed) && StillLeads(t, y)
    ensures var u := Apply(t, ClaimOf(c, limits, claimed)); StillLeads(u, Overtake(Wrote(y, t, u), c, claimed))
  {
    forall h | Head(y.snapshot, y.caller, h) && Head(t, y.caller, h)
      ensures var u := Apply(t, ClaimOf(c, limits, claimed)); h in Changed(t, u) || Head(u, y.caller, h)
    {
      ClaimKeepsHead(t, limits, c, claimed, y.caller, h);
    }
  }

  lemma UncountedAddsNone(t: Table, config: string -> Limits, a: Action, s: Scope, m: Measure)
    requires a.Claim? ==> Uncounted(t, config, a) && SharesBudget(config(s.queue))
    ensures CountedIds(Apply(t, a), s, m) <= CountedIds(t, s, m)
  {
    if !a.Claim? {
      OthersAddNone(t, a, s, m);
    }
  }

  lemma UncountedNeverAdds(t: Table, config: string -> Limits, a: Action, s: Scope, m: Measure)
    requires a.Claim? ==> Uncounted(t, config, a) && SharesBudget(config(s.queue))
    ensures Count(Apply(t, a), s, m) <= Count(t, s, m)
  {
    UncountedAddsNone(t, config, a, s, m);
    SubsetSize(CountedIds(Apply(t, a), s, m), CountedIds(t, s, m));
  }

  lemma OtherKeepsAccount(t: Table, config: string -> Limits, a: Action, x: Tx)
    requires Accounted(t, x) && SharesBudget(config(x.caller.queue)) && (a.Claim? ==> Uncounted(t, config, a))
    ensures Accounted(Apply(t, a), Wrote(x, t, Apply(t, a)))
  {
    ActionKeepsSnapshot(t, a, x);
    forall m: Measure
      ensures CountedIds(Apply(t, a), Part(x.caller), m) <= CountedIds(x.snapshot, Part(x.caller), m) + x.rivals
    {
      UncountedAddsNone(t, config, a, Part(x.caller), m);
    }
  }

  lemma CommitKeepsStep(s: State, config: string -> Limits, n: nat, claimed: seq<Id>)
    requires Ok(s, config) && Enabled(s, config, Commit(n, claimed))
    ensures AllInStep(Perform(s, config, Commit(n, claimed)))
  {
    var u, x := Perform(s, config, Commit(n, claimed)), s.open[n];
    ClaimedIsThere(s.table, x, claimed);
    forall i, j | i in u.open && j in u.open && i != j && Interferes(u.open[i].caller, u.open[j].caller)
      ensures InStep(u.table, u.open[i], u.open[j])
    {
      assert InStep(s.table, s.open[i], s.open[j]);
      CommitKeepsLead(s.table, config(x.caller.queue), x.caller, claimed, s.open[i]);
      CommitKeepsLead(s.table, config(x.caller.queue), x.caller, claimed, s.open[j]);
    }
  }

  lemma CommitKeepsOk(s: State, config: string -> Limits, n: nat, claimed: seq<Id>)
    requires Ok(s, config) && Enabled(s, config, Commit(n, claimed))
    ensures Ok(Perform(s, config, Commit(n, claimed)), config)
  {
    var u, x := Perform(s, config, Commit(n, claimed)), s.open[n];
    var limits := config(x.caller.queue);
    CommitKeepsStep(s, config, n, claimed);
    forall m | m in u.open ensures TxOk(u.table, u.open[m]) && u.open[m].caller == s.open[m].caller {
      CommitKeepsTx(s.table, limits, x, Allowance(x.snapshot, limits, x.caller), claimed, s.open[m]);
    }
  }

  lemma OtherKeepsOk(s: State, config: string -> Limits, nameless: bool, a: Action)
    requires Ok(s, config) && Enabled(s, config, Other(a)) && Orderly(s, config, nameless, Other(a))
    ensures Ok(Perform(s, config, Other(a)), config)
  {
    var n := Perform(s, config, Other(a));
    forall m | m in n.open ensures TxOk(n.table, n.open[m]) && n.open[m].caller == s.open[m].caller {
      OtherKeepsAccount(s.table, config, a, s.open[m]);
    }
  }

  lemma BeginKeepsOk(s: State, config: string -> Limits, nameless: bool, n: nat, c: Caller)
    requires Ok(s, config) && Enabled(s, config, Begin(n, c)) && Orderly(s, config, nameless, Begin(n, c))
    ensures Ok(Perform(s, config, Begin(n, c)), config)
  {
    assert TxOk(s.table, Tx(c, s.table, {}, {}));
  }

  lemma RollbackKeepsOk(s: State, config: string -> Limits, n: nat)
    requires Ok(s, config) && Enabled(s, config, Rollback(n))
    ensures Ok(Perform(s, config, Rollback(n)), config)
  {
    var u := Perform(s, config, Rollback(n));
    forall i, j | i in u.open && j in u.open && i != j ensures InStep(u.table, u.open[i], u.open[j]) {
      assert InStep(s.table, s.open[i], s.open[j]);
    }
  }

  lemma StepKeepsOk(s: State, config: string -> Limits, nameless: bool, e: Event)
    requires Ok(s, config) && Enabled(s, config, e) && Orderly(s, config, nameless, e)
    ensures Ok(Perform(s, config, e), config)
  {
    match e
    case Begin(n, c) => BeginKeepsOk(s, config, nameless, n, c);
    case Commit(n, claimed) => CommitKeepsOk(s, config, n, claimed);
    case Rollback(n) => RollbackKeepsOk(s, config, n);
    case Other(a) => OtherKeepsOk(s, config, nameless, a);
  }

  // ---------------------------------------------------------------- the limits

  /** A claim that was selected on the snapshot, with no rival's claim since. */
  ghost predicate Unrivalled(t: Table, limits: Limits, x: Tx, claimed: seq<Id>) {
    && RivalsAdd(t, x) && x.rivals == {} && Counting(limits, x.caller) && claimed != []
    && IsSelection(x.snapshot, x.caller, Allowance(x.snapshot, limits, x.caller), claimed)
  }

  /** What the snapshot had room for, the table has. */
  lemma RoomIsStillThere(t: Table, limits: Limits, x: Tx, claimed: seq<Id>)
    requires Unrivalled(t, limits, x, claimed)
    ensures limits.globalConcurrency.Some? ==>
              Count(t, Whole(x.caller), Running) + |claimed| <= limits.globalConcurrency.value
    ensures limits.partitionConcurrency.Some? ==>
              Count(t, Part(x.caller), Running) + |claimed| <= limits.partitionConcurrency.value
  {
    AllowanceBounds(x.snapshot, limits, x.caller, claimed);
    NoRivalsNoMore(t, x, Running);
  }

  lemma NoRivalsNoMore(t: Table, x: Tx, m: Measure)
    requires RivalsAdd(t, x) && x.rivals == {}
    ensures Count(t, Part(x.caller), m) <= Count(x.snapshot, Part(x.caller), m)
  {
    SubsetSize(CountedIds(t, Part(x.caller), m), CountedIds(x.snapshot, Part(x.caller), m));
  }

  /** The claimer counts room for its claim in what the observer counts, if the claim is to be counted there. */
  ghost predicate Fits(t: Table, c: Caller, claimed: seq<Id>, s: Scope, m: Measure, limit: int) {
    s.queue == c.queue && (s.key.None? || s.key == c.key) && claimed != [] ==>
      && Count(t, Scope(c.queue, c.app, s.key), m) + |claimed| <= limit
      && (s.app.None? ==> CountsAll(t, c, s.key, m))
  }

  lemma ClaimKeepsCount(t: Table, limits: Limits, c: Caller, claimed: seq<Id>, s: Scope, m: Measure, limit: int)
    requires Claimable(t, c, claimed) && Count(t, s, m) <= limit
    requires (s.queue == c.queue && s.key.Some? ==> c.key.Some?) && Fits(t, c, claimed, s, m, limit)
    ensures Count(Apply(t, ClaimOf(c, limits, claimed)), s, m) <= limit
  {
    if s.queue == c.queue {
      ClaimAdds(t, limits, c, claimed, s.app, s.key, s.queue, m);
    } else {
      ClaimElsewhere(t, limits, c, claimed, s, m);
    }
  }

  lemma CommitKeepsConcurrency(t: Table, limits: Limits, x: Tx, claimed: seq<Id>, s: Scope, limit: Option<nat>)
    requires Unrivalled(t, limits, x, claimed)
    requires Claimable(t, x.caller, claimed) && (s.app.None? ==> SeesAll(t, limits, x.caller))
    requires s.queue == x.caller.queue ==>
               limit == if s.key.None? then limits.globalConcurrency else limits.partitionConcurrency
    requires ConcurrencyKept(t, s, limit)
    ensures ConcurrencyKept(Apply(t, ClaimOf(x.caller, limits, claimed)), s, limit)
  {
    if limit.Some? {
      RoomIsStillThere(t, limits, x, claimed);
      ClaimKeepsCount(t, limits, x.caller, claimed, s, Running, limit.value);
    }
  }

  lemma CountsAllLater(t: Table, c: Caller, key: Option<string>, earlier: int, later: int)
    requires CountsAll(t, c, key, StartedAfter(earlier)) && earlier <= later
    ensures CountsAll(t, c, key, StartedAfter(later))
  {
    assert CountedIds(t, Scope(c.queue, None, key), StartedAfter(later))
        <= CountedIds(t, Scope(c.queue, None, key), StartedAfter(earlier));
  }

  lemma StartsFade(t: Table, s: Scope, earlier: int, later: int)
    requires earlier <= later
    ensures Count(t, s, StartedAfter(later)) <= Count(t, s, StartedAfter(earlier))
  {
    SubsetSize(CountedIds(t, s, StartedAfter(later)), CountedIds(t, s, StartedAfter(earlier)));
  }

  lemma SnapshotHasRoom(t: Table, limits: Limits, c: Caller, claimed: seq<Id>, rate: RateLimit, since: int)
    requires IsSelection(t, c, Allowance(t, limits, c), claimed) && claimed != [] && c.now - rate.periodMs <= since
    requires Some(rate) == if c.key.None? then limits.rateLimit else limits.partitionRateLimit
    ensures Count(t, Part(c), StartedAfter(since)) + |claimed| <= rate.limit
  {
    var earlier := Count(t, Part(c), StartedAfter(c.now - rate.periodMs));
    assert earlier + |claimed| <= rate.limit by { WindowHasRoom(t, limits, c, claimed, c.key, rate); }
    StartsFade(t, Part(c), c.now - rate.periodMs, since);
  }

  lemma WindowStillHasRoom(t: Table, limits: Limits, x: Tx, claimed: seq<Id>, rate: RateLimit, since: int)
    requires Unrivalled(t, limits, x, claimed) && x.caller.now - rate.periodMs <= since
    requires Some(rate) == if x.caller.key.None? then limits.rateLimit else limits.partitionRateLimit
    ensures Count(t, Part(x.caller), StartedAfter(since)) + |claimed| <= rate.limit
  {
    var m := StartedAfter(since);
    var seen := Count(x.snapshot, Part(x.caller), m);
    assert seen + |claimed| <= rate.limit by { SnapshotHasRoom(x.snapshot, limits, x.caller, claimed, rate, since); }
    assert Count(t, Part(x.caller), m) <= seen by { NoRivalsNoMore(t, x, m); }
  }

  lemma WindowFits(t: Table, limits: Limits, x: Tx, claimed: seq<Id>, s: Scope, rate: RateLimit, since: int)
    requires Unrivalled(t, limits, x, claimed) && x.caller.now - rate.periodMs <= since
    requires s.app.None? ==> SeesAll(t, limits, x.caller)
    requires s.queue == x.caller.queue ==>
               Some(rate) == if s.key.None? then limits.rateLimit else limits.partitionRateLimit
    ensures Fits(t, x.caller, claimed, s, StartedAfter(since), rate.limit)
  {
    var c := x.caller;
    if s.queue == c.queue && (s.key.None? || s.key == c.key) {
      assert s.key == c.key;
      WindowStillHasRoom(t, limits, x, claimed, rate, since);
      if s.app.None? {
        CountsAllLater(t, c, s.key, c.now - rate.periodMs, since);
      }
    }
  }

  lemma RateKeptAt(t: Table, s: Scope, rate: RateLimit, clock: int, time: int)
    requires RateKept(t, s, Some(rate), clock) && clock <= time
    ensures Count(t, s, StartedAfter(time - rate.periodMs)) <= rate.limit
  {
    assert RateSlots(t, rate, s, time) >= 0;
  }

  lemma ClaimKeepsRateAt(t: Table, limits: Limits, c: Caller, claimed: seq<Id>, s: Scope, rate: RateLimit, clock: int,
                         time: int)
    requires Claimable(t, c, claimed) && RateKept(t, s, Some(rate), clock) && clock <= time
    requires s.queue == c.queue && s.key.Some? ==> c.key.Some?
    requires Fits(t, c, claimed, s, StartedAfter(time - rate.periodMs), rate.limit)
    ensures RateSlots(Apply(t, ClaimOf(c, limits, claimed)), rate, s, time) >= 0
  {
    RateKeptAt(t, s, rate, clock, time);
    ClaimKeepsCount(t, limits, c, claimed, s, StartedAfter(time - rate.periodMs), rate.limit);
  }

  ghost predicate AllFit(t: Table, c: Caller, claimed: seq<Id>, s: Scope, rate: RateLimit) {
    forall since :: c.now - rate.periodMs <= since ==> Fits(t, c, claimed, s, StartedAfter(since), rate.limit)
  }

  lemma WindowsFit(t: Table, limits: Limits, x: Tx, claimed: seq<Id>, s: Scope, rate: RateLimit)
    requires Unrivalled(t, limits, x, claimed) && (s.app.None? ==> SeesAll(t, limits, x.caller))
    requires s.queue == x.caller.queue ==>
               Some(rate) == if s.key.None? then limits.rateLimit else limits.partitionRateLimit
    ensures AllFit(t, x.caller, claimed, s, rate)
  {
    forall since | x.caller.now - rate.periodMs <= since
      ensures Fits(t, x.caller, claimed, s, StartedAfter(since), rate.limit)
    {
      WindowFits(t, limits, x, claimed, s, rate, since);
    }
  }

  lemma ClaimKeepsRate(t: Table, limits: Limits, c: Caller, claimed: seq<Id>, s: Scope, rate: RateLimit, clock: int)
    requires Claimable(t, c, claimed) && RateKept(t, s, Some(rate), clock) && AllFit(t, c, claimed, s, rate)
    requires s.queue == c.queue && s.key.Some? ==> c.key.Some?
    ensures RateKept(Apply(t, ClaimOf(c, limits, claimed)), s, Some(rate), Later(clock, c.now))
  {
    var u := Apply(t, ClaimOf(c, limits, claimed));
    forall time | Later(clock, c.now) <= time ensures RateSlots(u, rate, s, time) >= 0 {
      assert Fits(t, c, claimed, s, StartedAfter(time - rate.periodMs), rate.limit);
      ClaimKeepsRateAt(t, limits, c, claimed, s, rate, clock, time);
    }
  }

  lemma CommitKeepsRate(t: Table, limits: Limits, x: Tx, claimed: seq<Id>, s: Scope, rate: Option<RateLimit>,
                        clock: int)
    requires Unrivalled(t, limits, x, claimed)
    requires Claimable(t, x.caller, claimed) && (s.app.None? ==> SeesAll(t, limits, x.caller))
    requires s.queue == x.caller.queue ==> rate == if s.key.None? then limits.rateLimit else limits.partitionRateLimit
    requires RateKept(t, s, rate, clock)
    ensures RateKept(Apply(t, ClaimOf(x.caller, limits, claimed)), s, rate, Later(clock, x.caller.now))
  {
    if rate.Some? {
      WindowsFit(t, limits, x, claimed, s, rate.value);
      ClaimKeepsRate(t, limits, x.caller, claimed, s, rate.value, clock);
    }
  }

  lemma CommitKeepsLimits(s: State, config: string -> Limits, nameless: bool, queue: string, n: nat, claimed: seq<Id>)
    requires Ok(s, config) && Enabled(s, config, Commit(n, claimed)) && Orderly(s, config, nameless, Commit(n, claimed))
    requires LimitsKept(s.table, config(queue), queue, nameless, s.clock)
    ensures var u := Perform(s, config, Commit(n, claimed));
            LimitsKept(u.table, config(queue), queue, nameless, u.clock)
  {
    var t, x := s.table, s.open[n];
    var used, limits := config(x.caller.queue), config(queue);
    var u := Perform(s, config, Commit(n, claimed));
    forall app: Option<string>, key: string | Observer(app, nameless)
      ensures KeptFor(u.table, limits, queue, app, key, u.clock)
    {
      assert KeptFor(t, limits, queue, app, key, s.clock);
      if claimed == [] {
        NothingClaimed(t, used, x.caller);
      } else {
        CommitIsTimely(t, x, Allowance(x.snapshot, used, x.caller), claimed);
        ClaimedIsThere(t, x, claimed);
        CommitKeepsConcurrency(t, used, x, claimed, Scope(queue, app, None), limits.globalConcurrency);
        CommitKeepsConcurrency(t, used, x, claimed, Scope(queue, app, Some(key)), limits.partitionConcurrency);
        CommitKeepsRate(t, used, x, claimed, Scope(queue, app, None), limits.rateLimit, s.clock);
        CommitKeepsRate(t, used, x, claimed, Scope(queue, app, Some(key)), limits.partitionRateLimit, s.clock);
      }
    }
  }

  lemma OtherKeepsLimits(t: Table, config: string -> Limits, nameless: bool, queue: string, clock: int, a: Action)
    requires (a.Claim? ==> Uncounted(t, config, a)) && LimitsKept(t, config(queue), queue, nameless, clock)
    ensures LimitsKept(Apply(t, a), config(queue), queue, nameless, clock)
  {
    var limits := config(queue);
    forall app: Option<string>, key: string | Observer(app, nameless)
      ensures KeptFor(Apply(t, a), limits, queue, app, key, clock)
    {
      assert KeptFor(t, limits, queue, app, key, clock);
      if SharesBudget(limits) {
        UncountedNeverAdds(t, config, a, Scope(queue, app, None), Running);
        UncountedNeverAdds(t, config, a, Scope(queue, app, Some(key)), Running);
        UncountedKeepsRate(t, config, a, Scope(queue, app, None), limits.rateLimit, clock);
        UncountedKeepsRate(t, config, a, Scope(queue, app, Some(key)), limits.partitionRateLimit, clock);
      }
    }
  }

  lemma UncountedKeepsRate(t: Table, config: string -> Limits, a: Action, s: Scope, rate: Option<RateLimit>, clock: int)
    requires (a.Claim? ==> Uncounted(t, config, a)) && SharesBudget(config(s.queue)) && RateKept(t, s, rate, clock)
    ensures RateKept(Apply(t, a), s, rate, clock)
  {
    if rate.Some? {
      forall time | clock <= time ensures RateSlots(Apply(t, a), rate.value, s, time) >= 0 {
        assert RateSlots(t, rate.value, s, time) >= 0;
        UncountedNeverAdds(t, config, a, s, StartedAfter(time - rate.value.periodMs));
      }
    }
  }

  lemma StepKeepsLimits(s: State, config: string -> Limits, nameless: bool, queue: string, e: Event)
    requires Ok(s, config) && Enabled(s, config, e) && Orderly(s, config, nameless, e)
    requires LimitsKept(s.table, config(queue), queue, nameless, s.clock)
    ensures var n := Perform(s, config, e); LimitsKept(n.table, config(queue), queue, nameless, n.clock)
  {
    match e
    case Commit(n, claimed) => CommitKeepsLimits(s, config, nameless, queue, n, claimed);
    case Other(a) => OtherKeepsLimits(s.table, config, nameless, queue, s.clock, a);
    case _ =>
  }

  ghost predicate IsRun(s: State, config: string -> Limits, nameless: bool, events: seq<Event>)
    decreases |events|
  {
    events != [] ==>
      && Enabled(s, config, events[0]) && Orderly(s, config, nameless, events[0])
      && IsRun(Perform(s, config, events[0]), config, nameless, events[1..])
  }

  ghost function After(s: State, config: string -> Limits, nameless: bool, events: seq<Event>): State
    requires IsRun(s, config, nameless, events)
    decreases |events|
  {
    if events == [] then s else After(Perform(s, config, events[0]), config, nameless, events[1..])
  }

  lemma {:induction false} RunKeepsLimits(s: State, config: string -> Limits, nameless: bool, queue: string,
                                          events: seq<Event>)
    requires Ok(s, config) && IsRun(s, config, nameless, events)
    requires LimitsKept(s.table, config(queue), queue, nameless, s.clock)
    ensures var n := After(s, config, nameless, events); LimitsKept(n.table, config(queue), queue, nameless, n.clock)
    decreases |events|
  {
    if events != [] {
      StepKeepsOk(s, config, nameless, events[0]);
      StepKeepsLimits(s, config, nameless, queue, events[0]);
      RunKeepsLimits(Perform(s, config, events[0]), config, nameless, queue, events[1..]);
    }
  }

  /** Any number of dequeues may overlap in any way: while those that are open together and count one another's claims
      are in step, none of them spends a budget twice. */
  lemma OverlapsKeepLimits(config: string -> Limits, nameless: bool, queue: string, clock: int, events: seq<Event>)
    requires IsRun(State(map[], map[], clock), config, nameless, events)
    ensures var n := After(State(map[], map[], clock), config, nameless, events);
            && LimitsKept(n.table, config(queue), queue, nameless, n.clock)
            && forall app: Option<string>, key: string :: app.Some? || nameless ==>
                 SeenWithin(n.table, config(queue), queue, app, key, n.clock)
  {
    var empty: Table := map[];
    assert forall s: Scope, m: Measure :: CountedIds(empty, s, m) == {};
    assert forall app: Option<string>, key: string :: KeptFor(empty, config(queue), queue, app, key, clock);
    RunKeepsLimits(State(empty, map[], clock), config, nameless, queue, events);
    var n := After(State(empty, map[], clock), config, nameless, events);
    AllSeeWithin(n.table, config(queue), queue, nameless, n.clock);
  }

  // ---------------------------------------------------------------- one commit, exactly

  ghost predicate AllAccounted(s: State, config: string -> Limits) {
    forall n :: n in s.open ==> Accounted(s.table, s.open[n]) && SharesBudget(config(s.open[n].caller.queue))
  }

  /** Whoever overlaps whom. */
  lemma StepKeepsAccounts(s: State, config: string -> Limits, e: Event)
    requires AllAccounted(s, config) && Enabled(s, config, e)
    ensures AllAccounted(Perform(s, config, e), config)
  {
    var n := Perform(s, config, e);
    match e
    case Begin(_, c) => assert Accounted(s.table, Tx(c, s.table, {}, {}));
    case Commit(i, claimed) =>
      var x := s.open[i];
      ClaimedIsThere(s.table, x, claimed);
      forall m | m in n.open ensures Accounted(n.table, n.open[m]) && n.open[m].caller == s.open[m].caller {
        ClaimKeepsAccount(s.table, config(x.caller.queue), x.caller, claimed, s.open[m]);
      }
    case Other(a) =>
      forall m | m in n.open ensures Accounted(n.table, n.open[m]) && n.open[m].caller == s.open[m].caller {
        OtherKeepsAccount(s.table, config, a, s.open[m]);
      }
    case Rollback(_) =>
  }

  lemma SetSizes<T>(a: set<T>, b: set<T>)
    ensures |a| == |b| + |a - b| - |b - a|
  {
    assert a == (a - b) + (a * b) && b == (b - a) + (a * b);
  }

  /** Whoever overlaps, what a dequeue did not see are its rivals' claims: the limit is kept if and only if those that
      still count are no more than what has left its count since, and the room it did not use. */
  lemma CommitIsExact(s: State, config: string -> Limits, n: nat, claimed: seq<Id>, m: Measure, limit: nat)
    requires AllAccounted(s, config) && Enabled(s, config, Commit(n, claimed))
    requires CountsClaims(m, config(s.open[n].caller.queue), s.open[n].caller)
    ensures var x := s.open[n];
            var seen, now := CountedIds(x.snapshot, Part(x.caller), m), CountedIds(s.table, Part(x.caller), m);
            && now - seen <= x.rivals
            && (Count(Perform(s, config, Commit(n, claimed)).table, Part(x.caller), m) <= limit <==>
                |now - seen| <= |seen - now| + (limit - |seen| - |claimed|))
  {
    var x := s.open[n];
    ClaimedIsThere(s.table, x, claimed);
    ClaimCountsExactly(s.table, config(x.caller.queue), x.caller, claimed, Part(x.caller), m);
    SetSizes(CountedIds(s.table, Part(x.caller), m), CountedIds(x.snapshot, Part(x.caller), m));
  }

  // ---------------------------------------------------------------- two versions

  function VersionedRow(version: string): Row {
    Row("wf", Enqueued, Some("q"), None, None, 0, 0, None, None, 0, 0, "local", Some(version), None, false, None, false,
        None, None, None, "", None, None, None, None)
  }

  function VersionedCaller(version: string): Caller {
    Caller("q", "local", version, None, None, None, 0, 0, 0)
  }

  const ONE_AT_A_TIME := Limits(None, None, Some(1), None, None, None)

  /** Two dequeues begin on one table. */
  ghost function BothBegun(t: Table, c: Caller, d: Caller): State {
    State(t, map[0 := Tx(c, t, {}, {}), 1 := Tx(d, t, {}, {})], 0)
  }

  lemma BothBegin(t: Table, config: string -> Limits, c: Caller, d: Caller)
    requires Counting(config(c.queue), c) && Counting(config(d.queue), d)
    ensures var s := State(t, map[], 0);
            && Enabled(s, config, Begin(0, c))
            && Enabled(Perform(s, config, Begin(0, c)), config, Begin(1, d))
            && Perform(Perform(s, config, Begin(0, c)), config, Begin(1, d)) == BothBegun(t, c, d)
  {
  }

  /** A dequeue whose snapshot had one startable row and nothing running claims that row, whatever runs now. */
  lemma SoleRowCommits(s: State, config: string -> Limits, n: nat, id: Id)
    requires n in s.open && s.open[n].caller.queue == "q" && config("q") == ONE_AT_A_TIME
    requires var x := s.open[n];
             EligibleIds(x.snapshot, x.caller) == {id} && CountedIds(x.snapshot, Whole(x.caller), Running) == {}
             && id !in x.written && id in s.table
    ensures Enabled(s, config, Commit(n, [id]))
    ensures var c := s.open[n].caller;
            Perform(s, config, Commit(n, [id])).table
            == s.table[id := ClaimRow(s.table[id], c.executor, c.version, false, c.app, c.now)]
  {
    SoleWaiterStarts(s.open[n].snapshot, s.open[n].caller, id);
    assert Ids([id]) == {id} by { IdsGrow([], id); assert [] + [id] == [id]; }
  }

  /** Another dequeue goes on with its own snapshot, and its rows are still as they were. */
  lemma OthersStayOpen(s: State, config: string -> Limits, n: nat, claimed: seq<Id>, m: nat, id: Id)
    requires Enabled(s, config, Commit(n, claimed)) && m in s.open && m != n
    requires id in s.table && id !in claimed && id !in s.open[m].written
    ensures var t := Perform(s, config, Commit(n, claimed));
            && m in t.open && t.open[m].snapshot == s.open[m].snapshot && t.open[m].caller == s.open[m].caller
            && id in t.table && t.table[id] == s.table[id] && id !in t.open[m].written
  {
    var c := s.open[n].caller;
    assert id !in Ids(claimed);
    UnclaimedRowStays(s.table, config(c.queue), c, claimed, id);
  }

  ghost function Overspent(s: State, config: string -> Limits, first: Id, second: Id): Table
    requires Enabled(s, config, Commit(0, [first]))
    requires Enabled(Perform(s, config, Commit(0, [first])), config, Commit(1, [second]))
  {
    Perform(Perform(s, config, Commit(0, [first])), config, Commit(1, [second])).table
  }

  function TwoVersions(): Table {
    map["a" := VersionedRow("1"), "b" := VersionedRow("2")]
  }

  lemma EachVersionSeesOne()
    ensures EligibleIds(TwoVersions(), VersionedCaller("1")) == {"a"}
    ensures EligibleIds(TwoVersions(), VersionedCaller("2")) == {"b"}
    ensures forall s :: CountedIds(TwoVersions(), s, Running) == {}
  {
  }

  lemma BothRun(t: Table)
    requires t.Keys == {"a", "b"}
    requires forall id :: id in t ==> t[id].queue == Some("q") && t[id].status == Pending
    ensures Count(t, Scope("q", None, None), Running) == 2
  {
    assert CountedIds(t, Scope("q", None, None), Running) == {"a", "b"};
  }

  /** Dequeuers of two versions lock different rows, so both commit what each had room for alone. */
  lemma TwoVersionsOverspend(config: string -> Limits)
    requires config("q") == ONE_AT_A_TIME
    ensures var s := BothBegun(TwoVersions(), VersionedCaller("1"), VersionedCaller("2"));
            && Enabled(s, config, Commit(0, ["a"]))
            && Enabled(Perform(s, config, Commit(0, ["a"])), config, Commit(1, ["b"]))
            && Count(Overspent(s, config, "a", "b"), Scope("q", None, None), Running) == 2
  {
    var t := TwoVersions();
    var s := BothBegun(t, VersionedCaller("1"), VersionedCaller("2"));
    EachVersionSeesOne();
    SoleRowCommits(s, config, 0, "a");
    var s3 := Perform(s, config, Commit(0, ["a"]));
    OthersStayOpen(s, config, 0, ["a"], 1, "b");
    SoleRowCommits(s3, config, 1, "b");
    BothRun(Overspent(s, config, "a", "b"));
  }

  // ---------------------------------------------------------------- by columns

  /** A row the caller could start, and the row its claim would leave, as the other would count it. */
  ghost predicate CouldCount(c: Caller, d: Caller, limits: Limits, r: Row, u: Row) {
    "" in StartableRows(map["" := r], c) && Started(r, u, c, limits) && Seen(u, d.queue, d.app, d.key)
  }

  /** Two dequeues interfere exactly if there is a row that one could start and the other would then count. */
  lemma InterferenceIsExact(c: Caller, d: Caller, limits: Limits)
    ensures Interferes(d, c) <==> exists r, u :: CouldCount(c, d, limits, r, u)
  {
    if Interferes(d, c) {
      var r := Row("", Enqueued, Some(c.queue), None, if c.key.Some? then c.key else d.key, 0, 0, None, None, 0, 0, "",
                   Some(c.version), if c.app.Some? then c.app else d.app, false, None, false, None, None, None, "",
                   None, None, None, None);
      var u := ClaimRow(r, c.executor, c.version, RateLimited(limits), c.app, c.now);
      assert "" in StartableRows(map["" := r], c);
      assert CouldCount(c, d, limits, r, u);
    }
    forall r, u | CouldCount(c, d, limits, r, u) ensures Interferes(d, c) {
      CountedMeansInterferes(c, d, limits, r, u);
    }
  }

  lemma CountedMeansInterferes(c: Caller, d: Caller, limits: Limits, r: Row, u: Row)
    requires CouldCount(c, d, limits, r, u)
    ensures Interferes(d, c)
  {
    assert Seen(map["" := r][""], c.queue, c.app, c.key);
  }

  /** A dequeue opens on a snapshot of the table, and only on a queue with a shared budget that is not one of the
      serializable ones; it ends by its commit or rollback, and until then keeps caller and snapshot. */
  lemma DequeuesComeAndGo(s: State, config: string -> Limits, e: Event, k: nat)
    requires Enabled(s, config, e)
    ensures var n := Perform(s, config, e);
            && (k !in s.open ==> (k in n.open <==> e.Begin? && e.tx == k))
            && (k !in s.open && k in n.open ==>
                  n.open[k].caller == e.caller && n.open[k].snapshot == s.table && n.open[k].written == {})
            && (k in s.open ==> (k !in n.open <==> (e.Commit? || e.Rollback?) && e.tx == k))
            && (k in s.open && k in n.open ==>
                  && n.open[k].caller == s.open[k].caller && n.open[k].snapshot == s.open[k].snapshot
                  && s.open[k].written <= n.open[k].written
                  && (forall id :: id in n.table && (id !in s.table || n.table[id] != s.table[id]) ==>
                        id in n.open[k].written))
            && (e.Begin? || e.Rollback? ==> n.table == s.table)
            && (e.Other? ==> n.table == Apply(s.table, e.action) && n.clock == s.clock)
  {
  }

  /** When it may open, by the limits of its queue. */
  lemma OpeningIsExact(s: State, config: string -> Limits, n: nat, c: Caller)
    ensures var l := config(c.queue);
            Enabled(s, config, Begin(n, c)) <==>
              && n !in s.open
              && (l.globalConcurrency != None || l.partitionConcurrency != None || l.rateLimit != None
                  || l.partitionRateLimit != None)
              && (c.key != None ==> l.globalConcurrency == None && l.rateLimit == None)
              && (c.key == None ==> l.partitionConcurrency == None && l.partitionRateLimit == None)
    ensures n in s.open ==> Enabled(s, config, Rollback(n))
  {
  }

  /** A commit claims the first rows of its snapshot, as many as the limits let it by what it saw, none of them written
      since; it starts those and changes no other row. */
  lemma CommitStarts(s: State, config: string -> Limits, n: nat, claimed: seq<Id>)
    requires Enabled(s, config, Commit(n, claimed)) && SnapshotHolds(s.table, s.open[n])
    ensures var x, u := s.open[n], Perform(s, config, Commit(n, claimed)).table;
            var l := config(x.caller.queue);
            && FirstInLine(x.snapshot, x.caller, claimed)
            && (claimed != [] ==> Within(x.snapshot, l, x.caller, |claimed|))
            && (forall k: nat :: k <= |StartableRows(x.snapshot, x.caller)| && Within(x.snapshot, l, x.caller, k) ==>
                  k <= |claimed|)
            && u.Keys == s.table.Keys
            && (forall id :: id in claimed ==>
                  id !in x.written && id in s.table && s.table[id] == x.snapshot[id]
                  && Started(s.table[id], u[id], x.caller, l))
            && (forall id :: id in u && id !in claimed ==> u[id] == s.table[id])
  {
    var x := s.open[n];
    SelectionIsExact(x.snapshot, config(x.caller.queue), x.caller, claimed);
    ClaimedIsThere(s.table, x, claimed);
    EligibleAreColumns(s.table, x.caller);
    ClaimStarts(s.table, config(x.caller.queue), x.caller, claimed);
  }
}
