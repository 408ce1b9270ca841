/** Forking workflows at a step: what a fork copies is what its original had when it reached that step. */
module Fork {
  import opened Wrappers

  type Id = string
  type Key = string

  const SET_EVENT := "DBOS.setEvent"

  datatype Entry = Entry(name: string, output: Option<string>, error: Option<string>, child: Option<Id>)
  datatype StreamRow = StreamRow(value: string, step: nat)

  /** The rows one workflow has in operation_outputs, workflow_events_history, workflow_events and streams. */
  datatype Data = Data(log: map<nat, Entry>, history: map<(nat, Key), string>, events: map<Key, string>,
                       streams: map<(Key, nat), StreamRow>)
  type Store = map<Id, Data>

  // ---------------------------------------------------------------- what a workflow writes

  datatype Write =
    | Checkpoint(step: nat, entry: Entry)
    | SetEvent(step: nat, key: Key, value: string)
    | WriteStream(step: nat, key: Key, offset: nat, value: string)

  /** A step that is in the log is replayed: nothing is written again. A stream row has its step's function ID too. */
  function Written(d: Data, w: Write): Data {
    match w
    case Checkpoint(f, entry) => if f in d.log then d else d.(log := d.log[f := entry])
    case SetEvent(f, key, value) =>
      if f in d.log then d
      else d.(log := d.log[f := Entry(SET_EVENT, None, None, None)],
              history := d.history[(f, key) := value], events := d.events[key := value])
    case WriteStream(f, key, offset, value) =>
      if (key, offset) in d.streams then d else d.(streams := d.streams[(key, offset) := StreamRow(value, f)])
  }

  ghost function Run(d: Data, writes: seq<Write>): Data {
    if writes == [] then d else Written(Run(d, writes[..|writes| - 1]), writes[|writes| - 1])
  }

  /** The latest setting of an event, by function ID. */
  ghost predicate IsLatest(history: map<(nat, Key), string>, f: nat, key: Key) {
    (f, key) in history && forall h :: h in history && h.1 == key ==> h.0 <= f
  }

  /** Every event that was ever set has the value of its latest setting. */
  ghost predicate EventsAreLatest(d: Data) {
    && (forall h :: h in d.history ==> h.1 in d.events)
    && (forall key :: key in d.events ==>
          exists f :: IsLatest(d.history, f, key) && d.history[(f, key)] == d.events[key])
  }

  /** A new setting of an event comes after all settings of it so far. */
  ghost predicate InOrder(d: Data, w: Write) {
    w.SetEvent? && w.step !in d.log ==> forall h :: h in d.history && h.1 == w.key ==> h.0 < w.step
  }

  ghost predicate RunsInOrder(d: Data, writes: seq<Write>) {
    forall i :: 0 <= i < |writes| ==> InOrder(Run(d, writes[..i]), writes[i])
  }

  lemma WriteKeepsLatest(d: Data, w: Write)
    requires EventsAreLatest(d) && InOrder(d, w)
    ensures EventsAreLatest(Written(d, w))
  {
    var u := Written(d, w);
    if w.SetEvent? && w.step !in d.log {
      assert IsLatest(u.history, w.step, w.key);
      forall key | key in u.events && key != w.key
        ensures exists f :: IsLatest(u.history, f, key) && u.history[(f, key)] == u.events[key]
      {
        var f: nat :| IsLatest(d.history, f, key) && d.history[(f, key)] == d.events[key];
        assert IsLatest(u.history, f, key);
      }
    }
  }

  lemma {:induction false} RunKeepsLatest(d: Data, writes: seq<Write>)
    requires EventsAreLatest(d) && RunsInOrder(d, writes)
    ensures EventsAreLatest(Run(d, writes))
  {
    if writes != [] {
      var init := writes[..|writes| - 1];
      forall i | 0 <= i < |init| ensures InOrder(Run(d, init[..i]), init[i]) {
        assert init[..i] == writes[..i];
      }
      RunKeepsLatest(d, init);
      WriteKeepsLatest(Run(d, init), writes[|writes| - 1]);
    }
  }

  // ---------------------------------------------------------------- the first write of a step stands

  /** What a write has to say about step `f` of the log. */
  predicate Logs(w: Write, f: nat, e: Entry) {
    match w
    case Checkpoint(g, entry) => g == f && entry == e
    case SetEvent(g, _, _) => g == f && e == Entry(SET_EVENT, None, None, None)
    case WriteStream(_, _, _, _) => false
  }

  predicate AtStep(w: Write, f: nat) {
    !w.WriteStream? && w.step == f
  }

  predicate AtOffset(w: Write, key: Key, offset: nat) {
    w.WriteStream? && w.key == key && w.offset == offset
  }

  /** The first write of step `f`, if there is one, and what it records. */
  ghost predicate FirstStep(writes: seq<Write>, f: nat, e: Entry) {
    exists i :: 0 <= i < |writes| && Logs(writes[i], f, e) && forall j :: 0 <= j < i ==> !AtStep(writes[j], f)
  }

  ghost predicate FirstAt(writes: seq<Write>, key: Key, offset: nat, row: StreamRow) {
    exists i :: 0 <= i < |writes| && AtOffset(writes[i], key, offset)
                && row == StreamRow(writes[i].value, writes[i].step)
                && forall j :: 0 <= j < i ==> !AtOffset(writes[j], key, offset)
  }

  ghost predicate StepsStand(d: Data, writes: seq<Write>, u: Data) {
    && (forall f :: f in d.log ==> f in u.log && u.log[f] == d.log[f])
    && (forall f :: f in u.log && f !in d.log ==> FirstStep(writes, f, u.log[f]))
    && (forall w :: w in writes && !w.WriteStream? ==> w.step in u.log)
  }

  ghost predicate RowsStand(d: Data, writes: seq<Write>, u: Data) {
    && (forall p :: p in d.streams ==> p in u.streams && u.streams[p] == d.streams[p])
    && (forall p :: p in u.streams && p !in d.streams ==> FirstAt(writes, p.0, p.1, u.streams[p]))
    && (forall w :: w in writes && w.WriteStream? ==> (w.key, w.offset) in u.streams)
  }

  lemma FirstStepStays(writes: seq<Write>, w: Write, f: nat, e: Entry)
    requires FirstStep(writes, f, e) || (Logs(w, f, e) && forall v :: v in writes ==> !AtStep(v, f))
    ensures FirstStep(writes + [w], f, e)
  {
    var more := writes + [w];
    assert forall j :: 0 <= j < |writes| ==> more[j] == writes[j] && writes[j] in writes;
    if FirstStep(writes, f, e) {
      var i :| 0 <= i < |writes| && Logs(writes[i], f, e) && forall j :: 0 <= j < i ==> !AtStep(writes[j], f);
      assert Logs(more[i], f, e);
    } else {
      assert Logs(more[|writes|], f, e);
    }
  }

  lemma FirstAtStays(writes: seq<Write>, w: Write, key: Key, offset: nat, row: StreamRow)
    requires FirstAt(writes, key, offset, row) ||
             (AtOffset(w, key, offset) && row == StreamRow(w.value, w.step)
              && forall v :: v in writes ==> !AtOffset(v, key, offset))
    ensures FirstAt(writes + [w], key, offset, row)
  {
    var more := writes + [w];
    assert forall j :: 0 <= j < |writes| ==> more[j] == writes[j] && writes[j] in writes;
    if FirstAt(writes, key, offset, row) {
      var i :| 0 <= i < |writes| && AtOffset(writes[i], key, offset)
               && row == StreamRow(writes[i].value, writes[i].step)
               && forall j :: 0 <= j < i ==> !AtOffset(writes[j], key, offset);
      assert AtOffset(more[i], key, offset);
    } else {
      assert AtOffset(more[|writes|], key, offset);
    }
  }

  lemma OneMoreStep(d: Data, writes: seq<Write>, w: Write, t: Data)
    requires StepsStand(d, writes, t)
    ensures StepsStand(d, writes + [w], Written(t, w))
  {
    var u := Written(t, w);
    forall f | f in u.log && f !in d.log ensures FirstStep(writes + [w], f, u.log[f]) {
      FirstStepStays(writes, w, f, u.log[f]);
    }
  }

  lemma OneMoreRow(d: Data, writes: seq<Write>, w: Write, t: Data)
    requires RowsStand(d, writes, t)
    ensures RowsStand(d, writes + [w], Written(t, w))
  {
    var u := Written(t, w);
    forall p | p in u.streams && p !in d.streams ensures FirstAt(writes + [w], p.0, p.1, u.streams[p]) {
      FirstAtStays(writes, w, p.0, p.1, u.streams[p]);
    }
  }

  /** A step is recorded by the first write of it and a stream row by the first at its offset, and what there was
      stays. */
  lemma {:induction false} FirstWritesStand(d: Data, writes: seq<Write>)
    ensures StepsStand(d, writes, Run(d, writes)) && RowsStand(d, writes, Run(d, writes))
  {
    if writes != [] {
      var init, w := writes[..|writes| - 1], writes[|writes| - 1];
      FirstWritesStand(d, init);
      OneMoreStep(d, init, w, Run(d, init));
      OneMoreRow(d, init, w, Run(d, init));
      assert writes == init + [w];
    }
  }

  // ---------------------------------------------------------------- bulk fork

  datatype Mapping = Mapping(original: Id, fork: Id, startStep: nat)

  function Replaced(e: Entry, children: map<Id, Id>): Entry {
    if e.child.Some? && e.child.value in children then e.(child := Some(children[e.child.value])) else e
  }

  /** The joined rows the window function ranks for one original and key: which mapping, and which step. */
  function Partition(store: Store, ms: seq<Mapping>, q: (Id, Key)): set<(nat, nat)> {
    if q.0 !in store then {}
    else set i, h | 0 <= i < |ms| && h in store[q.0].history && ms[i].original == q.0 && h.1 == q.1
                    && h.0 < ms[i].startStep :: (i, h.0)
  }

  /** Row number one of each partition, latest step first; among equals the database chooses. */
  ghost predicate Ranked(store: Store, ms: seq<Mapping>, top: map<(Id, Key), (nat, nat)>) {
    && (forall q :: q in top ==> top[q] in Partition(store, ms, q))
    && (forall q, r :: r in Partition(store, ms, q) ==> q in top && r.1 <= top[q].1)
  }

  function LogBelow(log: map<nat, Entry>, s: nat, children: map<Id, Id>): map<nat, Entry> {
    map f | f in log && f < s :: Replaced(log[f], children)
  }

  function HistoryBelow(history: map<(nat, Key), string>, s: nat): map<(nat, Key), string> {
    map h | h in history && h.0 < s :: history[h]
  }

  /** Of the rows ranked first, the ones that came with mapping `i`. */
  function FirstRows(history: map<(nat, Key), string>, o: Id, top: map<(Id, Key), (nat, nat)>, i: nat): map<Key, string>
    requires forall key :: (o, key) in top ==> (top[(o, key)].1, key) in history
  {
    map h | h in history && (o, h.1) in top && top[(o, h.1)] == (i, h.0) :: h.1 := history[h]
  }

  function StreamsBelow(streams: map<(Key, nat), StreamRow>, s: nat): map<(Key, nat), StreamRow> {
    map p | p in streams && streams[p].step < s :: streams[p]
  }

  function Forked(store: Store, ms: seq<Mapping>, top: map<(Id, Key), (nat, nat)>, children: map<Id, Id>,
                  i: nat): Data
    requires i < |ms| && ms[i].original in store && Ranked(store, ms, top)
  {
    var o, d, s := ms[i].original, store[ms[i].original], ms[i].startStep;
    assert forall key :: (o, key) in top ==> top[(o, key)] in Partition(store, ms, (o, key));
    Data(LogBelow(d.log, s, children), HistoryBelow(d.history, s),
         FirstRows(d.history, o, top, i),
         StreamsBelow(d.streams, s))
  }

  /** No two forks of one original share a part of its history. */
  ghost predicate HistoriesApart(store: Store, ms: seq<Mapping>) {
    forall i, j :: 0 <= i < j < |ms| && ms[i].original == ms[j].original && ms[i].original in store ==>
      forall h :: h in store[ms[i].original].history ==> ms[i].startStep <= h.0 || ms[j].startStep <= h.0
  }

  lemma RankedRow(store: Store, ms: seq<Mapping>, top: map<(Id, Key), (nat, nat)>, i: nat, h: (nat, Key))
    requires i < |ms| && ms[i].original in store && Ranked(store, ms, top)
    requires h in store[ms[i].original].history && h.0 < ms[i].startStep
    ensures var q := (ms[i].original, h.1);
            q in top && h.0 <= top[q].1 && top[q].0 < |ms| && ms[top[q].0].original == q.0
            && (top[q].1, h.1) in store[q.0].history && top[q].1 < ms[top[q].0].startStep
  {
    assert (i, h.0) in Partition(store, ms, (ms[i].original, h.1));
  }

  lemma WinsItsRows(store: Store, ms: seq<Mapping>, top: map<(Id, Key), (nat, nat)>, i: nat, h: (nat, Key))
    requires i < |ms| && ms[i].original in store && Ranked(store, ms, top) && HistoriesApart(store, ms)
    requires h in store[ms[i].original].history && h.0 < ms[i].startStep
    ensures (ms[i].original, h.1) in top && top[(ms[i].original, h.1)].0 == i
  {
    RankedRow(store, ms, top, i, h);
    var j, f := top[(ms[i].original, h.1)].0, top[(ms[i].original, h.1)].1;
    assert j == i;
  }

  /** When histories are apart every fork wins the rows it copies. */
  lemma ApartForkIsLatest(store: Store, ms: seq<Mapping>, top: map<(Id, Key), (nat, nat)>, children: map<Id, Id>,
                          i: nat)
    requires i < |ms| && ms[i].original in store && Ranked(store, ms, top) && HistoriesApart(store, ms)
    ensures EventsAreLatest(Forked(store, ms, top, children, i))
  {
    var u, o := Forked(store, ms, top, children, i), ms[i].original;
    forall h | h in u.history
      ensures h.1 in u.events && IsLatest(u.history, top[(o, h.1)].1, h.1)
    {
      WinsItsRows(store, ms, top, i, h);
      assert (top[(o, h.1)].1, h.1) in u.history;
      forall g | g in u.history && g.1 == h.1 ensures g.0 <= top[(o, h.1)].1 {
        RankedRow(store, ms, top, i, g);
      }
    }
    forall key | key in u.events
      ensures exists f :: IsLatest(u.history, f, key) && u.history[(f, key)] == u.events[key]
    {
      assert top[(o, key)] in Partition(store, ms, (o, key));
      assert (top[(o, key)].1, key) in u.history;
    }
  }

  /** Bulk forks get the right events exactly when forks of one original share none of its history; in particular when
      the originals are distinct. */
  lemma BulkForkIsExact(store: Store, ms: seq<Mapping>, top: map<(Id, Key), (nat, nat)>, children: map<Id, Id>)
    requires Ranked(store, ms, top) && forall i :: 0 <= i < |ms| ==> ms[i].original in store
    ensures (forall i :: 0 <= i < |ms| ==> EventsAreLatest(Forked(store, ms, top, children, i)))
            <==> HistoriesApart(store, ms)
  {
    if HistoriesApart(store, ms) {
      forall i | 0 <= i < |ms| ensures EventsAreLatest(Forked(store, ms, top, children, i)) {
        ApartForkIsLatest(store, ms, top, children, i);
      }
    } else {
      var i, j, h :| 0 <= i < j < |ms| && ms[i].original == ms[j].original && ms[i].original in store
                     && h in store[ms[i].original].history && h.0 < ms[i].startStep && h.0 < ms[j].startStep;
      var u, v := Forked(store, ms, top, children, i), Forked(store, ms, top, children, j);
      assert h in u.history && h in v.history;
      assert !(h.1 in u.events && h.1 in v.events);
    }
  }

  // ---------------------------------------------------------------- time travel

  /** The original stands before step `s`: nothing it has written belongs to `s` or a later step. */
  ghost predicate Reached(d: Data, s: nat) {
    && (forall f :: f in d.log ==> f < s)
    && (forall h :: h in d.history ==> h.0 < s)
    && (forall p :: p in d.streams ==> d.streams[p].step < s)
  }

  ghost predicate SameBelow(d: Data, u: Data, s: nat) {
    && (forall children :: LogBelow(d.log, s, children) == LogBelow(u.log, s, children))
    && HistoryBelow(d.history, s) == HistoryBelow(u.history, s)
    && StreamsBelow(d.streams, s) == StreamsBelow(u.streams, s)
  }

  lemma LaterEntryIsNotBelow(log: map<nat, Entry>, f: nat, e: Entry, s: nat, children: map<Id, Id>)
    requires s <= f
    ensures LogBelow(log[f := e], s, children) == LogBelow(log, s, children)
  {
  }

  lemma LaterStepLeavesTheRest(d: Data, w: Write, s: nat)
    requires s <= w.step
    ensures SameBelow(d, Written(d, w), s)
  {
    var u := Written(d, w);
    forall children ensures LogBelow(d.log, s, children) == LogBelow(u.log, s, children) {
      match w
      case Checkpoint(f, entry) => LaterEntryIsNotBelow(d.log, f, entry, s, children);
      case SetEvent(f, _, _) => LaterEntryIsNotBelow(d.log, f, Entry(SET_EVENT, None, None, None), s, children);
      case WriteStream(_, _, _, _) =>
    }
  }

  lemma {:induction false} LaterStepsLeaveTheRest(d: Data, writes: seq<Write>, s: nat)
    requires forall w :: w in writes ==> s <= w.step
    ensures SameBelow(d, Run(d, writes), s)
  {
    if writes != [] {
      LaterStepsLeaveTheRest(d, writes[..|writes| - 1], s);
      LaterStepLeavesTheRest(Run(d, writes[..|writes| - 1]), writes[|writes| - 1], s);
    }
  }

  lemma ReachedIsAllBelow(d: Data, s: nat, children: map<Id, Id>)
    requires Reached(d, s)
    ensures LogBelow(d.log, s, children) == map f | f in d.log :: Replaced(d.log[f], children)
    ensures HistoryBelow(d.history, s) == d.history && StreamsBelow(d.streams, s) == d.streams
  {
  }

  lemma LatestIsDetermined(a: Data, b: Data)
    requires EventsAreLatest(a) && EventsAreLatest(b) && a.history == b.history
    ensures a.events == b.events
  {
    forall key | key in a.events ensures key in b.events && a.events[key] == b.events[key] {
      var f: nat :| IsLatest(a.history, f, key) && a.history[(f, key)] == a.events[key];
      assert (f, key) in b.history;
      var g: nat :| IsLatest(b.history, g, key) && b.history[(g, key)] == b.events[key];
      assert f == g;
    }
    forall key | key in b.events ensures key in a.events {
      var g: nat :| IsLatest(b.history, g, key) && b.history[(g, key)] == b.events[key];
      assert (g, key) in a.history;
    }
  }

  lemma {:induction false} EarlierStepsAreBelow(d: Data, writes: seq<Write>, s: nat)
    requires Reached(d, s) && forall w :: w in writes ==> w.step < s
    ensures Reached(Run(d, writes), s)
  {
    if writes != [] {
      EarlierStepsAreBelow(d, writes[..|writes| - 1], s);
    }
  }

  /** A copied step has the name, output and error of the original's; its child is replaced where that was asked for. */
  ghost predicate CopiedEntry(e: Entry, copy: Entry, children: map<Id, Id>) {
    && copy.name == e.name && copy.output == e.output && copy.error == e.error
    && (e.child.None? ==> copy.child.None?)
    && (e.child.Some? && e.child.value in children ==> copy.child == Some(children[e.child.value]))
    && (e.child.Some? && e.child.value !in children ==> copy.child == e.child)
  }

  ghost predicate CopiedLog(log: map<nat, Entry>, copy: map<nat, Entry>, children: map<Id, Id>) {
    copy.Keys == log.Keys && forall f :: f in log ==> CopiedEntry(log[f], copy[f], children)
  }

  lemma ReplacedCopies(log: map<nat, Entry>, children: map<Id, Id>)
    ensures CopiedLog(log, map f | f in log :: Replaced(log[f], children), children)
  {
  }

  lemma ForkHasPast(start: Data, earlier: seq<Write>, later: seq<Write>, store: Store, ms: seq<Mapping>,
                         top: map<(Id, Key), (nat, nat)>, children: map<Id, Id>, i: nat)
    requires Ranked(store, ms, top) && HistoriesApart(store, ms) && i < |ms| && ms[i].original in store
    requires EventsAreLatest(start) && Reached(start, ms[i].startStep) && RunsInOrder(start, earlier)
    requires forall w :: w in earlier ==> w.step < ms[i].startStep
    requires forall w :: w in later ==> ms[i].startStep <= w.step
    requires store[ms[i].original] == Run(Run(start, earlier), later)
    ensures var u, past := Forked(store, ms, top, children, i), Run(start, earlier);
            && u.log == (map f | f in past.log :: Replaced(past.log[f], children))
            && u.history == past.history && u.events == past.events && u.streams == past.streams
  {
    var past, s := Run(start, earlier), ms[i].startStep;
    RunKeepsLatest(start, earlier);
    EarlierStepsAreBelow(start, earlier, s);
    LaterStepsLeaveTheRest(past, later, s);
    ReachedIsAllBelow(past, s, children);
    assert EventsAreLatest(Forked(store, ms, top, children, i)) by {
      ApartForkIsLatest(store, ms, top, children, i);
    }
    LatestIsDetermined(Forked(store, ms, top, children, i), past);
  }

  /** A fork at step `s` has the log, events, history and streams its original had on reaching `s`, whatever the
      original has done since, and only with the children replaced that were to be. */
  lemma ForkIsTimeTravel(start: Data, earlier: seq<Write>, later: seq<Write>, store: Store, ms: seq<Mapping>,
                         top: map<(Id, Key), (nat, nat)>, children: map<Id, Id>, i: nat)
    requires Ranked(store, ms, top) && HistoriesApart(store, ms) && i < |ms| && ms[i].original in store
    requires EventsAreLatest(start) && Reached(start, ms[i].startStep) && RunsInOrder(start, earlier)
    requires forall w :: w in earlier ==> w.step < ms[i].startStep
    requires forall w :: w in later ==> ms[i].startStep <= w.step
    requires store[ms[i].original] == Run(Run(start, earlier), later)
    ensures var u, past := Forked(store, ms, top, children, i), Run(start, earlier);
            && CopiedLog(past.log, u.log, children)
            && u.history == past.history && u.events == past.events && u.streams == past.streams
  {
    ForkHasPast(start, earlier, later, store, ms, top, children, i);
    ReplacedCopies(Run(start, earlier).log, children);
  }

  // ---------------------------------------------------------------- the operations

  datatype SetResult = Wrote | Replayed | UnexpectedStep | NoWorkflow | WorkflowCancelled

  predicate Forkable(store: Store, ms: seq<Mapping>) {
    && (forall i :: 0 <= i < |ms| ==> ms[i].original in store && ms[i].fork !in store)
    && (forall i, j :: 0 <= i < j < |ms| ==> ms[i].fork != ms[j].fork)
  }

  ghost predicate Inserted(store: Store, more: Store, ms: seq<Mapping>, copies: seq<Data>, n: nat)
    requires n <= |ms| == |copies|
  {
    && more.Keys == store.Keys + (set i | 0 <= i < n :: ms[i].fork)
    && (forall id :: id in store ==> more[id] == store[id])
    && (forall i :: 0 <= i < n ==> more[ms[i].fork] == copies[i])
  }

  /** What a fork takes over: the steps below its own, their settings of events and their stream rows, and of each event
      the latest such setting. */
  ghost predicate TakesOver(d: Data, u: Data, s: nat, children: map<Id, Id>) {
    && (forall f :: f in u.log <==> f in d.log && f < s)
    && (forall f :: f in u.log ==> CopiedEntry(d.log[f], u.log[f], children))
    && (forall h :: h in u.history <==> h in d.history && h.0 < s)
    && (forall h :: h in u.history ==> u.history[h] == d.history[h])
    && (forall p :: p in u.streams <==> p in d.streams && d.streams[p].step < s)
    && (forall p :: p in u.streams ==> u.streams[p] == d.streams[p])
    && (forall key :: key in u.events ==>
          exists f :: IsLatest(u.history, f, key) && u.events[key] == u.history[(f, key)])
  }

  lemma ForkTakesOver(store: Store, ms: seq<Mapping>, top: map<(Id, Key), (nat, nat)>, children: map<Id, Id>, i: nat)
    requires i < |ms| && ms[i].original in store && Ranked(store, ms, top)
    ensures TakesOver(store[ms[i].original], Forked(store, ms, top, children, i), ms[i].startStep, children)
  {
    var o, u := ms[i].original, Forked(store, ms, top, children, i);
    forall key | key in u.events
      ensures exists f :: IsLatest(u.history, f, key) && u.events[key] == u.history[(f, key)]
    {
      var f := top[(o, key)].1;
      assert top[(o, key)] in Partition(store, ms, (o, key));
      forall h | h in u.history && h.1 == key ensures h.0 <= f {
        RankedRow(store, ms, top, i, h);
      }
      assert IsLatest(u.history, f, key);
    }
  }

  lemma InsertOne(store: Store, more: Store, ms: seq<Mapping>, copies: seq<Data>, n: nat)
    requires Forkable(store, ms) && n < |ms| == |copies| && Inserted(store, more, ms, copies, n)
    ensures Inserted(store, more[ms[n].fork := copies[n]], ms, copies, n + 1)
  {
    var forks, next := set i | 0 <= i < n :: ms[i].fork, set i | 0 <= i < n + 1 :: ms[i].fork;
    assert next == forks + {ms[n].fork};
  }

  function Joined(store: Store, ms: seq<Mapping>): set<(Id, Key)> {
    set i, h | 0 <= i < |ms| && ms[i].original in store && h in store[ms[i].original].history
               && h.0 < ms[i].startStep :: (ms[i].original, h.1)
  }

  lemma JoinedIsPartitioned(store: Store, ms: seq<Mapping>, q: (Id, Key))
    ensures q in Joined(store, ms) <==> |Partition(store, ms, q)| > 0
  {
    if q in Joined(store, ms) {
      var i, h :| 0 <= i < |ms| && ms[i].original in store && h in store[ms[i].original].history
                  && h.0 < ms[i].startStep && q == (ms[i].original, h.1);
      assert (i, h.0) in Partition(store, ms, q);
    }
    forall r | r in Partition(store, ms, q) ensures q in Joined(store, ms) {
    }
  }

  /** ROW_NUMBER() .. ORDER BY function_id DESC, first row. */
  method FirstRow(rows: set<(nat, nat)>) returns (first: (nat, nat))
    requires |rows| > 0
    ensures first in rows && forall r :: r in rows ==> r.1 <= first.1
  {
    first :| first in rows;
    var rest := rows - {first};
    while rest != {}
      invariant rest <= rows && first in rows
      invariant forall r :: r in rows - rest ==> r.1 <= first.1
      decreases rest
    {
      var r :| r in rest;
      if first.1 < r.1 {
        first := r;
      }
      rest := rest - {r};
    }
  }

  method RankEach(parts: map<(Id, Key), set<(nat, nat)>>) returns (top: map<(Id, Key), (nat, nat)>)
    requires forall q :: q in parts ==> |parts[q]| > 0
    ensures top.Keys == parts.Keys
    ensures forall q :: q in top ==> top[q] in parts[q] && forall r :: r in parts[q] ==> r.1 <= top[q].1
  {
    top := map[];
    var rest := parts.Keys;
    while rest != {}
      invariant rest <= parts.Keys && top.Keys == parts.Keys - rest
      invariant forall q :: q in top ==> top[q] in parts[q] && forall r :: r in parts[q] ==> r.1 <= top[q].1
      decreases rest
    {
      var q :| q in rest;
      var first := FirstRow(parts[q]);
      top, rest := top[q := first], rest - {q};
    }
  }

  /** The window: the joined rows, partition by partition. */
  method Rank(store: Store, ms: seq<Mapping>) returns (top: map<(Id, Key), (nat, nat)>)
    ensures Ranked(store, ms, top)
  {
    forall q ensures q in Joined(store, ms) <==> |Partition(store, ms, q)| > 0 {
      JoinedIsPartitioned(store, ms, q);
    }
    top := RankEach(map q | q in Joined(store, ms) :: Partition(store, ms, q));
  }

  class SystemTables {
    var data: Store

    constructor (data: Store)
      ensures this.data == data
    {
      this.data := data;
    }

    /** In its transaction: nothing for a cancelled workflow, a replay writes nothing, and a missing workflow fails the
        insert. */
    method SetEvent(id: Id, cancelled: bool, step: nat, key: Key, value: string) returns (r: SetResult)
      modifies this
      ensures r.WorkflowCancelled? <==> cancelled
      ensures r.Wrote? <==> !cancelled && id in old(data) && step !in old(data)[id].log
      ensures data == if r.Wrote? then old(data)[id := Written(old(data)[id], Write.SetEvent(step, key, value))]
                      else old(data)
      ensures r.Replayed? <==> !cancelled && id in data && step in old(data)[id].log
                               && old(data)[id].log[step].name == SET_EVENT
      ensures r.NoWorkflow? <==> !cancelled && id !in data
    {
      if cancelled { return WorkflowCancelled; }
      if id !in data { return NoWorkflow; }
      var d := data[id];
      if step in d.log {
        return if d.log[step].name != SET_EVENT then UnexpectedStep else Replayed;
      }
      d := d.(events := d.events[key := value], history := d.history[(step, key) := value]);
      d := d.(log := d.log[step := Entry(SET_EVENT, None, None, None)]);
      data := data[id := d];
      return Wrote;
    }

    method InsertAll(ms: seq<Mapping>, copies: seq<Data>)
      requires Forkable(data, ms) && |copies| == |ms|
      modifies this
      ensures Inserted(old(data), data, ms, copies, |ms|)
    {
      for i := 0 to |ms|
        invariant Inserted(old(data), data, ms, copies, i)
      {
        InsertOne(old(data), data, ms, copies, i);
        data := data[ms[i].fork := copies[i]];
      }
    }

    /** One transaction: every fork, or nothing. */
    method BulkForkWorkflows(ms: seq<Mapping>, children: map<Id, Id>)
      returns (ok: bool, ghost top: map<(Id, Key), (nat, nat)>)
      modifies this
      ensures ok <==>
                && (forall m :: m in ms ==> m.original in old(data) && m.fork !in old(data))
                && (forall i, j :: 0 <= i < j < |ms| ==> ms[i].fork != ms[j].fork)
      ensures !ok ==> data == old(data)
      ensures ok ==> Ranked(old(data), ms, top)
      ensures ok ==> forall id :: id in old(data) ==> id in data && data[id] == old(data)[id]
      ensures ok ==> data.Keys == old(data).Keys + set i | 0 <= i < |ms| :: ms[i].fork
      ensures ok ==> forall i :: 0 <= i < |ms| ==> data[ms[i].fork] == Forked(old(data), ms, top, children, i)
      ensures ok ==> forall i :: 0 <= i < |ms| ==>
                TakesOver(old(data)[ms[i].original], data[ms[i].fork], ms[i].startStep, children)
      ensures ok && HistoriesApart(old(data), ms) ==>
                forall i :: 0 <= i < |ms| ==> EventsAreLatest(data[ms[i].fork])
    {
      top := map[];
      if !Forkable(data, ms) { return false, top; }
      var store := data;
      var ranked := Rank(store, ms);
      top := ranked;
      var copies := seq(|ms|, i requires 0 <= i < |ms| => Forked(store, ms, ranked, children, i));
      InsertAll(ms, copies);
      forall i | 0 <= i < |ms| ensures TakesOver(store[ms[i].original], data[ms[i].fork], ms[i].startStep, children) {
        ForkTakesOver(store, ms, top, children, i);
      }
      if HistoriesApart(store, ms) {
        forall i | 0 <= i < |ms| ensures EventsAreLatest(data[ms[i].fork]) {
          ApartForkIsLatest(store, ms, top, children, i);
        }
      }
      return true, top;
    }
  }
}
