/** Creation stamps of batched enqueues: per partition key they follow the order of assignment, whatever the clock
    does. */
module BatchCursors {
  import opened Wrappers

  type Key = string
  type Cursors = map<Key, int>

  function Max(a: int, b: int): int {
    if a < b then b else a
  }

  function CursorOf(c: Cursors, k: Key): int {
    if k in c then c[k] else 0
  }

  /** The keys of a batch that have no cursor yet. */
  function Unseen(c: Cursors, keys: seq<Option<Key>>): set<Key> {
    set key | key in keys && key.Some? && key.value !in c :: key.value
  }

  /** The database maxima raise cursors and never lower one. */
  function Seeded(c: Cursors, seeds: map<Key, int>): Cursors {
    map k | k in c.Keys + seeds.Keys :: if k in seeds then Max(CursorOf(c, k), seeds[k] + 1) else c[k]
  }

  /** One row at a time: at least the clock, at least the cursor, and the cursor moves past it. */
  function StampOf(c: Cursors, now: int, key: Option<Key>): int {
    if key.Some? then Max(now, CursorOf(c, key.value)) else now
  }

  function After(c: Cursors, now: int, keys: seq<Option<Key>>): Cursors {
    if keys == [] then c
    else
      var before, key := After(c, now, keys[..|keys| - 1]), keys[|keys| - 1];
      if key.Some? then before[key.value := StampOf(before, now, key) + 1] else before
  }

  function Stamps(c: Cursors, now: int, keys: seq<Option<Key>>): (stamps: seq<int>)
    ensures |stamps| == |keys|
  {
    if keys == [] then []
    else
      var init := keys[..|keys| - 1];
      Stamps(c, now, init) + [StampOf(After(c, now, init), now, keys[|keys| - 1])]
  }

  lemma {:induction false} CursorsGrow(c: Cursors, now: int, keys: seq<Option<Key>>)
    ensures c.Keys <= After(c, now, keys).Keys
    ensures forall k :: k in After(c, now, keys) ==> CursorOf(c, k) <= After(c, now, keys)[k]
    ensures forall k :: k in After(c, now, keys) ==> k in c || Some(k) in keys
    ensures forall k :: Some(k) in keys ==> k in After(c, now, keys)
  {
    if keys != [] {
      CursorsGrow(c, now, keys[..|keys| - 1]);
    }
  }

  /** A row with a key is stamped between the key's cursors before and after the batch; one without gets the clock. */
  lemma {:induction false} StampIsBetween(c: Cursors, now: int, keys: seq<Option<Key>>, i: nat)
    requires i < |keys|
    ensures if keys[i].None? then Stamps(c, now, keys)[i] == now
            else CursorOf(c, keys[i].value) <= Stamps(c, now, keys)[i] < CursorOf(After(c, now, keys), keys[i].value)
  {
    var init := keys[..|keys| - 1];
    if i < |init| {
      StampIsBetween(c, now, init, i);
    } else {
      CursorsGrow(c, now, init);
    }
  }

  /** Within a batch the stamps of a key increase. */
  lemma {:induction false} StampsIncrease(c: Cursors, now: int, keys: seq<Option<Key>>, i: nat, j: nat)
    requires i < j < |keys| && keys[i].Some? && keys[i] == keys[j]
    ensures Stamps(c, now, keys)[i] < Stamps(c, now, keys)[j]
  {
    var init := keys[..|keys| - 1];
    if j < |init| {
      StampsIncrease(c, now, init, i, j);
    } else {
      StampIsBetween(c, now, init, i);
    }
  }

  function Occurrences(keys: seq<Option<Key>>, key: Option<Key>): nat {
    if keys == [] then 0
    else Occurrences(keys[..|keys| - 1], key) + if keys[|keys| - 1] == key then 1 else 0
  }

  lemma {:induction false} CursorIsExact(c: Cursors, now: int, keys: seq<Option<Key>>, k: Key)
    ensures var n := Occurrences(keys, Some(k));
            CursorOf(After(c, now, keys), k) == if n == 0 then CursorOf(c, k) else Max(now, CursorOf(c, k)) + n
  {
    if keys != [] {
      CursorIsExact(c, now, keys[..|keys| - 1], k);
    }
  }

  lemma {:induction false} StampIsConsecutive(c: Cursors, now: int, keys: seq<Option<Key>>, i: nat)
    requires i < |keys| && keys[i].Some?
    ensures Stamps(c, now, keys)[i] == Max(now, CursorOf(c, keys[i].value)) + Occurrences(keys[..i], keys[i])
    decreases |keys|
  {
    var init := keys[..|keys| - 1];
    if i < |init| {
      StampIsConsecutive(c, now, init, i);
      assert init[..i] == keys[..i];
    } else {
      CursorIsExact(c, now, init, keys[i].value);
    }
  }

  /** The stamps of a key are consecutive, from the least that is no earlier than the clock, no less than the key's
      cursor, and above its rows in the table. */
  lemma StampIsExact(c: Cursors, seeds: map<Key, int>, now: int, keys: seq<Option<Key>>, i: nat)
    requires i < |keys| && keys[i].Some?
    ensures var k := keys[i].value;
            var first := Stamps(Seeded(c, seeds), now, keys)[i] - Occurrences(keys[..i], keys[i]);
            && now <= first && (k in c ==> c[k] <= first) && (k in seeds ==> seeds[k] < first)
            && (|| first == now || (k in c && first == c[k]) || (k in seeds && first == seeds[k] + 1)
                || (k !in c && first == 0))
  {
    StampIsConsecutive(Seeded(c, seeds), now, keys, i);
  }

  /** A row of the table or on its way there; `number` is its place in the order of assignment, and `batched` says
      whether this process stamped it in a batch. */
  datatype Row = Row(key: Option<Key>, stamp: int, number: nat, batched: bool)

  /** What the query returns: for each key with a waiting row, its greatest stamp. */
  ghost predicate AreMaxima(rows: set<Row>, unseen: set<Key>, seeds: map<Key, int>) {
    && seeds.Keys <= unseen
    && (forall k, r :: k in unseen && r in rows && r.key == Some(k) ==> k in seeds && r.stamp <= seeds[k])
    && (forall k :: k in seeds ==> exists r :: r in rows && r.key == Some(k) && r.stamp == seeds[k])
  }

  lemma MaximaGrow(rows: set<Row>, unseen: set<Key>, seeds: map<Key, int>, r: Row)
    requires AreMaxima(rows, unseen, seeds)
    ensures AreMaxima(rows + {r}, unseen,
                      if r.key.None? || r.key.value !in unseen then seeds
                      else var k := r.key.value; seeds[k := if k in seeds then Max(seeds[k], r.stamp) else r.stamp])
  {
    var more := if r.key.None? || r.key.value !in unseen then seeds
                else var k := r.key.value; seeds[k := if k in seeds then Max(seeds[k], r.stamp) else r.stamp];
    forall k | k in more ensures exists q :: q in rows + {r} && q.key == Some(k) && q.stamp == more[k] {
      if k in seeds && more[k] == seeds[k] {
        var q :| q in rows && q.key == Some(k) && q.stamp == seeds[k];
        assert q in rows + {r};
      } else {
        assert r in rows + {r};
      }
    }
  }

  /** A stamp between the key's cursors before and after, and above the key's waiting rows where the key was new;
      without a key the clock. */
  ghost predicate StampFits(c: Cursors, d: Cursors, now: int, waiting: set<Row>, key: Option<Key>, stamp: int) {
    if key.None? then stamp == now
    else
      && CursorOf(c, key.value) <= stamp < CursorOf(d, key.value)
      && (key.value !in c ==> forall r :: r in waiting && r.key == key ==> r.stamp < stamp)
  }

  lemma SeedsExceedRows(c: Cursors, seeds: map<Key, int>, waiting: set<Row>, unseen: set<Key>, r: Row)
    requires AreMaxima(waiting, unseen, seeds) && r in waiting && r.key.Some? && r.key.value in unseen
    ensures r.stamp < CursorOf(Seeded(c, seeds), r.key.value)
  {
    assert r.key == Some(r.key.value);
  }

  lemma SeedingRaises(c: Cursors, seeds: map<Key, int>, k: Key)
    ensures CursorOf(c, k) <= CursorOf(Seeded(c, seeds), k)
  {
  }

  lemma StampIsFitting(c: Cursors, seeds: map<Key, int>, now: int, waiting: set<Row>, keys: seq<Option<Key>>, i: nat)
    requires i < |keys| && AreMaxima(waiting, Unseen(c, keys), seeds)
    ensures var d := Seeded(c, seeds);
            StampFits(c, After(d, now, keys), now, waiting, keys[i], Stamps(d, now, keys)[i])
  {
    var d := Seeded(c, seeds);
    StampIsBetween(d, now, keys, i);
    if keys[i].Some? {
      SeedingRaises(c, seeds, keys[i].value);
      if keys[i].value !in c {
        forall r | r in waiting && r.key == keys[i] ensures r.stamp < CursorOf(d, keys[i].value) {
          SeedsExceedRows(c, seeds, waiting, Unseen(c, keys), r);
        }
      }
    }
  }

  /** The process's cursors. */
  class BatchClock {
    var cursors: Cursors

    constructor ()
      ensures cursors == map[]
    {
      cursors := map[];
    }

    method UnseenKeys(keys: seq<Option<Key>>) returns (unseen: set<Key>)
      ensures unseen == Unseen(cursors, keys)
    {
      unseen := {};
      for i := 0 to |keys|
        invariant unseen == Unseen(cursors, keys[..i])
      {
        if keys[i].Some? && keys[i].value !in cursors {
          unseen := unseen + {keys[i].value};
        }
      }
      assert keys[..|keys|] == keys;
    }

    /** SELECT MAX(created_at) .. GROUP BY queue_partition_key, over the waiting rows. */
    static method MaxPartitionKeyCreatedAt(waiting: set<Row>, unseen: set<Key>) returns (maxima: map<Key, int>)
      ensures AreMaxima(waiting, unseen, maxima)
    {
      maxima := map[];
      var rest := waiting;
      while rest != {}
        invariant rest <= waiting && AreMaxima(waiting - rest, unseen, maxima)
        decreases rest
      {
        var r :| r in rest;
        var seen := waiting - rest;
        rest := rest - {r};
        assert waiting - rest == seen + {r};
        MaximaGrow(seen, unseen, maxima, r);
        if r.key.Some? && r.key.value in unseen {
          var k := r.key.value;
          maxima := maxima[k := if k in maxima then Max(maxima[k], r.stamp) else r.stamp];
        }
      }
      assert waiting - {} == waiting;
    }

    /** The whole assignment of a batch that no other overlaps: the stamps of a key increase, from its cursor on or, if
        the key is new here, from above its waiting rows. */
    method StampBatch(now: int, waiting: set<Row>, keys: seq<Option<Key>>) returns (createdAts: seq<int>)
      modifies this
      ensures |createdAts| == |keys|
      ensures forall i :: 0 <= i < |keys| ==>
                StampFits(old(cursors), cursors, now, waiting, keys[i], createdAts[i])
      ensures forall i, j :: 0 <= i < j < |keys| && keys[i].Some? && keys[i] == keys[j] ==>
                createdAts[i] < createdAts[j]
    {
      var unseen := UnseenKeys(keys);
      var seeds := MaxPartitionKeyCreatedAt(waiting, unseen);
      ghost var seeded := Seeded(cursors, seeds);
      createdAts := AssignBatchCreatedAt(now, seeds, keys);
      forall i | 0 <= i < |keys| ensures StampFits(old(cursors), cursors, now, waiting, keys[i], createdAts[i]) {
        StampIsFitting(old(cursors), seeds, now, waiting, keys, i);
      }
      forall i, j | 0 <= i < j < |keys| && keys[i].Some? && keys[i] == keys[j] ensures createdAts[i] < createdAts[j] {
        StampsIncrease(seeded, now, keys, i, j);
      }
    }

    method RaiseCursors(seeds: map<Key, int>)
      modifies this
      ensures cursors == Seeded(old(cursors), seeds)
    {
      var rest := seeds.Keys;
      while rest != {}
        invariant rest <= seeds.Keys && cursors.Keys == old(cursors).Keys + seeds.Keys - (rest - old(cursors).Keys)
        invariant forall k :: k in cursors ==>
          cursors[k] == if k in seeds && k !in rest then Max(CursorOf(old(cursors), k), seeds[k] + 1)
                        else old(cursors)[k]
        decreases rest
      {
        var k :| k in rest;
        cursors, rest := cursors[k := Max(CursorOf(cursors, k), seeds[k] + 1)], rest - {k};
      }
    }

    /** The synchronous section after the maxima were read: the batch's next values are kept aside and stored at the
        end, which gives every row what stamping one row at a time would. */
    method AssignBatchCreatedAt(now: int, seeds: map<Key, int>, keys: seq<Option<Key>>) returns (createdAts: seq<int>)
      modifies this
      ensures cursors == After(Seeded(old(cursors), seeds), now, keys)
      ensures createdAts == Stamps(Seeded(old(cursors), seeds), now, keys)
    {
      RaiseCursors(seeds);
      createdAts := [];
      var nextForKey: map<Key, int> := map[];
      for i := 0 to |keys|
        invariant cursors == Seeded(old(cursors), seeds)
        invariant createdAts == Stamps(cursors, now, keys[..i]) && IsNext(cursors, now, keys[..i], nextForKey)
      {
        NextStamp(cursors, now, keys, i, nextForKey);
        var key := keys[i];
        if key.None? {
          createdAts := createdAts + [now];
        } else {
          var k := key.value;
          var value := if k in nextForKey then nextForKey[k] else Max(now, CursorOf(cursors, k));
          createdAts, nextForKey := createdAts + [value], nextForKey[k := value + 1];
        }
      }
      assert keys[..|keys|] == keys;
      cursors := cursors + nextForKey;
    }
  }

  /** The values kept aside are the cursors the rows so far have moved. */
  ghost predicate IsNext(c: Cursors, now: int, keys: seq<Option<Key>>, next: map<Key, int>) {
    After(c, now, keys) == c + next && forall k :: k in next ==> now < next[k]
  }

  lemma NextStamp(c: Cursors, now: int, keys: seq<Option<Key>>, i: nat, next: map<Key, int>)
    requires i < |keys| && IsNext(c, now, keys[..i], next)
    ensures var key := keys[i];
            var value := if key.None? then now
                         else if key.value in next then next[key.value] else Max(now, CursorOf(c, key.value));
            && Stamps(c, now, keys[..i + 1]) == Stamps(c, now, keys[..i]) + [value]
            && IsNext(c, now, keys[..i + 1], if key.None? then next else next[key.value := value + 1])
  {
    assert keys[..i + 1][..i] == keys[..i];
    if keys[i].Some? {
      var k := keys[i].value;
      var value := if k in next then next[k] else Max(now, CursorOf(c, k));
      assert value == StampOf(c + next, now, keys[i]);
      assert (c + next)[k := value + 1] == c + next[k := value + 1];
    }
  }

  // ---------------------------------------------------------------- batches, the database and restarts

  datatype Call =
    | Begun(now: int, keys: seq<Option<Key>>, unseen: set<Key>)
    | Read(now: int, keys: seq<Option<Key>>, seeds: map<Key, int>)
    | Stamped(rows: set<Row>)

  /** `waiting` are the ENQUEUED and PENDING rows, `gone` the rows with any other status. Rows are numbered as they are
      assigned; `since` is the first number since the last restart. No statement reads the numbers. */
  datatype State = State(cursors: Cursors, calls: map<nat, Call>, waiting: set<Row>, gone: set<Row>, next: nat,
                         since: nat)

  datatype Event =
    | Begin(call: nat, now: int, keys: seq<Option<Key>>)
    | ReadMaxima(call: nat, seeds: map<Key, int>)
    | Assign(call: nat)
    | Commit(call: nat)
    | Leave(row: Row)
    | Return(row: Row)
    | Enter(key: Option<Key>, stamp: int)      // a row inserted singly, or by another process
    | Restart

  function NewRows(c: Cursors, now: int, keys: seq<Option<Key>>, next: nat): set<Row> {
    set i | 0 <= i < |keys| :: Row(keys[i], Stamps(c, now, keys)[i], next + i, true)
  }

  function Entrant(s: State, key: Option<Key>, stamp: int): Row {
    Row(key, stamp, s.next, false)
  }

  function Joined(s: State, r: Row): State {
    s.(waiting := s.waiting + {r}, gone := s.gone - {r})
  }

  ghost function Step(s: State, e: Event): State {
    match e
    case Begin(n, now, keys) =>
      if n in s.calls then s
      else s.(calls := s.calls[n := Begun(now, keys, Unseen(s.cursors, keys))])
    case ReadMaxima(n, seeds) =>
      if n in s.calls && s.calls[n].Begun? && AreMaxima(s.waiting, s.calls[n].unseen, seeds)
      then s.(calls := s.calls[n := Read(s.calls[n].now, s.calls[n].keys, seeds)]) else s
    case Assign(n) =>
      if n in s.calls && s.calls[n].Read? then
        var c, call := Seeded(s.cursors, s.calls[n].seeds), s.calls[n];
        s.(cursors := After(c, call.now, call.keys), next := s.next + |call.keys|,
           calls := s.calls[n := Stamped(NewRows(c, call.now, call.keys, s.next))])
      else s
    case Commit(n) =>
      if n in s.calls && s.calls[n].Stamped?
      then s.(calls := s.calls - {n}, waiting := s.waiting + s.calls[n].rows) else s
    case Leave(r) => if r in s.waiting then s.(waiting := s.waiting - {r}, gone := s.gone + {r}) else s
    case Return(r) => if r in s.gone then Joined(s, r) else s
    case Enter(k, stamp) => Joined(s, Entrant(s, k, stamp)).(next := s.next + 1)
    case Restart => s.(cursors := map[], calls := map[], since := s.next)
  }

  /** What one event does to the table: a stamped batch comes in whole and once, a row that leaves is gone until it
      returns, and nothing else moves. */
  lemma RowsComeAndGo(s: State, e: Event)
    ensures var n := Step(s, e);
            && (e.Commit? && e.call in s.calls && s.calls[e.call].Stamped? ==>
                  n.waiting == s.waiting + s.calls[e.call].rows && e.call !in n.calls && n.gone == s.gone)
            && (e.Leave? && e.row in s.waiting ==> n.waiting == s.waiting - {e.row} && n.gone == s.gone + {e.row})
            && (e.Return? && e.row in s.gone ==> n.waiting == s.waiting + {e.row} && n.gone == s.gone - {e.row})
            && (e.Enter? ==>
                  && n.waiting == s.waiting + {Row(e.key, e.stamp, s.next, false)} && n.next == s.next + 1)
            && (e.Begin? || e.ReadMaxima? || e.Assign? || e.Restart? ==> n.waiting == s.waiting && n.gone == s.gone)
            && (e.Restart? ==> n.calls == map[] && n.cursors == map[] && n.since == s.next)
            && (!e.Restart? ==>
                  && n.since == s.since
                  && (forall i :: i in s.calls && !((e.ReadMaxima? || e.Assign? || e.Commit?) && e.call == i) ==>
                        i in n.calls && n.calls[i] == s.calls[i]))
            && (!e.Assign? && !e.Restart? ==> n.cursors == s.cursors)
  {
  }

  ghost function Run(s: State, events: seq<Event>): State {
    if events == [] then s else Step(Run(s, events[..|events| - 1]), events[|events| - 1])
  }

  const START := State(map[], map[], {}, {}, 0, 0)

  function InFlight(s: State): set<Row> {
    set n, r | n in s.calls && s.calls[n].Stamped? && r in s.calls[n].rows :: r
  }

  function AllRows(s: State): set<Row> {
    s.waiting + s.gone + InFlight(s)
  }

  /** Assigned later, stamped later. */
  ghost predicate InOrder(rows: set<Row>) {
    forall a, b :: a in rows && b in rows && a.key.Some? && a.key == b.key && a.number < b.number ==> a.stamp < b.stamp
  }

  ghost predicate Below(rows: set<Row>, c: Cursors) {
    forall r :: r in rows && r.key.Some? && r.key.value in c ==> r.stamp < c[r.key.value]
  }

  /** What a key gets from a batch that was read, if it is still without a cursor. */
  function FirstStamp(c: Cursors, call: Call, key: Option<Key>): int
    requires call.Read?
  {
    StampOf(Seeded(c, call.seeds), call.now, key)
  }

  /** A batch on its way either knows the cursor of each of its keys or will stamp them above the key's waiting rows. */
  ghost predicate CallOk(call: Call, c: Cursors, waiting: set<Row>) {
    match call
    case Begun(_, keys, unseen) =>
      && (forall k :: k in unseen ==> Some(k) in keys)
      && (forall k :: Some(k) in keys ==> k in c || k in unseen)
    case Read(_, keys, seeds) =>
      && (forall k :: k in seeds ==> Some(k) in keys)
      && (forall r :: r in waiting && r.key.Some? && r.key in keys && r.key.value !in c ==>
            r.stamp < FirstStamp(c, call, r.key))
    case Stamped(rows) => Below(rows, c) && forall r :: r in rows && r.key.Some? ==> r.key.value in c
  }

  ghost predicate Numbered(s: State) {
    s.since <= s.next && forall r :: r in AllRows(s) ==> r.number < s.next
  }

  // ---------------------------------------------------------------- within one life of the process

  /** Every row of a batch assigned since the last restart, whatever has become of it. */
  function RecentRows(s: State): set<Row> {
    set r | r in AllRows(s) && r.batched && s.since <= r.number
  }

  ghost predicate RecentOk(s: State) {
    && Numbered(s) && InOrder(RecentRows(s))
    && (forall r :: r in RecentRows(s) && r.key.Some? ==> r.key.value in s.cursors && r.stamp < s.cursors[r.key.value])
  }

  ghost predicate Raised(c: Cursors, d: Cursors) {
    forall k :: k in c ==> k in d && c[k] <= d[k]
  }

  lemma AssignRaises(s: State, n: nat)
    requires n in s.calls && s.calls[n].Read?
    ensures Raised(s.cursors, Step(s, Assign(n)).cursors)
    ensures Raised(s.cursors, Seeded(s.cursors, s.calls[n].seeds))
  {
    CursorsGrow(Seeded(s.cursors, s.calls[n].seeds), s.calls[n].now, s.calls[n].keys);
  }

  lemma NewRowsAreInOrder(c: Cursors, now: int, keys: seq<Option<Key>>, next: nat)
    ensures InOrder(NewRows(c, now, keys, next))
  {
    forall i, j | 0 <= i < j < |keys| && keys[i].Some? && keys[i] == keys[j]
      ensures Stamps(c, now, keys)[i] < Stamps(c, now, keys)[j]
    {
      StampsIncrease(c, now, keys, i, j);
    }
  }

  lemma NewRowIsBetween(c: Cursors, now: int, keys: seq<Option<Key>>, next: nat, r: Row)
    requires r in NewRows(c, now, keys, next) && r.key.Some?
    ensures r.key in keys && next <= r.number < next + |keys|
    ensures CursorOf(c, r.key.value) <= r.stamp < CursorOf(After(c, now, keys), r.key.value)
    ensures StampOf(c, now, r.key) <= r.stamp && r.key.value in After(c, now, keys)
  {
    var i :| 0 <= i < |keys| && r == Row(keys[i], Stamps(c, now, keys)[i], next + i, true);
    StampIsBetween(c, now, keys, i);
    StampIsLate(c, now, keys, i);
    CursorsGrow(c, now, keys);
  }

  lemma {:induction false} StampIsLate(c: Cursors, now: int, keys: seq<Option<Key>>, i: nat)
    requires i < |keys|
    ensures StampOf(c, now, keys[i]) <= Stamps(c, now, keys)[i]
  {
    var init := keys[..|keys| - 1];
    if i < |init| {
      StampIsLate(c, now, init, i);
    } else {
      CursorsGrow(c, now, init);
    }
  }

  lemma AssignedRows(s: State, n: nat)
    requires n in s.calls && s.calls[n].Read?
    ensures var t, call := Step(s, Assign(n)), s.calls[n];
            InFlight(t) == InFlight(s) + NewRows(Seeded(s.cursors, call.seeds), call.now, call.keys, s.next)
  {
    var t := Step(s, Assign(n));
    forall r | r in InFlight(s) ensures r in InFlight(t) {
      var m :| m in s.calls && s.calls[m].Stamped? && r in s.calls[m].rows;
      assert m in t.calls && t.calls[m] == s.calls[m];
    }
    assert n in t.calls && t.calls[n].Stamped?;
  }

  lemma AssignKeepsRecent(s: State, n: nat)
    requires RecentOk(s) && n in s.calls && s.calls[n].Read?
    ensures RecentOk(Step(s, Assign(n)))
  {
    var t, call := Step(s, Assign(n)), s.calls[n];
    var c := Seeded(s.cursors, call.seeds);
    var rows := NewRows(c, call.now, call.keys, s.next);
    AssignedRows(s, n);
    AssignRaises(s, n);
    NewRowsAreInOrder(c, call.now, call.keys, s.next);
    forall r | r in rows && r.key.Some?
      ensures r.key.value in t.cursors && r.stamp < t.cursors[r.key.value] && CursorOf(c, r.key.value) <= r.stamp
    {
      NewRowIsBetween(c, call.now, call.keys, s.next, r);
    }
    assert RecentRows(t) == RecentRows(s) + rows;
  }

  lemma StepKeepsRecent(s: State, e: Event)
    requires RecentOk(s)
    ensures RecentOk(Step(s, e))
  {
    var t := Step(s, e);
    if e.Assign? && t != s {
      AssignKeepsRecent(s, e.call);
    } else {
      assert AllRows(t) <= AllRows(s) + (if e.Enter? then {Entrant(s, e.key, e.stamp)} else {});
      assert RecentRows(t) <= RecentRows(s);
    }
  }

  lemma {:induction false} RunKeepsRecent(s: State, events: seq<Event>)
    requires RecentOk(s)
    ensures RecentOk(Run(s, events))
  {
    if events != [] {
      RunKeepsRecent(s, events[..|events| - 1]);
      StepKeepsRecent(Run(s, events[..|events| - 1]), events[|events| - 1]);
    }
  }

  /** Whatever batches overlap, whatever the clock says and whatever comes and goes: all batched rows of a key that
      were assigned since the process last started are stamped in the order they were assigned, below the key's
      cursor. */
  lemma StampsFollowAssignment(events: seq<Event>)
    ensures var s := Run(START, events);
            && InOrder(RecentRows(s))
            && (forall r :: r in RecentRows(s) && r.key.Some? ==>
                  r.key.value in s.cursors && r.stamp < s.cursors[r.key.value])
    ensures (forall e :: e in events ==> !e.Restart?) ==>
              forall r :: r in AllRows(Run(START, events)) && r.batched ==> r in RecentRows(Run(START, events))
  {
    RunKeepsRecent(START, events);
    if forall e :: e in events ==> !e.Restart? {
      OneLife(events);
    }
  }

  lemma {:induction false} OneLife(events: seq<Event>)
    requires forall e :: e in events ==> !e.Restart?
    ensures Run(START, events).since == 0
  {
    if events != [] {
      OneLife(events[..|events| - 1]);
    }
  }

  // ---------------------------------------------------------------- across restarts

  ghost predicate Ok(s: State) {
    && Numbered(s) && Below(s.waiting, s.cursors)
    && (forall n :: n in s.calls ==> CallOk(s.calls[n], s.cursors, s.waiting))
    && InOrder(s.waiting + InFlight(s))
  }

  /** A row may come back to waiting if it is in order with what waits or is on its way, and below what its key gets
      next. */
  ghost predicate Welcome(s: State, r: Row) {
    r.key.Some? ==>
      && InOrder(s.waiting + InFlight(s) + {r})
      && Below({r}, s.cursors)
      && (forall n :: n in s.calls && s.calls[n].Read? && r.key in s.calls[n].keys && r.key.value !in s.cursors ==>
            r.stamp < FirstStamp(s.cursors, s.calls[n], r.key))
  }

  ghost predicate Welcomes(s: State, e: Event) {
    match e
    case Return(r) => r in s.gone ==> Welcome(s, r)
    case Enter(k, stamp) => Welcome(s, Entrant(s, k, stamp))
    case _ => true
  }

  /** Every row that comes back or enters over the run is welcome. */
  ghost predicate AllWelcome(s: State, events: seq<Event>) {
    events == [] ||
    (AllWelcome(s, events[..|events| - 1]) && Welcomes(Run(s, events[..|events| - 1]), events[|events| - 1]))
  }

  /** A key of a batch that was read: its waiting rows are below what it gets next. */
  lemma SeedsCoverRows(s: State, n: nat, r: Row)
    requires Ok(s) && n in s.calls && s.calls[n].Read?
    requires r.key.Some? && r.key in s.calls[n].keys && r in s.waiting + InFlight(s)
    ensures r.stamp < FirstStamp(s.cursors, s.calls[n], r.key)
  {
    assert CallOk(s.calls[n], s.cursors, s.waiting);
    AssignRaises(s, n);
    if r in InFlight(s) {
      var m :| m in s.calls && s.calls[m].Stamped? && r in s.calls[m].rows;
      assert CallOk(s.calls[m], s.cursors, s.waiting);
    }
  }

  lemma CallStaysOk(call: Call, c: Cursors, d: Cursors, waiting: set<Row>)
    requires CallOk(call, c, waiting) && Raised(c, d)
    ensures CallOk(call, d, waiting)
  {
    if call.Read? {
      forall r | r in waiting && r.key.Some? && r.key in call.keys && r.key.value !in d
        ensures r.stamp < FirstStamp(d, call, r.key)
      {
        assert FirstStamp(d, call, r.key) == FirstStamp(c, call, r.key);
      }
    }
  }

  lemma NewRowsAreBelow(c: Cursors, now: int, keys: seq<Option<Key>>, next: nat, waiting: set<Row>)
    ensures CallOk(Stamped(NewRows(c, now, keys, next)), After(c, now, keys), waiting)
  {
    forall r | r in NewRows(c, now, keys, next) && r.key.Some?
      ensures r.key.value in After(c, now, keys) && r.stamp < After(c, now, keys)[r.key.value]
    {
      NewRowIsBetween(c, now, keys, next, r);
    }
  }

  lemma WaitingStaysBelow(s: State, n: nat)
    requires Ok(s) && n in s.calls && s.calls[n].Read?
    ensures Below(s.waiting, Step(s, Assign(n)).cursors)
  {
    var t, call := Step(s, Assign(n)), s.calls[n];
    var c := Seeded(s.cursors, call.seeds);
    CursorsGrow(c, call.now, call.keys);
    AssignRaises(s, n);
    forall r | r in s.waiting && r.key.Some? && r.key.value in t.cursors ensures r.stamp < t.cursors[r.key.value] {
      if r.key in call.keys {
        SeedsCoverRows(s, n, r);
        CursorIsLate(c, call.now, call.keys, r.key.value);
      } else {
        assert CallOk(call, s.cursors, s.waiting);
      }
    }
  }

  lemma {:induction false} CursorIsLate(c: Cursors, now: int, keys: seq<Option<Key>>, k: Key)
    requires Some(k) in keys
    ensures StampOf(c, now, Some(k)) < CursorOf(After(c, now, keys), k)
  {
    var i :| 0 <= i < |keys| && keys[i] == Some(k);
    StampIsLate(c, now, keys, i);
    StampIsBetween(c, now, keys, i);
  }

  lemma AssignKeepsCursors(s: State, n: nat)
    requires Ok(s) && n in s.calls && s.calls[n].Read?
    ensures var t := Step(s, Assign(n));
            Below(t.waiting, t.cursors) && (forall m :: m in t.calls ==> CallOk(t.calls[m], t.cursors, t.waiting))
  {
    var t, call := Step(s, Assign(n)), s.calls[n];
    WaitingStaysBelow(s, n);
    AssignRaises(s, n);
    NewRowsAreBelow(Seeded(s.cursors, call.seeds), call.now, call.keys, s.next, s.waiting);
    forall m | m in s.calls && m != n ensures CallOk(s.calls[m], t.cursors, s.waiting) {
      CallStaysOk(s.calls[m], s.cursors, t.cursors, s.waiting);
    }
  }

  lemma AssignKeepsOrder(s: State, n: nat)
    requires Ok(s) && n in s.calls && s.calls[n].Read?
    ensures var t := Step(s, Assign(n)); InOrder(t.waiting + InFlight(t)) && Numbered(t)
  {
    var t, call := Step(s, Assign(n)), s.calls[n];
    var c := Seeded(s.cursors, call.seeds);
    var rows := NewRows(c, call.now, call.keys, s.next);
    AssignedRows(s, n);
    NewRowsAreInOrder(c, call.now, call.keys, s.next);
    forall a, b | a in s.waiting + InFlight(s) && b in rows && a.key.Some? && a.key == b.key
      ensures a.stamp < b.stamp && a.number < b.number
    {
      NewRowIsBetween(c, call.now, call.keys, s.next, b);
      SeedsCoverRows(s, n, a);
    }
  }

  lemma CommitKeepsOk(s: State, n: nat)
    requires Ok(s) && n in s.calls && s.calls[n].Stamped?
    ensures Ok(Step(s, Commit(n)))
  {
    var t := Step(s, Commit(n));
    assert CallOk(s.calls[n], s.cursors, s.waiting);
    assert t.waiting + InFlight(t) <= s.waiting + InFlight(s);
    forall m | m in t.calls ensures CallOk(t.calls[m], t.cursors, t.waiting) {
      assert CallOk(s.calls[m], s.cursors, s.waiting);
    }
  }

  lemma JoinKeepsOk(s: State, r: Row, next: nat)
    requires Ok(s) && Welcome(s, r) && r.number < next && s.next <= next
    ensures Ok(Joined(s, r).(next := next))
  {
    var t := Joined(s, r).(next := next);
    assert InFlight(t) == InFlight(s);
    assert t.waiting + InFlight(t) == s.waiting + InFlight(s) + {r};
    forall m | m in t.calls ensures CallOk(t.calls[m], t.cursors, t.waiting) {
      assert CallOk(s.calls[m], s.cursors, s.waiting);
    }
  }

  lemma ReadIsOk(now: int, keys: seq<Option<Key>>, unseen: set<Key>, seeds: map<Key, int>, c: Cursors,
                 waiting: set<Row>)
    requires CallOk(Begun(now, keys, unseen), c, waiting) && AreMaxima(waiting, unseen, seeds)
    ensures CallOk(Read(now, keys, seeds), c, waiting)
  {
    forall r | r in waiting && r.key.Some? && r.key in keys && r.key.value !in c
      ensures r.stamp < FirstStamp(c, Read(now, keys, seeds), r.key)
    {
      SeedsExceedRows(c, seeds, waiting, unseen, r);
    }
  }

  lemma ReadKeepsCall(s: State, n: nat, seeds: map<Key, int>)
    requires Ok(s) && n in s.calls && s.calls[n].Begun? && AreMaxima(s.waiting, s.calls[n].unseen, seeds)
    ensures CallOk(Read(s.calls[n].now, s.calls[n].keys, seeds), s.cursors, s.waiting)
  {
    ReadIsOk(s.calls[n].now, s.calls[n].keys, s.calls[n].unseen, seeds, s.cursors, s.waiting);
  }

  lemma StepKeepsOk(s: State, e: Event)
    requires Ok(s) && Welcomes(s, e)
    ensures Ok(Step(s, e))
  {
    var t := Step(s, e);
    if t == s {
    } else if e.Assign? {
      AssignKeepsCursors(s, e.call);
      AssignKeepsOrder(s, e.call);
    } else if e.Commit? {
      CommitKeepsOk(s, e.call);
    } else if e.Return? {
      JoinKeepsOk(s, e.row, s.next);
    } else if e.Enter? {
      JoinKeepsOk(s, Entrant(s, e.key, e.stamp), s.next + 1);
    } else {
      assert t.waiting + InFlight(t) <= s.waiting + InFlight(s);
      forall m | m in t.calls ensures CallOk(t.calls[m], t.cursors, t.waiting) {
        if m in s.calls { assert CallOk(s.calls[m], s.cursors, s.waiting); }
        if e.ReadMaxima? && m == e.call { ReadKeepsCall(s, m, e.seeds); }
      }
    }
  }

  lemma {:induction false} RunKeepsOk(s: State, events: seq<Event>)
    requires Ok(s) && AllWelcome(s, events)
    ensures Ok(Run(s, events))
  {
    if events != [] {
      RunKeepsOk(s, events[..|events| - 1]);
      StepKeepsOk(Run(s, events[..|events| - 1]), events[|events| - 1]);
    }
  }

  /** However often the process restarts, while every row that comes back or enters is welcome the waiting rows of a
      key are stamped in the order they were assigned. */
  lemma WaitingRowsAreInOrder(events: seq<Event>)
    requires AllWelcome(START, events)
    ensures InOrder(Run(START, events).waiting)
  {
    RunKeepsOk(START, events);
  }

  /** Before the first restart every batched row is welcome back, if the rows from elsewhere are in order. */
  lemma WelcomeInOneLife(s: State, r: Row)
    requires RecentOk(s) && s.since == 0 && r in s.gone && r.batched
    requires var all := s.waiting + InFlight(s) + {r};
             forall p, q :: p in all && q in all && !p.batched ==> InOrder({p, q})
    ensures Welcome(s, r)
  {
    var all := s.waiting + InFlight(s) + {r};
    assert r in RecentRows(s);
    forall a, b | a in all && b in all && a.key.Some? && a.key == b.key && a.number < b.number
      ensures a.stamp < b.stamp
    {
      if a.batched && b.batched {
        assert a in RecentRows(s) && b in RecentRows(s);
      } else {
        assert InOrder({a, b}) || InOrder({b, a});
        assert {a, b} == {b, a};
      }
    }
  }

  // ---------------------------------------------------------------- the condition on returns is exact

  /** Some continuation in which only welcome rows join leaves two waiting rows of a key out of order. */
  ghost predicate GoesWrong(s: State) {
    exists events :: AllWelcome(s, events) && !InOrder(Run(s, events).waiting)
  }

  predicate Joins(e: Event) {
    e.Return? || e.Enter?
  }

  lemma WrongAfter(s: State, events: seq<Event>)
    requires forall e :: e in events ==> !Joins(e)
    requires !InOrder(Run(s, events).waiting)
    ensures GoesWrong(s)
  {
    OthersAreWelcome(s, events);
  }

  lemma {:induction false} OthersAreWelcome(s: State, events: seq<Event>)
    requires forall e :: e in events ==> !Joins(e)
    ensures AllWelcome(s, events)
  {
    if events != [] {
      assert !Joins(events[|events| - 1]);
      OthersAreWelcome(s, events[..|events| - 1]);
    }
  }

  lemma OutOfOrder(rows: set<Row>, a: Row, b: Row)
    requires a in rows && b in rows && a.key.Some? && a.key == b.key && a.number < b.number && b.stamp <= a.stamp
    ensures !InOrder(rows)
  {
  }

  /** A row on its way that is out of order with a waiting one will be committed. */
  lemma FlightGoesWrong(s: State, r: Row, x: Row)
    requires r in s.waiting && x in InFlight(s) && !InOrder({r, x})
    ensures GoesWrong(s)
  {
    var n :| n in s.calls && s.calls[n].Stamped? && x in s.calls[n].rows;
    var events := [Commit(n)];
    assert events[..0] == [];
    assert {r, x} <= Run(s, events).waiting;
    WrongAfter(s, events);
  }

  /** The first row of a key in a batch. */
  lemma {:induction false} FirstRow(c: Cursors, now: int, keys: seq<Option<Key>>, k: Key) returns (i: nat)
    requires Some(k) in keys
    ensures i < |keys| && keys[i] == Some(k) && Stamps(c, now, keys)[i] == StampOf(c, now, Some(k))
  {
    var init := keys[..|keys| - 1];
    if Some(k) in init {
      i := FirstRow(c, now, init, k);
    } else {
      i := |init|;
      OtherKeysStay(c, now, init, k);
    }
  }

  lemma {:induction false} OtherKeysStay(c: Cursors, now: int, keys: seq<Option<Key>>, k: Key)
    requires Some(k) !in keys
    ensures CursorOf(After(c, now, keys), k) == CursorOf(c, k)
  {
    if keys != [] {
      OtherKeysStay(c, now, keys[..|keys| - 1], k);
    }
  }

  /** A batch that was read and stamps its key no higher than a waiting row will be assigned and committed. */
  lemma BatchGoesWrong(s: State, r: Row, n: nat)
    requires r in s.waiting && r.key.Some? && r.number < s.next
    requires n in s.calls && s.calls[n].Read? && r.key in s.calls[n].keys
    requires FirstStamp(s.cursors, s.calls[n], r.key) <= r.stamp
    ensures GoesWrong(s)
  {
    var c, call := Seeded(s.cursors, s.calls[n].seeds), s.calls[n];
    var i := FirstRow(c, call.now, call.keys, r.key.value);
    var later := Row(call.keys[i], Stamps(c, call.now, call.keys)[i], s.next + i, true);
    assert later in NewRows(c, call.now, call.keys, s.next);
    var events := [Assign(n), Commit(n)];
    assert events[..1] == [Assign(n)] && events[..1][..0] == [];
    var t := Step(s, Assign(n));
    assert Run(s, events[..1]) == t;
    OutOfOrder(Run(s, events).waiting, r, later);
    WrongAfter(s, events);
  }

  lemma {:induction false} FreshCall(used: set<nat>) returns (n: nat)
    ensures forall m :: m in used ==> m < n
    decreases |used|
  {
    n := 0;
    if used != {} {
      var m :| m in used;
      n := FreshCall(used - {m});
      assert forall k :: k in used && k != m ==> k in used - {m};
      if n <= m {
        n := m + 1;
      }
    }
  }

  /** A row at or above its key's cursor is met by the next batch that the clock does not lift over it. */
  lemma CursorGoesWrong(s: State, r: Row)
    requires r in s.waiting && r.key.Some? && r.number < s.next
    requires r.key.value in s.cursors && s.cursors[r.key.value] <= r.stamp
    ensures GoesWrong(s)
  {
    var n := FreshCall(s.calls.Keys);
    var now := s.cursors[r.key.value];
    var s1 := Step(s, Begin(n, now, [r.key]));
    var s2 := Step(s1, ReadMaxima(n, map[]));
    assert Unseen(s.cursors, [r.key]) == {};
    assert s2.calls[n] == Read(now, [r.key], map[]);
    assert Seeded(s.cursors, map[]) == s.cursors;
    BatchGoesWrong(s2, r, n);
    var rest :| AllWelcome(s2, rest) && !InOrder(Run(s2, rest).waiting);
    WrongLater(s1, ReadMaxima(n, map[]), rest);
    var more :| AllWelcome(s1, more) && !InOrder(Run(s1, more).waiting);
    WrongLater(s, Begin(n, now, [r.key]), more);
  }

  lemma WrongLater(s: State, e: Event, rest: seq<Event>)
    requires !Joins(e) && AllWelcome(Step(s, e), rest) && !InOrder(Run(Step(s, e), rest).waiting)
    ensures GoesWrong(s)
  {
    RunInFront(s, e, rest);
    var events := [e] + rest;
    assert AllWelcome(s, events) && !InOrder(Run(s, events).waiting);
  }

  lemma {:induction false} RunInFront(s: State, e: Event, rest: seq<Event>)
    requires !Joins(e) && AllWelcome(Step(s, e), rest)
    ensures Run(s, [e] + rest) == Run(Step(s, e), rest) && AllWelcome(s, [e] + rest)
  {
    if rest == [] {
      assert [e] + rest == [e] && [e][..0] == [] && Run(s, [e][..0]) == s;
      assert Run(s, [e]) == Step(s, e) && Welcomes(s, e);
    } else {
      var init := rest[..|rest| - 1];
      RunInFront(s, e, init);
      assert ([e] + rest)[..|rest|] == [e] + init;
    }
  }

  /** Once a row joins the waiting ones, every continuation keeps their order if and only if it was welcome. */
  lemma JoinIsExact(s: State, r: Row, next: nat)
    requires Ok(s) && r.number < next && s.next <= next
    ensures !GoesWrong(Joined(s, r).(next := next)) <==> Welcome(s, r)
  {
    var t := Joined(s, r).(next := next);
    if Welcome(s, r) {
      JoinKeepsOk(s, r, next);
      forall events | AllWelcome(t, events) ensures InOrder(Run(t, events).waiting) {
        RunKeepsOk(t, events);
      }
    } else {
      assert InFlight(t) == InFlight(s) && t.waiting == s.waiting + {r};
      if !InOrder(s.waiting + InFlight(s) + {r}) {
        UnorderedGoesWrong(s, r, next);
      } else if !Below({r}, s.cursors) {
        CursorGoesWrong(t, r);
      } else {
        var n :| n in s.calls && s.calls[n].Read? && r.key in s.calls[n].keys && r.key.value !in s.cursors
          && FirstStamp(s.cursors, s.calls[n], r.key) <= r.stamp;
        BatchGoesWrong(t, r, n);
      }
    }
  }

  lemma UnorderedGoesWrong(s: State, r: Row, next: nat)
    requires Ok(s) && !InOrder(s.waiting + InFlight(s) + {r})
    ensures GoesWrong(Joined(s, r).(next := next))
  {
    var t := Joined(s, r).(next := next);
    var all := s.waiting + InFlight(s) + {r};
    var a, b :| a in all && b in all && a.key.Some? && a.key == b.key && a.number < b.number && b.stamp <= a.stamp;
    var x := if a == r then b else a;
    OutOfOrder({r, x}, a, b);
    if x in t.waiting {
      assert {r, x} <= t.waiting;
      WrongAfter(t, []);
    } else {
      assert InFlight(t) == InFlight(s);
      FlightGoesWrong(t, r, x);
    }
  }

  /** After a return every continuation keeps the order of waiting rows if and only if the row was welcome. */
  lemma WelcomeIsExact(s: State, r: Row)
    requires Ok(s) && r in s.gone
    ensures !GoesWrong(Step(s, Return(r))) <==> Welcome(s, r)
  {
    JoinIsExact(s, r, s.next);
    assert Joined(s, r).(next := s.next) == Step(s, Return(r));
  }

  /** The same for a row that enters from elsewhere, with whatever stamp it was given there. */
  lemma EntryIsExact(s: State, key: Option<Key>, stamp: int)
    requires Ok(s)
    ensures !GoesWrong(Step(s, Enter(key, stamp))) <==> Welcome(s, Entrant(s, key, stamp))
  {
    JoinIsExact(s, Entrant(s, key, stamp), s.next + 1);
  }

  ghost function Batched(s: State, n: nat, now: int, k: Key): State {
    Step(Step(Step(Step(s, Begin(n, now, [Some(k)])), ReadMaxima(n, map[])), Assign(n)), Commit(n))
  }

  lemma BatchOfOne(s: State, n: nat, now: int, k: Key)
    requires s.cursors == map[] && s.calls == map[] && s.waiting == {} && now >= 0
    ensures var t := Batched(s, n, now, k);
            t.waiting == {Row(Some(k), now, s.next, true)} && t.gone == s.gone && t.next == s.next + 1
  {
    var s1 := Step(s, Begin(n, now, [Some(k)]));
    var s2 := Step(s1, ReadMaxima(n, map[]));
    assert s2.calls[n] == Read(now, [Some(k)], map[]);
    var s3 := Step(s2, Assign(n));
    assert Seeded(map[], map[]) == map[];
    assert Stamps(map[], now, [Some(k)]) == [now];
    assert NewRows(map[], now, [Some(k)], s.next) == {Row(Some(k), now, s.next, true)};
  }

  /** A row that was not waiting when the maxima were read (one that was delayed, say) is not under them: if it comes
      back after a restart and a step of the clock backwards, it stands behind a row assigned later. */
  lemma ReturningRowBreaksOrder(k: Key)
    ensures var row := Row(Some(k), 10, 0, true);
            var one := Batched(START, 0, 10, k);
            var two := Batched(Step(Step(one, Leave(row)), Restart), 1, 5, k);
            !Welcome(two, row) && !InOrder(Step(two, Return(row)).waiting)
  {
    var row, later := Row(Some(k), 10, 0, true), Row(Some(k), 5, 1, true);
    BatchOfOne(START, 0, 10, k);
    var one := Step(Step(Batched(START, 0, 10, k), Leave(row)), Restart);
    assert one.waiting == {} && one.gone == {row} && one.next == 1;
    BatchOfOne(one, 1, 5, k);
    ReturnBehind(Batched(one, 1, 5, k), row, later);
  }

  lemma ReturnBehind(s: State, r: Row, later: Row)
    requires r in s.gone && later in s.waiting && r.key.Some? && r.key == later.key
    requires r.number < later.number && later.stamp <= r.stamp
    ensures !Welcome(s, r) && !InOrder(Step(s, Return(r)).waiting)
  {
    OutOfOrder(s.waiting + InFlight(s) + {r}, r, later);
    OutOfOrder(Step(s, Return(r)).waiting, r, later);
  }
}
