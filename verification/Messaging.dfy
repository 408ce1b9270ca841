/** send and recv: messages, the step log, and the races between duplicate executions of the same step. */
module Messaging {
  import opened Wrappers

  type Id = string
  type Uuid = string

  /** (workflow, function ID). */
  type Key = (Id, nat)

  /** The body may be NULL, which a recv records as it records having found nothing. */
  datatype Message = Message(dest: Id, topic: string, body: Option<string>, createdAt: int, consumed: bool)

  datatype StepName = SendStep | RecvStep | OtherStep

  datatype Entry = Entry(name: StepName, output: Option<string>, endTime: int)

  datatype Tables = Tables(notifications: map<Uuid, Message>, log: map<Key, Entry>)

  datatype TxResult = Committed(output: Option<string>) | Conflict | NonExistent

  datatype Answer =
    | Own(output: Option<string>)
    | Replayed(output: Option<string>)
    | Cancelled
    | Unexpected
    | Lost
    | NoDestination

  // ---------------------------------------------------------------- the two transactions

  /** The checkpoint insert at the end of a transaction: a slot taken at another time is a conflict. */
  predicate Taken(t: Tables, key: Key, endTime: int) {
    key in t.log && t.log[key].endTime != endTime
  }

  function WithEntry(log: map<Key, Entry>, key: Key, entry: Entry): map<Key, Entry> {
    if key in log then log else log[key := entry]
  }

  /** Insert unless the message ID is known, then record; a conflict, or an insert for a missing destination, rolls both
      back. */
  function SendTx(t: Tables, workflows: set<Id>, key: Key, uuid: Uuid, m: Message, endTime: int): (Tables, TxResult) {
    if uuid !in t.notifications && m.dest !in workflows then (t, NonExistent)
    else if Taken(t, key, endTime) then (t, Conflict)
    else
      (Tables(if uuid in t.notifications then t.notifications else t.notifications[uuid := m],
              WithEntry(t.log, key, Entry(SendStep, None, endTime))),
       Committed(None))
  }

  predicate Available(t: Tables, dest: Id, topic: string, u: Uuid) {
    u in t.notifications && t.notifications[u].dest == dest && t.notifications[u].topic == topic
    && !t.notifications[u].consumed
  }

  /** The message to consume: an oldest unconsumed one for the workflow and topic, if there is one. */
  ghost predicate IsOldest(t: Tables, dest: Id, topic: string, chosen: Option<Uuid>) {
    match chosen
    case None => forall u :: u in t.notifications ==> !Available(t, dest, topic, u)
    case Some(c) => Available(t, dest, topic, c) && forall u :: u in t.notifications && Available(t, dest, topic, u) ==>
                      t.notifications[c].createdAt <= t.notifications[u].createdAt
  }

  predicate WaitsFor(m: Message, dest: Id, topic: string) {
    m.dest == dest && m.topic == topic && !m.consumed
  }

  /** The next message of a workflow and topic: none of theirs that waits is older. */
  ghost predicate IsNext(notifications: map<Uuid, Message>, dest: Id, topic: string, u: Uuid) {
    && u in notifications && WaitsFor(notifications[u], dest, topic)
    && (forall v :: v in notifications && WaitsFor(notifications[v], dest, topic) ==>
          notifications[u].createdAt <= notifications[v].createdAt)
  }

  /** Consume the chosen message and record it, or record that there was none; a conflict rolls both back. */
  function RecvTx(t: Tables, key: Key, chosen: Option<Uuid>, endTime: int): (Tables, TxResult)
    requires chosen.Some? ==> chosen.value in t.notifications
  {
    if Taken(t, key, endTime) then (t, Conflict)
    else match chosen
      case None => (t.(log := WithEntry(t.log, key, Entry(RecvStep, None, endTime))), Committed(None))
      case Some(u) =>
        var m := t.notifications[u];
        (Tables(t.notifications[u := m.(consumed := true)],
                WithEntry(t.log, key, Entry(RecvStep, m.body, endTime))),
         Committed(m.body))
  }

  class MessageStore {
    var tables: Tables
    var workflows: set<Id>

    constructor ()
      ensures tables == Tables(map[], map[]) && workflows == {}
    {
      tables, workflows := Tables(map[], map[]), {};
    }

    method RecordOperationResult(key: Key, entry: Entry) returns (conflict: bool)
      modifies this`tables
      ensures tables == old(tables).(log := WithEntry(old(tables).log, key, entry))
      ensures conflict == Taken(old(tables), key, entry.endTime)
    {
      conflict := key in tables.log && tables.log[key].endTime != entry.endTime;
      if key !in tables.log {
        tables := tables.(log := tables.log[key := entry]);
      }
    }

    method Send(key: Key, uuid: Uuid, m: Message, endTime: int) returns (r: TxResult)
      modifies this`tables
      ensures (tables, r) == SendTx(old(tables), workflows, key, uuid, m, endTime)
      ensures r.NonExistent? <==> uuid !in old(tables).notifications && m.dest !in workflows
      ensures r.Conflict? ==> key in old(tables).log && old(tables).log[key].endTime != endTime
      ensures !r.Committed? ==> tables == old(tables)
      ensures r.Committed? ==>
                && r.output == None
                && tables.notifications == (if uuid in old(tables).notifications then old(tables).notifications
                                            else old(tables).notifications[uuid := m])
                && tables.log == (if key in old(tables).log then old(tables).log
                                  else old(tables).log[key := Entry(SendStep, None, endTime)])
    {
      var begin := tables;
      if uuid !in tables.notifications {
        if m.dest !in workflows {
          return NonExistent;
        }
        tables := tables.(notifications := tables.notifications[uuid := m]);
      }
      var conflict := RecordOperationResult(key, Entry(SendStep, None, endTime));
      if conflict {
        tables := begin;
        return Conflict;
      }
      return Committed(None);
    }

    method OldestUnconsumed(dest: Id, topic: string) returns (chosen: Option<Uuid>)
      ensures IsOldest(tables, dest, topic, chosen)
    {
      chosen := None;
      var rest := tables.notifications.Keys;
      while rest != {}
        invariant rest <= tables.notifications.Keys
        invariant chosen.Some? ==> Available(tables, dest, topic, chosen.value)
        invariant forall u :: u in tables.notifications && u !in rest && Available(tables, dest, topic, u) ==>
                    chosen.Some? && tables.notifications[chosen.value].createdAt <= tables.notifications[u].createdAt
        decreases |rest|
      {
        var u :| u in rest;
        rest := rest - {u};
        if Available(tables, dest, topic, u)
           && (chosen.None? || tables.notifications[u].createdAt < tables.notifications[chosen.value].createdAt) {
          chosen := Some(u);
        }
      }
    }

    method Recv(key: Key, topic: string, endTime: int) returns (r: TxResult, ghost chosen: Option<Uuid>)
      modifies this`tables
      ensures IsOldest(old(tables), key.0, topic, chosen)
      ensures (tables, r) == RecvTx(old(tables), key, chosen, endTime)
      ensures chosen.Some? ==> IsNext(old(tables).notifications, key.0, topic, chosen.value)
      ensures chosen.None? ==>
                forall m :: m in old(tables).notifications.Values && m.dest == key.0 && m.topic == topic ==> m.consumed
      ensures r.Conflict? <==> key in old(tables).log && old(tables).log[key].endTime != endTime
      ensures r.Conflict? ==> tables == old(tables)
      ensures !r.Conflict? ==>
                r == Committed(if chosen.None? then None else old(tables).notifications[chosen.value].body)
      ensures !r.Conflict? ==> tables.notifications.Keys == old(tables).notifications.Keys
      ensures !r.Conflict? ==>
                forall u :: u in tables.notifications ==>
                  tables.notifications[u] == if Some(u) == chosen
                                             then old(tables).notifications[u].(consumed := true)
                                             else old(tables).notifications[u]
      ensures !r.Conflict? && key !in old(tables).log ==>
                tables.log == old(tables).log[key := Entry(RecvStep, r.output, endTime)]
      ensures key in old(tables).log ==> tables.log == old(tables).log
    {
      var begin := tables;
      var u := OldestUnconsumed(key.0, topic);
      chosen := u;
      var message: Option<string> := None;
      if u.Some? {
        message := tables.notifications[u.value].body;
        tables := tables.(notifications :=
          tables.notifications[u.value := tables.notifications[u.value].(consumed := true)]);
      }
      var conflict := RecordOperationResult(key, Entry(RecvStep, message, endTime));
      if conflict {
        tables := begin;
        return Conflict, chosen;
      }
      return Committed(message), chosen;
    }
  }

  // ---------------------------------------------------------------- the machine

  datatype Op =
    | Sending(key: Key, uuid: Uuid, keyed: bool, message: Message, checked: bool)
    | Receiving(key: Key, topic: string, checked: bool)
    | Finished(key: Key, name: StepName, answer: Answer)

  /** What a recorded send step posted. */
  datatype Posting = Posting(uuid: Uuid, keyed: bool, dest: Id, topic: string, body: Option<string>)

  /** `receipts` remembers which step consumed a message, `asked` which topic a recv step asked for, and `postings`
      which message a step sent; `direct` are the message IDs of sends from outside workflows, `minted` holds the
      random message IDs drawn so far and `derived` those made from idempotency keys. No statement reads these. */
  datatype State = State(tables: Tables, workflows: set<Id>, cancelled: set<Id>, ops: map<nat, Op>,
                         receipts: map<Uuid, Key>, asked: map<Key, string>, postings: map<Key, Posting>,
                         direct: set<Uuid>, minted: set<Uuid>, derived: set<Uuid>)

  datatype Event =
    | BeginSend(op: nat, key: Key, dest: Id, topic: string, body: Option<string>, now: int,
                idempotencyKey: Option<string>, draw: Uuid)
    | BeginRecv(op: nat, key: Key, topic: string)
    | Check(op: nat)
    | CommitSend(op: nat, endTime: int)
    | CommitRecv(op: nat, chosen: Option<Uuid>, endTime: int)
    | SendDirect(message: Message, idempotencyKey: Option<string>, draw: Uuid)
    | RecordOther(key: Key, output: Option<string>, endTime: int)
    | NewWorkflow(id: Id)
    | CancelWorkflow(id: Id)
    | Crash(op: nat)

  /** An empty key is no key. */
  predicate Keyed(idempotencyKey: Option<string>) {
    idempotencyKey.Some? && idempotencyKey.value != ""
  }

  function MessageUuid(idempotencyKey: Option<string>, dest: Id, draw: Uuid): Uuid {
    if Keyed(idempotencyKey) then idempotencyKey.value + "::" + dest else draw
  }

  /** A random draw is unlike every message ID so far, and no derived ID is ever a drawn one. */
  predicate Draws(s: State, idempotencyKey: Option<string>, dest: Id, draw: Uuid) {
    if Keyed(idempotencyKey) then MessageUuid(idempotencyKey, dest, draw) !in s.minted
    else draw !in s.minted && draw !in s.derived
  }

  function Remember(s: State, idempotencyKey: Option<string>, uuid: Uuid): State {
    if Keyed(idempotencyKey) then s.(derived := s.derived + {uuid}) else s.(minted := s.minted + {uuid})
  }

  /** A recv that overlaps another may take a message that is no longer the oldest, or, when the other took the one it
      waited for, none. */
  ghost predicate Enabled(s: State, e: Event) {
    match e
    case BeginSend(op, _, dest, _, _, _, key, draw) => op !in s.ops && Draws(s, key, dest, draw)
    case BeginRecv(op, _, _) => op !in s.ops
    case Check(op) => op in s.ops && !s.ops[op].Finished? && !s.ops[op].checked
    case CommitSend(op, _) => op in s.ops && s.ops[op].Sending? && s.ops[op].checked
    case CommitRecv(op, chosen, _) =>
      op in s.ops && s.ops[op].Receiving? && s.ops[op].checked &&
      (chosen.Some? ==> Available(s.tables, s.ops[op].key.0, s.ops[op].topic, chosen.value))
    case SendDirect(m, key, draw) => Draws(s, key, m.dest, draw) && !m.consumed
    case Crash(op) => op in s.ops
    case _ => true
  }

  function NameOf(op: Op): StepName {
    match op
    case Sending(_, _, _, _, _) => SendStep
    case Receiving(_, _, _) => RecvStep
    case Finished(_, name, _) => name
  }

  /** The step's own cancellation check and its look into the log. */
  function CheckOp(s: State, op: Op): Op
    requires !op.Finished?
  {
    if op.key.0 in s.cancelled then Finished(op.key, NameOf(op), Cancelled)
    else if op.key !in s.tables.log then op.(checked := true)
    else if s.tables.log[op.key].name != NameOf(op) then Finished(op.key, NameOf(op), Unexpected)
    else Finished(op.key, NameOf(op), Replayed(s.tables.log[op.key].output))
  }

  function AnswerOf(r: TxResult): Answer {
    match r
    case Committed(output) => Own(output)
    case Conflict => Lost
    case NonExistent => NoDestination
  }

  function Insert(t: Tables, workflows: set<Id>, uuid: Uuid, m: Message): Tables {
    if m.dest in workflows && uuid !in t.notifications then t.(notifications := t.notifications[uuid := m]) else t
  }

  /** An outside send delivers its message unless it fails on a missing destination. */
  function Delivered(t: Tables, workflows: set<Id>, direct: set<Uuid>, uuid: Uuid, m: Message): set<Uuid> {
    if uuid in Insert(t, workflows, uuid, m).notifications then direct + {uuid} else direct
  }

  ghost function Perform(s: State, e: Event): State
    requires Enabled(s, e)
  {
    match e
    case BeginSend(op, key, dest, topic, body, now, ikey, draw) =>
      var uuid := MessageUuid(ikey, dest, draw);
      Remember(s, ikey, uuid).(
        ops := s.ops[op := Sending(key, uuid, Keyed(ikey), Message(dest, topic, body, now, false), false)])
    case BeginRecv(op, key, topic) => s.(ops := s.ops[op := Receiving(key, topic, false)])
    case Check(op) => s.(ops := s.ops[op := CheckOp(s, s.ops[op])])
    case CommitSend(op, endTime) =>
      var o := s.ops[op];
      var (t, r) := SendTx(s.tables, s.workflows, o.key, o.uuid, o.message, endTime);
      s.(tables := t, ops := s.ops[op := Finished(o.key, NameOf(o), AnswerOf(r))],
         postings := if r.Committed? && o.key !in s.tables.log
                     then s.postings[o.key := Posting(o.uuid, o.keyed, o.message.dest, o.message.topic, o.message.body)]
                     else s.postings)
    case CommitRecv(op, chosen, endTime) =>
      var o := s.ops[op];
      var (t, r) := RecvTx(s.tables, o.key, chosen, endTime);
      s.(tables := t, ops := s.ops[op := Finished(o.key, NameOf(o), AnswerOf(r))],
         receipts := if r.Committed? && o.key !in s.tables.log && chosen.Some? then s.receipts[chosen.value := o.key]
                     else s.receipts,
         asked := if r.Committed? && o.key !in s.tables.log then s.asked[o.key := o.topic] else s.asked)
    case SendDirect(m, ikey, draw) =>
      var uuid := MessageUuid(ikey, m.dest, draw);
      Remember(s, ikey, uuid).(tables := Insert(s.tables, s.workflows, uuid, m),
                               direct := Delivered(s.tables, s.workflows, s.direct, uuid, m))
    case RecordOther(key, output, endTime) =>
      s.(tables := s.tables.(log := WithEntry(s.tables.log, key, Entry(OtherStep, output, endTime))))
    case NewWorkflow(id) => s.(workflows := s.workflows + {id})
    case CancelWorkflow(id) => s.(cancelled := s.cancelled + {id})
    case Crash(op) => s.(ops := s.ops - {op})
  }

  // ---------------------------------------------------------------- conservation

  /** Consumed messages and the recv entries that hold a message are in one-to-one correspondence, contents equal. */
  ghost predicate Receipted(t: Tables, asked: map<Key, string>, receipts: map<Uuid, Key>) {
    && (forall u :: u in receipts <==> u in t.notifications && t.notifications[u].consumed)
    && (forall u, v :: u in receipts && v in receipts && receipts[u] == receipts[v] ==> u == v)
    && (forall u :: u in receipts ==> ReceiptHolds(t, asked, u, receipts[u]))
    && (forall k :: k in t.log && t.log[k].name == RecvStep && t.log[k].output.Some? ==> HasReceipt(receipts, k))
  }

  predicate ReceiptHolds(t: Tables, asked: map<Key, string>, u: Uuid, k: Key) {
    && u in t.notifications && k in t.log
    && t.log[k].name == RecvStep && t.log[k].output == t.notifications[u].body && t.notifications[u].dest == k.0
    && k in asked && t.notifications[u].topic == asked[k]
  }

  ghost predicate HasReceipt(receipts: map<Uuid, Key>, k: Key) {
    exists u :: u in receipts && receipts[u] == k
  }

  /** Every recorded send step has its message in the table, and an unkeyed one shares it with no other step. */
  ghost predicate Posted(t: Tables, postings: map<Key, Posting>) {
    && (forall k :: k in postings <==> k in t.log && t.log[k].name == SendStep)
    && (forall k :: k in postings ==> PostingHolds(t, postings[k]))
    && (forall k, l :: k in postings && l in postings && SharesId(postings[k], postings[l]) ==> k == l)
  }

  predicate SharesId(p: Posting, q: Posting) {
    !p.keyed && p.uuid == q.uuid
  }

  predicate PostingHolds(t: Tables, p: Posting) {
    p.uuid in t.notifications &&
    (!p.keyed ==> var m := t.notifications[p.uuid]; m.dest == p.dest && m.topic == p.topic && m.body == p.body)
  }

  ghost predicate HasSource(postings: map<Key, Posting>, direct: set<Uuid>, u: Uuid) {
    u in direct || exists k :: k in postings && postings[k].uuid == u
  }

  /** The messages in the table are those of recorded send steps and of outside sends, and no others; the message of an
      unkeyed step is none of an outside send. */
  ghost predicate Sourced(t: Tables, postings: map<Key, Posting>, direct: set<Uuid>) {
    && (forall u :: u in t.notifications <==> HasSource(postings, direct, u))
    && (forall k :: k in postings && !postings[k].keyed ==> postings[k].uuid !in direct)
  }

  predicate OpOk(t: Tables, minted: set<Uuid>, derived: set<Uuid>, o: Op) {
    && (o.Sending? ==> !o.message.consumed)
    && (o.Sending? && o.keyed ==> o.uuid in derived)
    && (o.Sending? && !o.keyed ==> o.uuid in minted && o.uuid !in t.notifications)
  }

  predicate SameDraw(o: Op, p: Op) {
    o.Sending? && p.Sending? && !o.keyed && o.uuid == p.uuid
  }

  /** Random IDs belong to one operation, and reach the table only through it. */
  ghost predicate Minted(t: Tables, ops: map<nat, Op>, postings: map<Key, Posting>, minted: set<Uuid>,
                         derived: set<Uuid>) {
    && minted !! derived
    && (forall o :: o in ops ==> OpOk(t, minted, derived, ops[o]))
    && (forall o, p :: o in ops && p in ops && SameDraw(ops[o], ops[p]) ==> o == p)
    && (forall u :: u in t.notifications ==> u in minted || u in derived)
    && (forall k :: k in postings ==> postings[k].uuid in if postings[k].keyed then derived else minted)
  }

  ghost predicate Conserved(s: State) {
    && Receipted(s.tables, s.asked, s.receipts)
    && Posted(s.tables, s.postings)
    && Sourced(s.tables, s.postings, s.direct)
    && Minted(s.tables, s.ops, s.postings, s.minted, s.derived)
  }

  /** No commit happens to carry the very end time of the entry already in its slot. */
  predicate NoCollision(s: State, e: Event) {
    (e.CommitSend? || e.CommitRecv?) && e.op in s.ops && !s.ops[e.op].Finished? && s.ops[e.op].key in s.tables.log ==>
      s.tables.log[s.ops[e.op].key].endTime != e.endTime
  }

  lemma ConsumeKeepsReceipts(t: Tables, asked: map<Key, string>, receipts: map<Uuid, Key>, key: Key, u: Uuid,
                             endTime: int)
    requires Receipted(t, asked, receipts) && key !in t.log
    requires u in t.notifications && t.notifications[u].dest == key.0 && !t.notifications[u].consumed
    ensures var topic := t.notifications[u].topic;
            Receipted(RecvTx(t, key, Some(u), endTime).0, asked[key := topic], receipts[u := key])
  {
    var n, after := RecvTx(t, key, Some(u), endTime).0, receipts[u := key];
    assert u !in receipts;
    forall v | v in receipts
      ensures receipts[v] != key && ReceiptHolds(n, asked[key := t.notifications[u].topic], v, receipts[v])
    {
      assert ReceiptHolds(t, asked, v, receipts[v]);
    }
    forall k | k in n.log && n.log[k].name == RecvStep && n.log[k].output.Some?
      ensures HasReceipt(after, k)
    {
      if k == key {
        assert after[u] == k;
      } else {
        var v :| v in receipts && receipts[v] == k;
        assert after[v] == k;
      }
    }
  }

  ghost predicate Extends(t: Tables, n: Tables) {
    && (forall u :: u in t.notifications ==> u in n.notifications && n.notifications[u] == t.notifications[u])
    && (forall u :: u in n.notifications && u !in t.notifications ==> !n.notifications[u].consumed)
    && (forall k :: k in t.log ==> k in n.log && n.log[k] == t.log[k])
    && (forall k :: k in n.log && k !in t.log ==> n.log[k].name != RecvStep || n.log[k].output.None?)
  }

  /** Steps that add messages or entries but consume nothing keep the receipts. */
  lemma ExtendKeepsReceipts(t: Tables, n: Tables, asked: map<Key, string>, more: map<Key, string>,
                            receipts: map<Uuid, Key>)
    requires Receipted(t, asked, receipts) && Extends(t, n)
    requires forall k :: k in asked && k in t.log ==> k in more && more[k] == asked[k]
    ensures Receipted(n, more, receipts)
  {
    forall u | u in receipts
      ensures ReceiptHolds(n, more, u, receipts[u])
    {
      assert ReceiptHolds(t, asked, u, receipts[u]);
    }
  }

  predicate SameText(m: Message, n: Message) {
    m.dest == n.dest && m.topic == n.topic && m.body == n.body
  }

  lemma KeepPostings(t: Tables, n: Tables, postings: map<Key, Posting>)
    requires Posted(t, postings)
    requires forall u :: u in t.notifications ==> u in n.notifications
    requires forall u :: u in t.notifications ==> SameText(t.notifications[u], n.notifications[u])
    requires forall k :: k in t.log ==> k in n.log && n.log[k].name == t.log[k].name
    requires forall k :: k in n.log && k !in t.log ==> n.log[k].name != SendStep
    ensures Posted(n, postings)
  {
    forall k | k in postings
      ensures PostingHolds(n, postings[k])
    {
      assert PostingHolds(t, postings[k]);
    }
  }

  lemma RecvTxKeepsReceipts(t: Tables, asked: map<Key, string>, receipts: map<Uuid, Key>, key: Key, topic: string,
                            chosen: Option<Uuid>, endTime: int)
    requires Receipted(t, asked, receipts) && (chosen.Some? ==> Available(t, key.0, topic, chosen.value))
    requires key in t.log ==> t.log[key].endTime != endTime
    ensures Receipted(RecvTx(t, key, chosen, endTime).0, if key !in t.log then asked[key := topic] else asked,
                      if key !in t.log && chosen.Some? then receipts[chosen.value := key] else receipts)
  {
    if key !in t.log && chosen.Some? {
      ConsumeKeepsReceipts(t, asked, receipts, key, chosen.value, endTime);
    } else {
      ExtendKeepsReceipts(
        t, RecvTx(t, key, chosen, endTime).0, asked, if key !in t.log then asked[key := topic] else asked, receipts);
    }
  }

  lemma RecvTxKeepsPostings(t: Tables, postings: map<Key, Posting>, key: Key, topic: string, chosen: Option<Uuid>,
                            endTime: int)
    requires Posted(t, postings) && (chosen.Some? ==> Available(t, key.0, topic, chosen.value))
    ensures Posted(RecvTx(t, key, chosen, endTime).0, postings)
    ensures RecvTx(t, key, chosen, endTime).0.notifications.Keys == t.notifications.Keys
  {
    KeepPostings(t, RecvTx(t, key, chosen, endTime).0, postings);
  }

  lemma CommitRecvKeepsIds(s: State, e: Event)
    requires Conserved(s) && Enabled(s, e) && e.CommitRecv?
    ensures var n := Perform(s, e);
            Sourced(n.tables, n.postings, n.direct) && Minted(n.tables, n.ops, n.postings, n.minted, n.derived)
  {
    var n, o := Perform(s, e), s.ops[e.op];
    RecvTxKeepsPostings(s.tables, s.postings, o.key, o.topic, e.chosen, e.endTime);
    assert n.tables == RecvTx(s.tables, o.key, e.chosen, e.endTime).0;
    forall i | i in n.ops
      ensures OpOk(n.tables, n.minted, n.derived, n.ops[i])
    {
      assert OpOk(s.tables, s.minted, s.derived, s.ops[i]);
    }
  }

  lemma CommitRecvConserves(s: State, e: Event)
    requires Conserved(s) && Enabled(s, e) && NoCollision(s, e) && e.CommitRecv?
    ensures Conserved(Perform(s, e))
  {
    var n := Perform(s, e);
    var o := s.ops[e.op];
    RecvTxKeepsReceipts(s.tables, s.asked, s.receipts, o.key, o.topic, e.chosen, e.endTime);
    RecvTxKeepsPostings(s.tables, s.postings, o.key, o.topic, e.chosen, e.endTime);
    CommitRecvKeepsIds(s, e);
  }

  lemma CommitSendPosts(t: Tables, n: Tables, postings: map<Key, Posting>, key: Key, p: Posting)
    requires Posted(t, postings) && PostingHolds(n, p) && Extends(t, n)
    requires key !in t.log && n.log.Keys == t.log.Keys + {key} && n.log[key].name == SendStep
    requires forall k :: k in postings ==> !SharesId(p, postings[k]) && !SharesId(postings[k], p)
    ensures Posted(n, postings[key := p])
  {
    var after := postings[key := p];
    forall k | k in after
      ensures PostingHolds(n, after[k])
    {
      if k != key {
        assert PostingHolds(t, postings[k]);
      }
    }
  }

  lemma CommitSendKeepsIds(s: State, e: Event)
    requires Conserved(s) && Enabled(s, e) && NoCollision(s, e) && e.CommitSend?
    ensures var n := Perform(s, e); Minted(n.tables, n.ops, n.postings, n.minted, n.derived)
  {
    var n := Perform(s, e);
    var o := s.ops[e.op];
    assert OpOk(s.tables, s.minted, s.derived, o);
    forall i | i in n.ops
      ensures OpOk(n.tables, s.minted, s.derived, n.ops[i])
    {
      assert OpOk(s.tables, s.minted, s.derived, s.ops[i]);
      assert SameDraw(s.ops[i], o) ==> i == e.op;
    }
  }

  lemma CommitSendKeepsPosted(s: State, e: Event)
    requires Conserved(s) && Enabled(s, e) && e.CommitSend? && s.ops[e.op].key !in s.tables.log
    requires s.ops[e.op].message.dest in s.workflows || s.ops[e.op].uuid in s.tables.notifications
    ensures Posted(Perform(s, e).tables, Perform(s, e).postings)
  {
    var n := Perform(s, e);
    var o := s.ops[e.op];
    assert OpOk(s.tables, s.minted, s.derived, o);
    var p := Posting(o.uuid, o.keyed, o.message.dest, o.message.topic, o.message.body);
    forall k | k in s.postings
      ensures !SharesId(p, s.postings[k]) && !SharesId(s.postings[k], p)
    {
      assert PostingHolds(s.tables, s.postings[k]);
    }
    CommitSendPosts(s.tables, n.tables, s.postings, o.key, p);
  }

  lemma CommitSendKeepsSources(s: State, e: Event)
    requires Conserved(s) && Enabled(s, e) && NoCollision(s, e) && e.CommitSend?
    ensures var n := Perform(s, e); Sourced(n.tables, n.postings, n.direct)
  {
    var n, o := Perform(s, e), s.ops[e.op];
    assert OpOk(s.tables, s.minted, s.derived, o);
    if n.tables != s.tables {
      PostingAddsSource(s.postings, s.direct, o.key, n.postings[o.key]);
      assert n.postings == s.postings[o.key := n.postings[o.key]];
      assert HasSource(s.postings, s.direct, o.uuid) <==> o.uuid in s.tables.notifications;
    }
  }

  lemma PostingAddsSource(postings: map<Key, Posting>, direct: set<Uuid>, key: Key, p: Posting)
    requires key !in postings
    ensures forall u :: HasSource(postings[key := p], direct, u) <==> HasSource(postings, direct, u) || u == p.uuid
  {
    var after := postings[key := p];
    forall u ensures HasSource(after, direct, u) <==> HasSource(postings, direct, u) || u == p.uuid {
      if u !in direct {
        if k :| k in postings && postings[k].uuid == u {
          assert after[k].uuid == u;
        } else if u == p.uuid {
          assert after[key].uuid == u;
        }
      }
    }
  }

  lemma CommitSendConserves(s: State, e: Event)
    requires Conserved(s) && Enabled(s, e) && NoCollision(s, e) && e.CommitSend?
    ensures Conserved(Perform(s, e))
  {
    var n := Perform(s, e);
    assert OpOk(s.tables, s.minted, s.derived, s.ops[e.op]);
    CommitSendKeepsIds(s, e);
    CommitSendKeepsSources(s, e);
    ExtendKeepsReceipts(s.tables, n.tables, s.asked, s.asked, s.receipts);
    var o := s.ops[e.op];
    if o.key !in s.tables.log && (o.message.dest in s.workflows || o.uuid in s.tables.notifications) {
      CommitSendKeepsPosted(s, e);
    }
  }

  lemma InsertKeepsIds(t: Tables, ops: map<nat, Op>, postings: map<Key, Posting>, minted: set<Uuid>, derived: set<Uuid>,
                       workflows: set<Id>, uuid: Uuid, m: Message, keyed: bool)
    requires Minted(t, ops, postings, minted, derived)
    requires uuid !in minted && (!keyed ==> uuid !in derived)
    ensures Minted(Insert(t, workflows, uuid, m), ops, postings, if keyed then minted else minted + {uuid},
                   if keyed then derived + {uuid} else derived)
  {
    forall i | i in ops
      ensures OpOk(Insert(t, workflows, uuid, m), if keyed then minted else minted + {uuid},
                   if keyed then derived + {uuid} else derived, ops[i])
    {
      assert OpOk(t, minted, derived, ops[i]);
    }
  }

  lemma InsertKeepsSources(t: Tables, postings: map<Key, Posting>, direct: set<Uuid>, workflows: set<Id>, uuid: Uuid,
                           m: Message)
    requires Sourced(t, postings, direct)
    requires forall k :: k in postings && !postings[k].keyed ==> postings[k].uuid != uuid
    ensures Sourced(Insert(t, workflows, uuid, m), postings, Delivered(t, workflows, direct, uuid, m))
  {
    var n, after := Insert(t, workflows, uuid, m), Delivered(t, workflows, direct, uuid, m);
    forall u ensures u in n.notifications <==> HasSource(postings, after, u) {
      assert u in t.notifications <==> HasSource(postings, direct, u);
    }
  }

  lemma InsertKeepsMessages(t: Tables, asked: map<Key, string>, receipts: map<Uuid, Key>, postings: map<Key, Posting>,
                            workflows: set<Id>, uuid: Uuid, m: Message)
    requires Receipted(t, asked, receipts) && Posted(t, postings) && !m.consumed
    ensures var n := Insert(t, workflows, uuid, m); Receipted(n, asked, receipts) && Posted(n, postings)
  {
    var n := Insert(t, workflows, uuid, m);
    ExtendKeepsReceipts(t, n, asked, asked, receipts);
    KeepPostings(t, n, postings);
  }

  lemma SendDirectConserves(s: State, e: Event)
    requires Conserved(s) && Enabled(s, e) && e.SendDirect?
    ensures Conserved(Perform(s, e))
  {
    var uuid := MessageUuid(e.idempotencyKey, e.message.dest, e.draw);
    InsertKeepsIds(
      s.tables, s.ops, s.postings, s.minted, s.derived, s.workflows, uuid, e.message, Keyed(e.idempotencyKey));
    InsertKeepsSources(s.tables, s.postings, s.direct, s.workflows, uuid, e.message);
    InsertKeepsMessages(s.tables, s.asked, s.receipts, s.postings, s.workflows, uuid, e.message);
  }

  lemma BeginSendConserves(s: State, e: Event)
    requires Conserved(s) && Enabled(s, e) && e.BeginSend?
    ensures Conserved(Perform(s, e))
  {
    var n := Perform(s, e);
    forall i | i in s.ops
      ensures OpOk(n.tables, n.minted, n.derived, s.ops[i])
      ensures !SameDraw(s.ops[i], n.ops[e.op]) && !SameDraw(n.ops[e.op], s.ops[i])
    {
      assert OpOk(s.tables, s.minted, s.derived, s.ops[i]);
    }
  }

  lemma RecordOtherConserves(s: State, e: Event)
    requires Conserved(s) && Enabled(s, e) && e.RecordOther?
    ensures Conserved(Perform(s, e))
  {
    ExtendKeepsReceipts(s.tables, Perform(s, e).tables, s.asked, s.asked, s.receipts);
    KeepPostings(s.tables, Perform(s, e).tables, s.postings);
  }

  lemma StepConserves(s: State, e: Event)
    requires Conserved(s) && Enabled(s, e) && NoCollision(s, e)
    ensures Conserved(Perform(s, e))
  {
    match e
    case CommitRecv(_, _, _) => CommitRecvConserves(s, e);
    case CommitSend(_, _) => CommitSendConserves(s, e);
    case SendDirect(_, _, _) => SendDirectConserves(s, e);
    case BeginSend(_, _, _, _, _, _, _, _) => BeginSendConserves(s, e);
    case RecordOther(_, _, _) => RecordOtherConserves(s, e);
    case _ =>
  }

  ghost predicate IsRun(s: State, events: seq<Event>)
    decreases |events|
  {
    events != [] ==> Enabled(s, events[0]) && NoCollision(s, events[0]) && IsRun(Perform(s, events[0]), events[1..])
  }

  ghost function After(s: State, events: seq<Event>): State
    requires IsRun(s, events)
    decreases |events|
  {
    if events == [] then s else After(Perform(s, events[0]), events[1..])
  }

  lemma {:induction false} RunConserves(s: State, events: seq<Event>)
    requires Conserved(s) && IsRun(s, events)
    ensures Conserved(After(s, events))
    decreases |events|
  {
    if events != [] {
      StepConserves(s, events[0]);
      RunConserves(Perform(s, events[0]), events[1..]);
    }
  }

  /** A step's message is the one it sent first, however often it runs again. */
  lemma {:induction false} RunKeepsPostings(s: State, events: seq<Event>, k: Key)
    requires Conserved(s) && IsRun(s, events) && k in s.postings
    ensures k in After(s, events).postings && After(s, events).postings[k] == s.postings[k]
    decreases |events|
  {
    if events != [] {
      StepConserves(s, events[0]);
      RunKeepsPostings(Perform(s, events[0]), events[1..], k);
    }
  }

  const INITIAL := State(Tables(map[], map[]), {}, {}, map[], map[], map[], map[], {}, {}, {})

  /** Message conservation in every reachable state. */
  lemma MessagesAreConserved(events: seq<Event>)
    requires IsRun(INITIAL, events)
    ensures var s := After(INITIAL, events);
            && Receipted(s.tables, s.asked, s.receipts)
            && Posted(s.tables, s.postings) && Sourced(s.tables, s.postings, s.direct)
  {
    RunConserves(INITIAL, events);
  }

  /** A recv that loses its record race leaves every message and every entry as they were. */
  lemma LostRecvConsumesNothing(s: State, e: Event)
    requires Enabled(s, e) && e.CommitRecv? && NoCollision(s, e) && s.ops[e.op].key in s.tables.log
    ensures Perform(s, e).tables == s.tables && Perform(s, e).ops[e.op] == Finished(s.ops[e.op].key, RecvStep, Lost)
  {
  }

  /** Once a send step is recorded, running it again, checked or racing, inserts nothing. */
  lemma ReplayedSendInsertsNothing(s: State, e: Event)
    requires Enabled(s, e) && NoCollision(s, e)
    requires (e.Check? && s.ops[e.op].Sending?) || e.CommitSend?
    requires s.ops[e.op].key in s.tables.log
    ensures Perform(s, e).tables == s.tables
  {
  }

  // ---------------------------------------------------------------- what a step answers

  /** What a step that is through may have told its caller. */
  ghost predicate AnswerHolds(log: map<Key, Entry>, cancelled: set<Id>, o: Op) {
    o.Finished? ==>
      match o.answer
      case Own(output) => o.key in log && log[o.key].name == o.name && log[o.key].output == output
      case Replayed(output) => o.key in log && log[o.key].name == o.name && log[o.key].output == output
      case Cancelled => o.key.0 in cancelled
      case Unexpected => o.key in log && log[o.key].name != o.name
      case Lost => o.key in log
      case NoDestination => o.name == SendStep
  }

  ghost predicate Answered(s: State) {
    forall i :: i in s.ops ==> AnswerHolds(s.tables.log, s.cancelled, s.ops[i])
  }

  /** Entries are never changed or removed. */
  lemma LogOnlyGrows(s: State, e: Event)
    requires Enabled(s, e)
    ensures forall k :: k in s.tables.log ==>
              k in Perform(s, e).tables.log && Perform(s, e).tables.log[k] == s.tables.log[k]
    ensures s.cancelled <= Perform(s, e).cancelled
  {
  }

  lemma StepAnswers(s: State, e: Event)
    requires Answered(s) && Enabled(s, e) && NoCollision(s, e)
    ensures Answered(Perform(s, e))
  {
    var n := Perform(s, e);
    LogOnlyGrows(s, e);
    forall i | i in n.ops
      ensures AnswerHolds(n.tables.log, n.cancelled, n.ops[i])
    {
      if i in s.ops { assert AnswerHolds(s.tables.log, s.cancelled, s.ops[i]); }
    }
  }

  lemma {:induction false} RunAnswers(s: State, events: seq<Event>)
    requires Answered(s) && IsRun(s, events)
    ensures Answered(After(s, events))
    decreases |events|
  {
    if events != [] {
      StepAnswers(s, events[0]);
      RunAnswers(Perform(s, events[0]), events[1..]);
    }
  }

  /** Two executions of one step, however they raced, crashed and ran again: what they answer is the one entry recorded
      for it, so all that got a result got the same. */
  lemma AnswersAgree(events: seq<Event>, i: nat, j: nat)
    requires IsRun(INITIAL, events)
    requires var ops := After(INITIAL, events).ops;
             i in ops && j in ops && ops[i].Finished? && ops[j].Finished? && ops[i].key == ops[j].key
             && (ops[i].answer.Own? || ops[i].answer.Replayed?) && (ops[j].answer.Own? || ops[j].answer.Replayed?)
    ensures var s := After(INITIAL, events);
            var o := s.ops[i];
            && o.answer.output == s.ops[j].answer.output && o.name == s.ops[j].name
            && o.key in s.tables.log && s.tables.log[o.key].name == o.name
            && s.tables.log[o.key].output == o.answer.output
  {
    RunAnswers(INITIAL, events);
    var s := After(INITIAL, events);
    assert AnswerHolds(s.tables.log, s.cancelled, s.ops[i]) && AnswerHolds(s.tables.log, s.cancelled, s.ops[j]);
  }

  predicate Unchecked(o: Op) {
    !o.Finished? && !o.checked
  }

  predicate Cleared(o: Op) {
    !o.Finished? && o.checked
  }

  /** A step looks into the log before it commits: its next state, whatever event comes. A cancelled workflow's step and
      a recorded one get no further than the check. */
  lemma StepsMoveInOrder(s: State, e: Event, i: nat)
    requires Enabled(s, e)
    ensures var n := Perform(s, e).ops;
            && (i !in s.ops ==> (i in n <==> (e.BeginSend? || e.BeginRecv?) && e.op == i))
            && (i !in s.ops && i in n ==> Unchecked(n[i]) && n[i].key == e.key)
            && (i in s.ops ==> (i !in n <==> e.Crash? && e.op == i))
            && (i in s.ops && i in n ==>
                  && n[i].key == s.ops[i].key && NameOf(n[i]) == NameOf(s.ops[i])
                  && (s.ops[i].Finished? ==> n[i] == s.ops[i])
                  && (Cleared(s.ops[i]) ==>
                        if (e.CommitSend? || e.CommitRecv?) && e.op == i
                        then n[i].Finished? && n[i].answer !in {Cancelled, Unexpected} && !n[i].answer.Replayed?
                        else n[i] == s.ops[i])
                  && (Unchecked(s.ops[i]) ==>
                        if e.Check? && e.op == i
                        then
                          && (Cleared(n[i]) <==>
                                s.ops[i].key.0 !in s.cancelled && s.ops[i].key !in s.tables.log)
                          && (n[i].Finished? <==> !Cleared(n[i]))
                          && (n[i].Finished? && s.ops[i].key.0 in s.cancelled ==> n[i].answer == Cancelled)
                          && (n[i].Finished? && s.ops[i].key.0 !in s.cancelled ==>
                                s.ops[i].key in s.tables.log
                                && (n[i].answer == Unexpected || n[i].answer.Replayed?)
                                && (n[i].answer == Unexpected <==>
                                      s.tables.log[s.ops[i].key].name != NameOf(s.ops[i])))
                        else n[i] == s.ops[i]))
  {
  }

  /** No step is stuck: it can be checked, then committed, a recv with any message that waits for it, and it can crash
      at any time. */
  lemma StepsCanGoOn(s: State, i: nat)
    requires i in s.ops
    ensures Enabled(s, Crash(i))
    ensures Unchecked(s.ops[i]) ==> Enabled(s, Check(i))
    ensures Cleared(s.ops[i]) && s.ops[i].Sending? ==> forall at :: Enabled(s, CommitSend(i, at))
    ensures Cleared(s.ops[i]) && s.ops[i].Receiving? ==> forall at :: Enabled(s, CommitRecv(i, None, at))
    ensures Cleared(s.ops[i]) && s.ops[i].Receiving? ==>
              forall u, at :: u in s.tables.notifications
                              && WaitsFor(s.tables.notifications[u], s.ops[i].key.0, s.ops[i].topic) ==>
                Enabled(s, CommitRecv(i, Some(u), at))
  {
  }

  /** What comes from outside can come at any time. */
  lemma OutsideIsFree(s: State, i: nat)
    ensures i !in s.ops ==> forall key, topic :: Enabled(s, BeginRecv(i, key, topic))
    ensures i !in s.ops ==>
              forall key, dest, topic, body, now, draw :: draw !in s.minted && draw !in s.derived ==>
                Enabled(s, BeginSend(i, key, dest, topic, body, now, None, draw))
    ensures forall m: Message, draw :: draw !in s.minted && draw !in s.derived && !m.consumed ==>
              Enabled(s, SendDirect(m, None, draw))
    ensures forall key, output, at :: Enabled(s, RecordOther(key, output, at))
    ensures forall id :: Enabled(s, NewWorkflow(id)) && Enabled(s, CancelWorkflow(id))
  {
  }

  /** A commit answers by what it did: lost where the slot is taken, no destination where there is none, else its own
      result, recorded. */
  lemma CommitAnswers(s: State, e: Event)
    requires Enabled(s, e) && NoCollision(s, e) && (e.CommitSend? || e.CommitRecv?)
    ensures var n, o := Perform(s, e), s.ops[e.op];
            var answer := n.ops[e.op].answer;
            && (answer == Lost ==> o.key in s.tables.log && n.tables == s.tables)
            && (answer == NoDestination <==>
                  o.Sending? && o.message.dest !in s.workflows && o.uuid !in s.tables.notifications)
            && (answer.Own? <==> answer != Lost && answer != NoDestination)
            && (answer.Own? ==> o.key !in s.tables.log && n.tables.log.Keys == s.tables.log.Keys + {o.key})
            && (answer.Own? && o.Receiving? ==>
                  answer.output == if e.chosen.None? then None else s.tables.notifications[e.chosen.value].body)
            && (answer.Own? && o.Sending? ==>
                  answer.output == None && o.uuid in n.tables.notifications
                  && (o.uuid !in s.tables.notifications ==> n.tables.notifications[o.uuid] == o.message))
  {
  }

  lemma WorkflowsAreExact(s: State, e: Event)
    requires Enabled(s, e)
    ensures var n := Perform(s, e);
            && n.workflows == (if e.NewWorkflow? then s.workflows + {e.id} else s.workflows)
            && n.cancelled == (if e.CancelWorkflow? then s.cancelled + {e.id} else s.cancelled)
  {
  }

  /** The other events touch one thing each. */
  lemma OtherEventsAreExact(s: State, e: Event)
    requires Enabled(s, e) && !e.CommitSend? && !e.CommitRecv? && !e.SendDirect?
    ensures var n := Perform(s, e);
            && (e.RecordOther? ==>
                  && n.tables.notifications == s.tables.notifications
                  && n.tables.log.Keys == s.tables.log.Keys + {e.key}
                  && (e.key !in s.tables.log ==>
                        n.tables.log == s.tables.log[e.key := Entry(OtherStep, e.output, e.endTime)]))
            && (!e.RecordOther? ==> n.tables == s.tables)
  {
  }

  // ---------------------------------------------------------------- sends with and without a key

  /** An outside send to a workflow that exists, with this idempotency key. */
  ghost predicate SendsTo(s: State, e: Event, dest: Id, key: Option<string>) {
    Enabled(s, e) && e.SendDirect? && e.message.dest == dest && e.idempotencyKey == key && dest in s.workflows
  }

  /** A send from outside changes nothing unless its destination exists and its message ID is new; then it adds the
      message, waiting. */
  lemma DirectSendIsExact(s: State, e: Event)
    requires Conserved(s) && Enabled(s, e) && e.SendDirect?
    ensures var n := Perform(s, e).tables;
            && n.log == s.tables.log
            && (e.message.dest !in s.workflows ==> n == s.tables)
            && (n != s.tables ==>
                  exists u :: u !in s.tables.notifications && n.notifications == s.tables.notifications[u := e.message]
                    && !e.message.consumed)
  {
    var u := MessageUuid(e.idempotencyKey, e.message.dest, e.draw);
    if e.message.dest in s.workflows && u !in s.tables.notifications {
      assert Perform(s, e).tables.notifications == s.tables.notifications[u := e.message];
    }
  }

  /** With a key the second of two sends to a workflow adds nothing, whatever it carries; with no key, or an empty one,
      both messages are in the table. */
  lemma KeyMakesSendsOne(s: State, e: Event, f: Event, dest: Id, key: Option<string>)
    requires Conserved(s) && SendsTo(s, e, dest, key) && SendsTo(Perform(s, e), f, dest, key)
    ensures var n, last := Perform(s, e).tables, Perform(Perform(s, e), f).tables;
            && n.log == s.tables.log && last.log == s.tables.log
            && (key.Some? && |key.value| > 0 ==>
                  && last == n
                  && (exists u :: n.notifications.Keys == s.tables.notifications.Keys + {u})
                  && (forall u :: u in n.notifications && u !in s.tables.notifications ==>
                        n.notifications[u] == e.message))
            && (key.None? || |key.value| == 0 ==>
                  exists u, v :: u != v && u !in s.tables.notifications && v !in s.tables.notifications
                    && last.notifications == s.tables.notifications[u := e.message][v := f.message])
  {
    var u, v := MessageUuid(key, dest, e.draw), MessageUuid(key, dest, f.draw);
    var n, last := Perform(s, e).tables, Perform(Perform(s, e), f).tables;
    if key.Some? && |key.value| > 0 {
      assert u == v;
      assert n.notifications.Keys == s.tables.notifications.Keys + {u};
    } else {
      assert u != v && u !in s.tables.notifications && v !in s.tables.notifications;
      assert last.notifications == s.tables.notifications[u := e.message][v := f.message];
    }
  }

  /** A send step without a key brings a message ID that is nobody's: not in the table, not another step's. With a key
      it brings the one every such send to the workflow brings. */
  lemma KeylessSendIsNew(s: State, e: Event)
    requires Conserved(s) && Enabled(s, e) && e.BeginSend?
    ensures var o := Perform(s, e).ops[e.op];
            && o.Sending? && o.message == Message(e.dest, e.topic, e.body, e.now, false)
            && (e.idempotencyKey.Some? && |e.idempotencyKey.value| > 0 ==>
                  o.uuid == e.idempotencyKey.value + "::" + e.dest)
            && (e.idempotencyKey.None? || |e.idempotencyKey.value| == 0 ==>
                  && o.uuid !in s.tables.notifications
                  && (forall i :: i in s.ops && s.ops[i].Sending? ==> s.ops[i].uuid != o.uuid)
                  && (forall k :: k in s.postings ==> s.postings[k].uuid != o.uuid))
  {
    forall i | i in s.ops && s.ops[i].Sending?
      ensures s.ops[i].uuid in s.minted || s.ops[i].uuid in s.derived
    {
      assert OpOk(s.tables, s.minted, s.derived, s.ops[i]);
    }
  }

  // ---------------------------------------------------------------- from send to recv

  lemma RunOn(s: State, e: Event, rest: seq<Event>)
    requires Enabled(s, e) && NoCollision(s, e) && IsRun(Perform(s, e), rest)
    ensures IsRun(s, [e] + rest) && After(s, [e] + rest) == After(Perform(s, e), rest)
  {
    assert ([e] + rest)[1..] == rest;
  }

  lemma ThreeRun(s: State, e: Event, f: Event, g: Event)
    requires Enabled(s, e) && NoCollision(s, e)
    requires var n := Perform(s, e);
             Enabled(n, f) && NoCollision(n, f) && Enabled(Perform(n, f), g) && NoCollision(Perform(n, f), g)
    ensures IsRun(s, [e, f, g]) && After(s, [e, f, g]) == Perform(Perform(Perform(s, e), f), g)
  {
    var n := Perform(s, e);
    RunOn(Perform(n, f), g, []);
    RunOn(n, f, [g]);
    RunOn(s, e, [f, g]);
    assert [e] + [f, g] == [e, f, g] && [f] + [g] == [f, g];
  }

  /** A send step without a key, run without a rival: its message is in the table, waiting. */
  lemma SendArrives(s: State, i: nat, from: Key, dest: Id, topic: string, body: Option<string>, at: int, draw: Uuid)
    requires Conserved(s) && dest in s.workflows && from.0 !in s.cancelled
    requires i !in s.ops && from !in s.tables.log && draw !in s.minted && draw !in s.derived
    ensures var events := [BeginSend(i, from, dest, topic, body, at, None, draw), Check(i), CommitSend(i, at)];
            && IsRun(s, events)
            && var n := After(s, events);
               && i in n.ops && n.ops[i] == Finished(from, SendStep, Own(None)) && draw !in s.tables.notifications
               && n.tables.notifications == s.tables.notifications[draw := Message(dest, topic, body, at, false)]
               && n.tables.log == s.tables.log[from := Entry(SendStep, None, at)]
               && n.ops == s.ops[i := n.ops[i]] && n.cancelled == s.cancelled
  {
    ThreeRun(s, BeginSend(i, from, dest, topic, body, at, None, draw), Check(i), CommitSend(i, at));
  }

  /** A recv step, run without a rival: it answers with the body of a waiting message and leaves that consumed. */
  lemma RecvTakes(s: State, j: nat, key: Key, topic: string, u: Uuid, at: int)
    requires j !in s.ops && key !in s.tables.log && key.0 !in s.cancelled
    requires u in s.tables.notifications && !s.tables.notifications[u].consumed
    requires s.tables.notifications[u].dest == key.0 && s.tables.notifications[u].topic == topic
    ensures var events := [BeginRecv(j, key, topic), Check(j), CommitRecv(j, Some(u), at)];
            && IsRun(s, events)
            && var n, m := After(s, events), s.tables.notifications[u];
               && j in n.ops && n.ops[j] == Finished(key, RecvStep, Own(m.body))
               && n.tables.notifications == s.tables.notifications[u := m.(consumed := true)]
               && n.tables.log == s.tables.log[key := Entry(RecvStep, m.body, at)]
               && n.ops == s.ops[j := n.ops[j]]
  {
    ThreeRun(s, BeginRecv(j, key, topic), Check(j), CommitRecv(j, Some(u), at));
  }

  /** A message gets there once: from a conserved state a send step to a workflow and a recv step of it for the topic
      leave the message consumed, and the recv answers with the body sent. */
  lemma SentIsReceived(s: State, i: nat, from: Key, dest: Id, topic: string, body: Option<string>, at: int,
                       draw: Uuid, j: nat, slot: nat)
    requires Conserved(s) && dest in s.workflows && from.0 !in s.cancelled && dest !in s.cancelled
    requires i != j && i !in s.ops && j !in s.ops && from != (dest, slot)
    requires from !in s.tables.log && (dest, slot) !in s.tables.log && draw !in s.minted && draw !in s.derived
    ensures var sending := [BeginSend(i, from, dest, topic, body, at, None, draw), Check(i), CommitSend(i, at)];
            var receiving := [BeginRecv(j, (dest, slot), topic), Check(j), CommitRecv(j, Some(draw), at)];
            && IsRun(s, sending) && IsRun(After(s, sending), receiving)
            && var n := After(After(s, sending), receiving);
               && j in n.ops && n.ops[j] == Finished((dest, slot), RecvStep, Own(body))
               && draw !in s.tables.notifications
               && n.tables.notifications == s.tables.notifications[draw := Message(dest, topic, body, at, true)]
  {
    var sending := [BeginSend(i, from, dest, topic, body, at, None, draw), Check(i), CommitSend(i, at)];
    SendArrives(s, i, from, dest, topic, body, at, draw);
    RecvTakes(After(s, sending), j, (dest, slot), topic, draw, at);
  }

  // ---------------------------------------------------------------- where end times collide

  /** The consumed messages of a workflow and topic with one body, and its recv entries that asked for it and hold
      it. */
  ghost function ConsumedBy(t: Tables, m: Message): set<Uuid> {
    set u | u in t.notifications && t.notifications[u].consumed && SameText(t.notifications[u], m)
  }

  ghost function Holding(t: Tables, asked: map<Key, string>, m: Message): set<Key> {
    set k | k in t.log && t.log[k].name == RecvStep && k.0 == m.dest && t.log[k].output == m.body
            && k in asked && asked[k] == m.topic
  }

  /** A recv entry that could hold this message but answers for no consumed one: one that found nothing. */
  ghost predicate IsSpare(t: Tables, asked: map<Key, string>, receipts: map<Uuid, Key>, m: Message, k: Key) {
    k in Holding(t, asked, m) && !HasReceipt(receipts, k)
  }

  lemma {:induction false} InjectionIsNoLarger(us: set<Uuid>, ks: set<Key>, f: map<Uuid, Key>)
    requires forall u :: u in us ==> u in f && f[u] in ks
    requires forall u, v :: u in us && v in us && f[u] == f[v] ==> u == v
    ensures |us| <= |ks|
    ensures (forall k :: k in ks ==> exists u :: u in us && f[u] == k) ==> |us| == |ks|
    decreases |us|
  {
    if us == {} {
      if ks != {} {
        var k :| k in ks;
      }
    } else {
      var u :| u in us;
      var fewer := us - {u};
      if forall k :: k in ks ==> exists v :: v in us && f[v] == k {
        forall k | k in ks - {f[u]} ensures exists v :: v in fewer && f[v] == k {
          var v :| v in us && f[v] == k;
          assert v in fewer;
        }
      }
      InjectionIsNoLarger(fewer, ks - {f[u]}, f);
    }
  }

  lemma ReceiptsCount(t: Tables, asked: map<Key, string>, receipts: map<Uuid, Key>, m: Message)
    requires Receipted(t, asked, receipts)
    ensures |ConsumedBy(t, m)| <= |Holding(t, asked, m)|
    ensures (forall k :: k in Holding(t, asked, m) ==> HasReceipt(receipts, k)) ==>
              |ConsumedBy(t, m)| == |Holding(t, asked, m)|
  {
    var us, ks := ConsumedBy(t, m), Holding(t, asked, m);
    forall u | u in us ensures u in receipts && receipts[u] in ks {
      assert ReceiptHolds(t, asked, u, receipts[u]);
    }
    if forall k :: k in ks ==> HasReceipt(receipts, k) {
      forall k | k in ks ensures exists u :: u in us && receipts[u] == k {
        var u :| u in receipts && receipts[u] == k;
        assert ReceiptHolds(t, asked, u, k);
        assert u in us;
      }
    }
    InjectionIsNoLarger(us, ks, receipts);
  }

  lemma ConsumedByOneMore(t: Tables, n: Tables, asked: map<Key, string>, c: Uuid)
    requires n.log == t.log && c in t.notifications && !t.notifications[c].consumed
    requires n.notifications == t.notifications[c := t.notifications[c].(consumed := true)]
    ensures var m := t.notifications[c];
            && Holding(n, asked, m) == Holding(t, asked, m) && ConsumedBy(n, m) == ConsumedBy(t, m) + {c}
            && c !in ConsumedBy(t, m)
  {
  }

  /** Without a spare entry no account of receipts covers one more consumed message. */
  lemma LostMessage(t: Tables, n: Tables, asked: map<Key, string>, receipts: map<Uuid, Key>, after: map<Uuid, Key>,
                    c: Uuid)
    requires Receipted(t, asked, receipts) && Receipted(n, asked, after) && n.log == t.log
    requires c in t.notifications && !t.notifications[c].consumed
    requires n.notifications == t.notifications[c := t.notifications[c].(consumed := true)]
    ensures exists k :: IsSpare(t, asked, receipts, t.notifications[c], k)
  {
    var m := t.notifications[c];
    ConsumedByOneMore(t, n, asked, c);
    ReceiptsCount(t, asked, receipts, m);
    ReceiptsCount(n, asked, after, m);
    var k :| k in Holding(t, asked, m) && !HasReceipt(receipts, k);
    assert IsSpare(t, asked, receipts, m, k);
  }

  lemma SpareTakesMessage(t: Tables, n: Tables, asked: map<Key, string>, receipts: map<Uuid, Key>, c: Uuid, k: Key)
    requires Receipted(t, asked, receipts) && n.log == t.log && c in t.notifications && !t.notifications[c].consumed
    requires n.notifications == t.notifications[c := t.notifications[c].(consumed := true)]
    requires IsSpare(t, asked, receipts, t.notifications[c], k)
    ensures Receipted(n, asked, receipts[c := k])
  {
    var after := receipts[c := k];
    forall u | u in receipts ensures u != c && receipts[u] != k && ReceiptHolds(n, asked, u, receipts[u]) {
      assert ReceiptHolds(t, asked, u, receipts[u]);
      assert receipts[u] == k ==> HasReceipt(receipts, k);
    }
    forall l | l in n.log && n.log[l].name == RecvStep && n.log[l].output.Some? ensures HasReceipt(after, l) {
      var u :| u in receipts && receipts[u] == l;
      assert after[u] == l;
    }
  }

  lemma CollisionKeepsTheRest(s: State, e: Event)
    requires Conserved(s) && Enabled(s, e) && e.CommitRecv? && !NoCollision(s, e)
    ensures var n := Perform(s, e);
            && Posted(n.tables, n.postings) && Sourced(n.tables, n.postings, n.direct)
            && Minted(n.tables, n.ops, n.postings, n.minted, n.derived)
  {
    var o := s.ops[e.op];
    RecvTxKeepsPostings(s.tables, s.postings, o.key, o.topic, e.chosen, e.endTime);
    CommitRecvKeepsIds(s, e);
  }

  /** Where end times collide a message taken by the loser is lost, unless it has no body and some recv of the workflow
      that found nothing can stand for it: exactly then does any account of receipts remain. */
  lemma RecvCollisionIsExact(s: State, e: Event)
    requires Conserved(s) && Enabled(s, e) && e.CommitRecv? && !NoCollision(s, e)
    ensures (exists receipts :: Conserved(Perform(s, e).(receipts := receipts))) <==>
              || e.chosen.None?
              || exists k :: IsSpare(s.tables, s.asked, s.receipts, s.tables.notifications[e.chosen.value], k)
    ensures forall k ::
              (e.chosen.Some?
               && IsSpare(s.tables, s.asked, s.receipts, s.tables.notifications[e.chosen.value], k)) ==>
              s.tables.notifications[e.chosen.value].body.None?
  {
    var n := Perform(s, e);
    CollisionKeepsTheRest(s, e);
    if e.chosen.None? {
      assert n.tables.notifications == s.tables.notifications && n.tables.log == s.tables.log;
      ExtendKeepsReceipts(s.tables, n.tables, s.asked, s.asked, s.receipts);
      assert Conserved(n.(receipts := s.receipts));
    } else {
      var c := e.chosen.value;
      if receipts :| Conserved(n.(receipts := receipts)) {
        LostMessage(s.tables, n.tables, s.asked, s.receipts, receipts, c);
      }
      if k :| IsSpare(s.tables, s.asked, s.receipts, s.tables.notifications[c], k) {
        SpareTakesMessage(s.tables, n.tables, s.asked, s.receipts, c, k);
        assert Conserved(n.(receipts := s.receipts[c := k]));
      }
    }
  }

  /** A send that meets its own end time in the slot goes on as if it had recorded the step: it adds a message that no
      recorded step sent, unless its message ID is known or its destination missing. */
  lemma SendCollisionIsExact(s: State, e: Event)
    requires Conserved(s) && Enabled(s, e) && e.CommitSend? && !NoCollision(s, e)
    ensures var harmless := s.ops[e.op].uuid in s.tables.notifications || s.ops[e.op].message.dest !in s.workflows;
            && (Perform(s, e).tables == s.tables <==> harmless)
            && (Conserved(Perform(s, e)) <==> harmless)
  {
    var n, o := Perform(s, e), s.ops[e.op];
    assert OpOk(s.tables, s.minted, s.derived, o);
    assert o.uuid in s.tables.notifications <==> HasSource(s.postings, s.direct, o.uuid);
    if o.uuid in s.tables.notifications || o.message.dest !in s.workflows {
      assert n.tables == s.tables;
    } else {
      assert o.uuid in n.tables.notifications && n.postings == s.postings;
    }
  }

  // ---------------------------------------------------------------- idempotency keys

  predicate SameKeyedId(k1: string, d1: Id, k2: string, d2: Id) {
    k1 + "::" + d1 == k2 + "::" + d2
  }

  /** The longer destination ends in the shorter, and what stands before that reads as a separator. */
  predicate Confusable(short: Id, long: Id) {
    long == ":" + short
    || (|long| >= |short| + 2 && long[|long| - |short| - 2..] == "::" + short)
  }

  lemma KeyedIdParts(k: string, d: Id)
    ensures var u := k + "::" + d;
            && |u| == |k| + 2 + |d| && u[..|k|] == k && u[|k|] == ':' && u[|k| + 1] == ':' && u[|k| + 2..] == d
  {
  }

  lemma SameIdIsConfusable(k1: string, d1: Id, k2: string, d2: Id)
    requires |d1| <= |d2| && SameKeyedId(k1, d1, k2, d2)
    ensures (k1 == k2 && d1 == d2) || Confusable(d1, d2)
  {
    var u := k1 + "::" + d1;
    KeyedIdParts(k1, d1);
    KeyedIdParts(k2, d2);
    var off := |d2| - |d1|;
    if off == 1 {
      assert d2[0] == u[|k2| + 2] == ':';
      assert d2[1..] == u[|k2| + 2..][1..] == u[|k1| + 2..];
    } else if off >= 2 {
      assert d2[off - 2] == u[|k2| + 2..][off - 2] == u[|k1|] == ':';
      assert d2[off - 1] == u[|k2| + 2..][off - 1] == u[|k1| + 1] == ':';
      assert d2[off..] == u[|k2| + 2..][off..] == u[|k1| + 2..];
      assert d2[off - 2..] == "::" + d1;
    }
  }

  lemma ConfusableCollide(short: Id, long: Id) returns (k1: string, k2: string)
    requires Confusable(short, long)
    ensures k1 != "" && k2 != "" && SameKeyedId(k1, short, k2, long)
  {
    k2 := "a";
    if long == ":" + short {
      k1 := "a:";
      assert k1 + "::" + short == "a:::" + short == k2 + "::" + long;
    } else {
      var before := long[..|long| - |short| - 2];
      k1 := "a::" + before;
      assert long == before + "::" + short;
      assert k1 + "::" + short == "a::" + (before + "::" + short) == k2 + "::" + long;
    }
  }

  /** A message ID made from an idempotency key names its key and destination, but for confusable destinations. */
  lemma KeyedIdsAreScoped(k1: string, d1: Id, k2: string, d2: Id)
    requires SameKeyedId(k1, d1, k2, d2) && !Confusable(d1, d2) && !Confusable(d2, d1)
    ensures k1 == k2 && d1 == d2
  {
    if |d1| <= |d2| {
      SameIdIsConfusable(k1, d1, k2, d2);
    } else {
      SameIdIsConfusable(k2, d2, k1, d1);
    }
  }

  /** Some keys give two destinations one message ID if and only if the destinations are confusable; for one destination
      different keys never do. */
  lemma KeyedIdsCollideExactly(d1: Id, d2: Id)
    ensures (exists k1, k2 :: k1 != "" && k2 != "" && (k1 != k2 || d1 != d2) && SameKeyedId(k1, d1, k2, d2)) <==>
              Confusable(d1, d2) || Confusable(d2, d1)
  {
    if Confusable(d1, d2) {
      var k1, k2 := ConfusableCollide(d1, d2);
      assert |d1| < |d2|;
    } else if Confusable(d2, d1) {
      var k2, k1 := ConfusableCollide(d2, d1);
      assert SameKeyedId(k1, d1, k2, d2) && |d2| < |d1|;
    } else {
      forall k1, k2 | SameKeyedId(k1, d1, k2, d2) ensures k1 == k2 && d1 == d2 {
        KeyedIdsAreScoped(k1, d1, k2, d2);
      }
    }
  }

  /** Two keys for two destinations, taken for one message. */
  lemma KeyedIdsCanCollide()
    ensures MessageUuid(Some("a"), "b::c", "") == MessageUuid(Some("a::b"), "c", "")
  {
  }
}
