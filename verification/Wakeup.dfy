/** Waiting for a message or an event: the callback registry, the coalescing notifier, and why no wakeup is lost. */
module Wakeup {
  import opened Wrappers

  type Callback = nat

  /** Callbacks by key and registration number; calling one resolves its promise. */
  class NotificationMap {
    var callbacks: map<string, map<nat, Callback>>
    var nextNumber: nat
    var resolved: set<Callback>

    /** No key keeps an empty table, and numbers are never reused. */
    ghost predicate Valid()
      reads this
    {
      forall key :: key in callbacks ==>
        callbacks[key] != map[] && forall number :: number in callbacks[key] ==> number < nextNumber
    }

    ghost predicate Registered(key: string, number: nat, callback: Callback)
      reads this`callbacks
    {
      key in callbacks && number in callbacks[key] && callbacks[key][number] == callback
    }

    ghost predicate Listening(key: string, callback: Callback)
      reads this`callbacks
    {
      exists number: nat :: Registered(key, number, callback)
    }

    constructor ()
      ensures Valid() && resolved == {}
      ensures forall key, number: nat, cb: Callback :: !Registered(key, number, cb)
    {
      callbacks, nextNumber, resolved := map[], 0, {};
    }

    method RegisterCallback(key: string, callback: Callback) returns (number: nat)
      requires Valid()
      modifies this
      ensures Valid() && resolved == old(resolved)
      ensures forall cb: Callback :: !old(Registered(key, number, cb))
      ensures forall k, n: nat, cb: Callback ::
                Registered(k, n, cb) <==> old(Registered(k, n, cb)) || (k, n, cb) == (key, number, callback)
    {
      number := nextNumber;
      nextNumber := nextNumber + 1;
      var table := if key in callbacks then callbacks[key] else map[];
      callbacks := callbacks[key := table[number := callback]];
      assert number in callbacks[key];
    }

    method DeregisterCallback(key: string, number: nat)
      requires Valid()
      modifies this
      ensures Valid() && resolved == old(resolved)
      ensures forall k, n: nat, cb: Callback ::
                Registered(k, n, cb) <==> old(Registered(k, n, cb)) && (k, n) != (key, number)
    {
      if key !in callbacks || number !in callbacks[key] { return; }
      var table := callbacks[key] - {number};
      if |table| == 0 {
        callbacks := callbacks - {key};
      } else {
        callbacks := callbacks[key := table];
      }
    }

    method CallCallbacks(key: string)
      requires Valid()
      modifies this`resolved
      ensures forall cb: Callback :: cb in resolved <==> cb in old(resolved) || Listening(key, cb)
    {
      if key !in callbacks { return; }
      var table := callbacks[key];
      var todo := table.Keys;
      while todo != {}
        invariant todo <= table.Keys
        invariant forall cb :: cb in resolved ==> cb in old(resolved) || Listening(key, cb)
        invariant forall cb :: cb in old(resolved) ==> cb in resolved
        invariant forall number :: number in table && number !in todo ==> table[number] in resolved
        decreases |todo|
      {
        var number :| number in todo;
        assert Registered(key, number, table[number]);
        resolved := resolved + {table[number]};
        todo := todo - {number};
      }
    }
  }

  /** Payloads waiting to be sent, by channel. */
  class Notifier {
    var pending: map<string, set<string>>
    var enabled: bool
    var sent: set<(string, string)>

    ghost predicate Buffered(channel: string, payload: string)
      reads this`pending
    {
      channel in pending && payload in pending[channel]
    }

    constructor (enabled: bool)
      ensures this.enabled == enabled && pending == map[] && sent == {}
    {
      this.enabled := enabled;
      pending, sent := map[], {};
    }

    method SignalNotification(channel: string, payload: string)
      modifies this`pending
      ensures forall c, p :: Buffered(c, p) <==> old(Buffered(c, p)) || (enabled && (c, p) == (channel, payload))
    {
      if !enabled { return; }
      var batch := if channel in pending then pending[channel] else {};
      pending := pending[channel := batch + {payload}];
    }

    /** Swap the buffer out, then send each channel's batch; `fails` says whose connection breaks. */
    method FlushNotifications(fails: string -> bool)
      modifies this`pending, this`sent
      ensures forall c, p :: !Buffered(c, p)
      ensures forall c, p :: (c, p) in sent <==> (c, p) in old(sent) || (old(Buffered(c, p)) && !fails(c))
    {
      var batches := pending;
      pending := map[];
      var todo := batches.Keys;
      while todo != {}
        invariant todo <= batches.Keys && pending == map[]
        invariant forall c, p :: (c, p) in sent <==>
                    (c, p) in old(sent) || (c in batches && c !in todo && p in batches[c] && !fails(c))
        decreases |todo|
      {
        var channel :| channel in todo;
        if !fails(channel) {
          sent := sent + set p | p in batches[channel] :: (channel, p);
        }
        todo := todo - {channel};
      }
    }
  }

  // ---------------------------------------------------------------- waiters, writers and the notifier together

  type Key = string
  type WaiterId = nat

  datatype Phase =
    | Outside          // between two rounds of the loop
    | Listening        // callback registered, row not read yet
    | Parked           // registered, read missed, sleeping
    | Found
    | Missed           // read missed before registering: only when the order is reversed

  datatype Waiter = Waiter(key: Key, phase: Phase, resolved: bool)

  /** `visible` are keys with a matching committed row; a committed write's notification is owed by its writer,
      buffered, in a batch being flushed, or on its way to this process. Flushes may overlap. */
  datatype State = State(visible: set<Key>, owed: set<Key>, buffered: set<Key>, flushing: set<Key>, inFlight: set<Key>,
                         waiters: map<WaiterId, Waiter>)

  datatype Event =
    | Arrive(waiter: WaiterId, key: Key)
    | Register(waiter: WaiterId)
    | Read(waiter: WaiterId)
    | Wake(waiter: WaiterId)
    | PollAgain(waiter: WaiterId)
    | Leave(waiter: WaiterId)
    | CommitWrite(key: Key, byTrigger: bool)   // messages notify by trigger at commit, events through the notifier
    | Withdraw(key: Key)                       // the last matching message is consumed by another recv
    | Signal(key: Key)
    | Swap
    | Emit(keys: set<Key>, done: set<Key>)     // one batch or more; `done` are in no other batch
    | Deliver(key: Key)

  predicate Hears(w: Waiter, key: Key) {
    w.key == key && (w.phase == Listening || w.phase == Parked)
  }

  /** `registerFirst` is the order of the loop body: register the callback, then read the row. */
  predicate Enabled(registerFirst: bool, s: State, e: Event) {
    match e
    case Arrive(w, _) => w !in s.waiters
    case Register(w) => w in s.waiters && s.waiters[w].phase == if registerFirst then Outside else Missed
    case Read(w) => w in s.waiters && s.waiters[w].phase == if registerFirst then Listening else Outside
    case Wake(w) => w in s.waiters && s.waiters[w].phase == Parked && s.waiters[w].resolved
    case PollAgain(w) => w in s.waiters && s.waiters[w].phase == Parked
    case Leave(w) => w in s.waiters
    case Signal(key) => key in s.owed
    case Emit(keys, done) => done <= keys <= s.flushing
    case Deliver(key) => key in s.inFlight
    case _ => true
  }

  function Perform(registerFirst: bool, s: State, e: Event): State
    requires Enabled(registerFirst, s, e)
  {
    match e
    case Arrive(w, key) => s.(waiters := s.waiters[w := Waiter(key, Outside, false)])
    case Register(w) =>
      s.(waiters := s.waiters[w := Waiter(s.waiters[w].key, if registerFirst then Listening else Parked, false)])
    case Read(w) =>
      var miss := if registerFirst then Parked else Missed;
      s.(waiters := s.waiters[w := s.waiters[w].(phase := if s.waiters[w].key in s.visible then Found else miss)])
    case Wake(w) => s.(waiters := s.waiters[w := s.waiters[w].(phase := Outside)])
    case PollAgain(w) => s.(waiters := s.waiters[w := s.waiters[w].(phase := Outside)])
    case Leave(w) => s.(waiters := s.waiters - {w})
    case CommitWrite(key, byTrigger) =>
      if byTrigger then s.(visible := s.visible + {key}, inFlight := s.inFlight + {key})
      else s.(visible := s.visible + {key}, owed := s.owed + {key})
    case Withdraw(key) => s.(visible := s.visible - {key})
    case Signal(key) => s.(owed := s.owed - {key}, buffered := s.buffered + {key})
    case Swap => s.(flushing := s.flushing + s.buffered, buffered := {})
    case Emit(keys, done) => s.(inFlight := s.inFlight + keys, flushing := s.flushing - done)
    case Deliver(key) =>
      s.(inFlight := s.inFlight - {key},
         waiters := map w | w in s.waiters ::
                      if Hears(s.waiters[w], key) then s.waiters[w].(resolved := true) else s.waiters[w])
  }

  /** A waiter asleep although its row is there. */
  predicate Waits(s: State, w: WaiterId) {
    w in s.waiters && s.waiters[w].phase == Parked && !s.waiters[w].resolved && s.waiters[w].key in s.visible
  }

  predicate Due(s: State, key: Key) {
    key in s.owed || key in s.buffered || key in s.flushing || key in s.inFlight
  }

  ghost predicate NothingLost(s: State) {
    forall w :: Waits(s, w) ==> Due(s, s.waiters[w].key)
  }

  ghost predicate IsRun(registerFirst: bool, s: State, events: seq<Event>)
    decreases |events|
  {
    events != [] ==>
      Enabled(registerFirst, s, events[0]) && IsRun(registerFirst, Perform(registerFirst, s, events[0]), events[1..])
  }

  ghost function After(registerFirst: bool, s: State, events: seq<Event>): State
    requires IsRun(registerFirst, s, events)
    decreases |events|
  {
    if events == [] then s else After(registerFirst, Perform(registerFirst, s, events[0]), events[1..])
  }

  lemma StepLosesNothing(s: State, e: Event)
    requires NothingLost(s) && Enabled(true, s, e)
    ensures NothingLost(Perform(true, s, e))
  {
    var n := Perform(true, s, e);
    forall w | Waits(n, w)
      ensures Due(n, n.waiters[w].key)
    {
      if Waits(s, w) {
        assert Due(s, s.waiters[w].key);
      }
    }
  }

  lemma {:induction false} NoLostWakeup(s: State, events: seq<Event>)
    requires NothingLost(s) && IsRun(true, s, events)
    ensures NothingLost(After(true, s, events))
    decreases |events|
  {
    if events != [] {
      StepLosesNothing(s, events[0]);
      NoLostWakeup(Perform(true, s, events[0]), events[1..]);
    }
  }

  /** Everything the notifier and the listener still have to do for one key. */
  function Drain(s: State, key: Key): seq<Event> {
    if key in s.owed then [Signal(key)] + Flush(s.buffered + {key}, s, key) else Flush(s.buffered, s, key)
  }

  function Flush(buffered: set<Key>, s: State, key: Key): seq<Event> {
    [Swap, Emit(s.flushing + buffered, s.flushing + buffered), Deliver(key)]
  }

  lemma OneStep(registerFirst: bool, s: State, events: seq<Event>, n: State)
    requires events != [] && Enabled(registerFirst, s, events[0]) && Perform(registerFirst, s, events[0]) == n
    requires IsRun(registerFirst, n, events[1..])
    ensures IsRun(registerFirst, s, events)
    ensures After(registerFirst, s, events) == After(registerFirst, n, events[1..])
  {
  }

  lemma DrainFromBuffer(s: State, key: Key, w: WaiterId)
    requires key in s.buffered || key in s.flushing || key in s.inFlight
    requires w in s.waiters && Hears(s.waiters[w], key)
    ensures var events := Flush(s.buffered, s, key);
            && IsRun(true, s, events)
            && var n := After(true, s, events);
               w in n.waiters && n.waiters[w] == s.waiters[w].(resolved := true) && n.visible == s.visible
  {
    var e := Flush(s.buffered, s, key);
    var s1 := Perform(true, s, e[0]);
    var s2 := Perform(true, s1, e[1]);
    OneStep(true, s2, e[1..][1..], Perform(true, s2, e[2]));
    OneStep(true, s1, e[1..], s2);
    OneStep(true, s, e, s1);
  }

  /** With reliable delivery, at most four notifier steps wake any waiter whose row is there. */
  lemma WakeupArrives(s: State, w: WaiterId)
    requires NothingLost(s) && Waits(s, w)
    ensures var events := Drain(s, s.waiters[w].key);
            && |events| <= 4 && IsRun(true, s, events)
            && var n := After(true, s, events);
               w in n.waiters && n.waiters[w] == s.waiters[w].(resolved := true) && n.visible == s.visible
  {
    var key := s.waiters[w].key;
    assert Due(s, key);
    if key in s.owed {
      var n := Perform(true, s, Signal(key));
      DrainFromBuffer(n, key, w);
      assert Drain(s, key)[1..] == Flush(n.buffered, n, key);
      OneStep(true, s, Drain(s, key), n);
    } else {
      DrainFromBuffer(s, key, w);
      assert Drain(s, key) == Flush(s.buffered, s, key);
    }
  }

  /** What one event does to the waiters: registering comes before the read, the read decides by the row, a delivery is
      heard by those of the key that listen or sleep, and only a sleeper wakes, when it was resolved. */
  lemma WaitersMoveInOrder(s: State, e: Event, w: WaiterId)
    requires Enabled(true, s, e)
    ensures var n := Perform(true, s, e).waiters;
            && (w !in s.waiters ==> (w in n <==> e.Arrive? && e.waiter == w))
            && (w !in s.waiters && w in n ==> n[w] == Waiter(e.key, Outside, false))
            && (w in s.waiters ==> (w !in n <==> e.Leave? && e.waiter == w))
            && (w in s.waiters && w in n ==>
                  var x, y := s.waiters[w], n[w];
                  && y.key == x.key
                  && (e.Register? && e.waiter == w ==> x.phase == Outside && y.phase == Listening && !y.resolved)
                  && (e.Read? && e.waiter == w ==>
                        && x.phase == Phase.Listening && y.resolved == x.resolved
                        && y.phase == if x.key in s.visible then Found else Parked)
                  && (e.Wake? && e.waiter == w ==> x.phase == Parked && x.resolved && y.phase == Outside)
                  && (e.PollAgain? && e.waiter == w ==> x.phase == Parked && y.phase == Outside)
                  && (e.Deliver? ==>
                        && y.phase == x.phase
                        && (y.resolved <==> x.resolved || (e.key == x.key && x.phase in {Phase.Listening, Parked})))
                  && (e.CommitWrite? || e.Withdraw? || e.Signal? || e.Swap? || e.Emit? || e.Arrive? ==> y == x)
                  && ((e.Register? || e.Read? || e.Wake? || e.PollAgain?) && e.waiter != w ==> y == x))
  {
  }

  /** A write shows its row and owes its notification, which moves on stage by stage and is gone only when delivered. */
  lemma NotificationsMoveOn(s: State, e: Event, key: Key)
    requires Enabled(true, s, e)
    ensures var n := Perform(true, s, e);
            && (key in n.visible <==> (key in s.visible && e != Withdraw(key)) || (e.CommitWrite? && e.key == key))
            && (key in n.owed <==>
                  (key in s.owed && e != Signal(key)) || (e.CommitWrite? && e.key == key && !e.byTrigger))
            && (key in n.buffered <==> (key in s.buffered && !e.Swap?) || e == Signal(key))
            && (key in n.flushing <==>
                  (key in s.flushing && !(e.Emit? && key in e.done)) || (e.Swap? && key in s.buffered))
            && (key in n.inFlight <==>
                  || (key in s.inFlight && e != Deliver(key)) || (e.Emit? && key in e.keys)
                  || (e.CommitWrite? && e.key == key && e.byTrigger))
            && (Due(s, key) && e != Deliver(key) ==> Due(n, key))
  {
  }

  /** Nobody is stuck. */
  lemma WaitersCanGoOn(s: State, w: WaiterId)
    ensures w !in s.waiters ==> forall key :: Enabled(true, s, Arrive(w, key))
    ensures w in s.waiters ==> Enabled(true, s, Leave(w))
    ensures w in s.waiters && s.waiters[w].phase == Outside ==> Enabled(true, s, Register(w))
    ensures w in s.waiters && s.waiters[w].phase == Phase.Listening ==> Enabled(true, s, Read(w))
    ensures w in s.waiters && s.waiters[w].phase == Parked ==> Enabled(true, s, PollAgain(w))
    ensures w in s.waiters && s.waiters[w].phase == Parked && s.waiters[w].resolved ==> Enabled(true, s, Wake(w))
    ensures forall key, trigger :: Enabled(true, s, CommitWrite(key, trigger)) && Enabled(true, s, Withdraw(key))
  {
  }

  /** A waiter that was woken finds its row, if that is still there when it looks. */
  lemma WokenFinds(s: State, w: WaiterId)
    requires w in s.waiters && s.waiters[w].phase == Parked && s.waiters[w].resolved && s.waiters[w].key in s.visible
    ensures var events := [Wake(w), Register(w), Read(w)];
            && IsRun(true, s, events)
            && var n := After(true, s, events);
               && w in n.waiters && n.waiters[w].phase == Found && n.waiters[w].key == s.waiters[w].key
               && n.visible == s.visible
  {
    var events := [Wake(w), Register(w), Read(w)];
    var s1 := Perform(true, s, Wake(w));
    var s2 := Perform(true, s1, Register(w));
    OneStep(true, s2, events[1..][1..], Perform(true, s2, Read(w)));
    OneStep(true, s1, events[1..], s2);
    OneStep(true, s, events, s1);
  }

  /** A waiter asleep beside its row gets it: those notifier steps and its next three find the row. */
  lemma SleeperFinds(s: State, w: WaiterId)
    requires NothingLost(s) && Waits(s, w)
    ensures var waking, looking := Drain(s, s.waiters[w].key), [Wake(w), Register(w), Read(w)];
            && IsRun(true, s, waking) && IsRun(true, After(true, s, waking), looking)
            && var n := After(true, After(true, s, waking), looking);
               w in n.waiters && n.waiters[w].phase == Found && n.waiters[w].key == s.waiters[w].key
  {
    WakeupArrives(s, w);
    WokenFinds(After(true, s, Drain(s, s.waiters[w].key)), w);
  }

  /** Reading before registering leaves a hole: the row appears and its notification passes in between. */
  lemma ReadFirstLosesWakeups(w: WaiterId, key: Key)
    ensures var s0 := State({}, {}, {}, {}, {}, map[]);
            var events := [Arrive(w, key), Read(w), CommitWrite(key, true), Deliver(key), Register(w)];
            && IsRun(false, s0, events)
            && Waits(After(false, s0, events), w) && !Due(After(false, s0, events), key)
  {
    var s0 := State({}, {}, {}, {}, {}, map[]);
    var e := [Arrive(w, key), Read(w), CommitWrite(key, true), Deliver(key), Register(w)];
    var s1 := Perform(false, s0, e[0]);
    var s2 := Perform(false, s1, e[1]);
    var s3 := Perform(false, s2, e[2]);
    var s4 := Perform(false, s3, e[3]);
    var s5 := Perform(false, s4, e[4]);
    assert s5 == State({key}, {}, {}, {}, {}, map[w := Waiter(key, Parked, false)]);
    OneStep(false, s4, e[1..][1..][1..][1..], s5);
    OneStep(false, s3, e[1..][1..][1..], s4);
    OneStep(false, s2, e[1..][1..], s3);
    OneStep(false, s1, e[1..], s2);
    OneStep(false, s0, e, s1);
  }
}
