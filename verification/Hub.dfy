/** The event hub of internal/events/hub.go: registrations, removals, broadcasts, pings and shutdown
  * served one at a time, while publishers, subscribers and listeners act in between. */
module Hub {
  import opened Options
  import opened EventStream

  type Id = string

  const REGISTER_SIZE := 64
  const UNREGISTER_SIZE := 64
  const BROADCAST_SIZE := 256
  const SEND_SIZE := 64

  datatype Item = Item(event: Event, ping: bool)

  /** A client's Send channel, and what only its past knows: what the listener took, which of the
    * hub's events were put in its buffer, how many were dropped for a full buffer, how many the hub
    * had processed when it joined and offered since, and how often its channel was closed. */
  datatype Client = Client(isOpen: bool, buffer: seq<Item>, received: seq<Item>,
                           log: seq<nat>, dropped: nat, joined: nat, offered: nat, closes: nat)

  /** `clients` is the hub's map, `waiting` are subscribers about to send on `register`. `accepted`
    * are the events ever put in the broadcast channel, `processed` how many were taken out. */
  datatype State = State(clients: set<Id>, register: seq<Id>, unregister: seq<Id>, broadcast: seq<Event>,
                         running: bool, panicked: bool, waiting: set<Id>, chans: map<Id, Client>,
                         accepted: seq<Event>, processed: nat, dropped: nat, published: nat)

  const INIT := State({}, [], [], [], true, false, {}, map[], [], 0, 0, 0)

  datatype Step =
    | Publish(event: Event)
    | Subscribe(id: Id)               // the client and its channel are made
    | SendRegister(id: Id)            // ... and the send on `register` goes through
    | Unsubscribe(id: Id)             // may be called again and again
    | ServeRegister
    | ServeUnregister
    | ServeBroadcast
    | ServePing(event: Event)
    | Shutdown
    | Receive(id: Id)                 // the listener takes an item

  /** A non-blocking send on the client's channel; events of the hub are counted. */
  function Offer(c: Client, item: Item, index: nat): Client {
    var counted := if item.ping then c else c.(offered := c.offered + 1);
    if |c.buffer| < SEND_SIZE then
      counted.(buffer := c.buffer + [item], log := if item.ping then c.log else c.log + [index])
    else if item.ping then counted
    else counted.(dropped := c.dropped + 1)
  }

  function Closed(c: Client): Client {
    c.(isOpen := false, closes := c.closes + 1)
  }

  /** Sending on or closing a closed channel panics. */
  function OfferAll(s: State, item: Item): State {
    s.(chans := map id | id in s.chans :: if id in s.clients then Offer(s.chans[id], item, s.processed) else s.chans[id],
       panicked := s.panicked || exists id :: id in s.clients && id in s.chans && !s.chans[id].isOpen)
  }

  function CloseAll(s: State, ids: set<Id>): State {
    s.(chans := map id | id in s.chans :: if id in ids then Closed(s.chans[id]) else s.chans[id],
       panicked := s.panicked || exists id :: id in ids && id in s.chans && !s.chans[id].isOpen,
       clients := s.clients - ids)
  }

  /** One step; None when it cannot happen now. */
  function Do(s: State, step: Step): Option<State> {
    match step
    case Publish(e) =>
      if |s.broadcast| < BROADCAST_SIZE then
        Some(s.(broadcast := s.broadcast + [e], accepted := s.accepted + [e], published := s.published + 1))
      else Some(s.(dropped := s.dropped + 1, published := s.published + 1))
    case Subscribe(id) =>
      if id in s.chans then None
      else Some(s.(chans := s.chans[id := Client(true, [], [], [], 0, 0, 0, 0)], waiting := s.waiting + {id}))
    case SendRegister(id) =>
      if id !in s.waiting || |s.register| >= REGISTER_SIZE then None
      else Some(s.(waiting := s.waiting - {id}, register := s.register + [id]))
    case Unsubscribe(id) =>
      if id !in s.chans || id in s.waiting || |s.unregister| >= UNREGISTER_SIZE then None
      else Some(s.(unregister := s.unregister + [id]))
    case ServeRegister =>
      if !s.running || s.register == [] || s.register[0] !in s.chans then None
      else
        var id := s.register[0];
        Some(s.(register := s.register[1..], clients := s.clients + {id},
                chans := s.chans[id := s.chans[id].(joined := s.processed)]))
    case ServeUnregister =>
      if !s.running || s.unregister == [] then None
      else
        var id := s.unregister[0];
        var rest := s.(unregister := s.unregister[1..]);
        Some(if id in s.clients then CloseAll(rest, {id}) else rest)
    case ServeBroadcast =>
      if !s.running || s.broadcast == [] then None
      else Some(OfferAll(s, Item(s.broadcast[0], false)).(broadcast := s.broadcast[1..], processed := s.processed + 1))
    case ServePing(e) => if !s.running then None else Some(OfferAll(s, Item(e, true)))
    case Shutdown => if !s.running then None else Some(CloseAll(s, s.clients).(running := false))
    case Receive(id) =>
      if id !in s.chans || s.chans[id].buffer == [] then None
      else
        var c := s.chans[id];
        Some(s.(chans := s.chans[id := c.(buffer := c.buffer[1..], received := c.received + [c.buffer[0]])]))
  }

  function Execute(s: State, steps: seq<Step>): Option<State> {
    if steps == [] then Some(s)
    else
      match Execute(s, steps[..|steps| - 1])
      case None => None
      case Some(mid) => Do(mid, steps[|steps| - 1])
  }

  // ---------- The invariant ----------

  /** The events of the hub among the items, pings left out. */
  function Events(items: seq<Item>): seq<Event> {
    if items == [] then []
    else
      var before := Events(items[..|items| - 1]);
      if items[|items| - 1].ping then before else before + [items[|items| - 1].event]
  }

  ghost predicate Increasing(log: seq<nat>, from: nat, to: nat) {
    && (forall i :: 0 <= i < |log| ==> from <= log[i] < to)
    && (forall i, j :: 0 <= i < j < |log| ==> log[i] < log[j])
  }

  /** What the listener has taken and will take are the accepted events at the logged positions. */
  ghost predicate Delivers(c: Client, accepted: seq<Event>) {
    var events := Events(c.received + c.buffer);
    && |events| == |c.log|
    && forall i :: 0 <= i < |c.log| ==> c.log[i] < |accepted| && events[i] == accepted[c.log[i]]
  }

  ghost predicate ClientOk(c: Client, accepted: seq<Event>, processed: nat) {
    && |c.buffer| <= SEND_SIZE
    && Delivers(c, accepted)
    && Increasing(c.log, c.joined, c.joined + c.offered)
    && |c.log| + c.dropped == c.offered
    && c.joined + c.offered <= processed
    && c.closes <= 1 && (c.isOpen <==> c.closes == 0)
  }

  ghost predicate Distinct(ids: seq<Id>) {
    forall i, j :: 0 <= i < j < |ids| ==> ids[i] != ids[j]
  }

  /** A client is on its way into the map until it has been in it; it is then in it or closed. */
  ghost predicate Owned(s: State) {
    && s.clients <= s.chans.Keys && s.waiting <= s.chans.Keys
    && Distinct(s.register)
    && (forall id :: id in s.clients ==> s.chans[id].isOpen && id !in s.waiting && id !in s.register)
    && (forall id :: id in s.register ==> id in s.chans && s.chans[id].isOpen && id !in s.waiting)
    && (forall id :: id in s.waiting ==> s.chans[id].isOpen)
    && (forall id :: id in s.register || id in s.waiting ==> id in s.chans && s.chans[id].offered == 0)
    && (forall id :: id in s.chans && s.chans[id].isOpen ==> id in s.clients || id in s.register || id in s.waiting)
    && !s.panicked
  }

  ghost predicate Counted(s: State) {
    && s.processed <= |s.accepted| && s.broadcast == s.accepted[s.processed..]
    && |s.broadcast| <= BROADCAST_SIZE
    && s.published == s.dropped + |s.accepted|
    && (forall id :: id in s.clients && id in s.chans ==> s.chans[id].joined + s.chans[id].offered == s.processed)
  }

  ghost predicate Inv(s: State) {
    && Owned(s) && Counted(s)
    && forall id :: id in s.chans ==> ClientOk(s.chans[id], s.accepted, s.processed)
  }

  // ---------- One client ----------

  lemma EventsSnoc(items: seq<Item>, item: Item)
    ensures Events(items + [item]) == if item.ping then Events(items) else Events(items) + [item.event]
  {
    assert (items + [item])[..|items|] == items;
  }

  lemma BufferSnoc(c: Client, item: Item)
    ensures c.received + (c.buffer + [item]) == (c.received + c.buffer) + [item]
    ensures Events(c.received + (c.buffer + [item]))
            == if item.ping then Events(c.received + c.buffer) else Events(c.received + c.buffer) + [item.event]
  {
    assert c.received + (c.buffer + [item]) == (c.received + c.buffer) + [item];
    EventsSnoc(c.received + c.buffer, item);
  }

  /** An event that fits is delivered at the position it was accepted at. */
  lemma OfferDelivers(c: Client, item: Item, accepted: seq<Event>, index: nat)
    requires Delivers(c, accepted) && !item.ping && index < |accepted| && item.event == accepted[index]
    ensures Delivers(c.(buffer := c.buffer + [item], log := c.log + [index]), accepted)
  {
    BufferSnoc(c, item);
  }

  lemma OfferKeeps(c: Client, item: Item, accepted: seq<Event>, processed: nat)
    requires ClientOk(c, accepted, processed) && c.joined + c.offered == processed < |accepted|
    requires !item.ping && item.event == accepted[processed]
    ensures var c' := Offer(c, item, processed);
            ClientOk(c', accepted, processed + 1) && c'.joined + c'.offered == processed + 1 && c'.isOpen == c.isOpen
  {
    if |c.buffer| < SEND_SIZE {
      OfferDelivers(c, item, accepted, processed);
      var c' := Offer(c, item, processed);
      assert Delivers(c', accepted) by {
        var d := c.(buffer := c.buffer + [item], log := c.log + [processed]);
        assert c'.received == d.received && c'.buffer == d.buffer && c'.log == d.log;
      }
    } else {
      assert Delivers(Offer(c, item, processed), accepted);
    }
  }

  lemma PingKeeps(c: Client, item: Item, accepted: seq<Event>, processed: nat)
    requires ClientOk(c, accepted, processed) && item.ping
    ensures var c' := Offer(c, item, processed);
            ClientOk(c', accepted, processed) && c'.isOpen == c.isOpen && c'.joined == c.joined && c'.offered == c.offered
  {
    BufferSnoc(c, item);
  }

  lemma ReceiveKeeps(c: Client, accepted: seq<Event>, processed: nat)
    requires ClientOk(c, accepted, processed) && c.buffer != []
    ensures ClientOk(c.(buffer := c.buffer[1..], received := c.received + [c.buffer[0]]), accepted, processed)
  {
    assert (c.received + [c.buffer[0]]) + c.buffer[1..] == c.received + c.buffer;
  }

  /** More accepted or processed events do not touch what a client holds. */
  lemma ClientFrame(c: Client, accepted: seq<Event>, accepted': seq<Event>, processed: nat, processed': nat)
    requires ClientOk(c, accepted, processed) && accepted <= accepted' && processed <= processed'
    ensures ClientOk(c, accepted', processed')
  {}

  // ---------- Every step keeps the invariant ----------

  lemma PublishKeeps(s: State, e: Event)
    requires Inv(s)
    ensures Inv(Do(s, Publish(e)).value)
  {
    var s' := Do(s, Publish(e)).value;
    forall id | id in s'.chans ensures ClientOk(s'.chans[id], s'.accepted, s'.processed) {
      ClientFrame(s.chans[id], s.accepted, s'.accepted, s.processed, s'.processed);
    }
  }

  lemma SubscribeKeeps(s: State, id: Id)
    requires Inv(s) && id !in s.chans
    ensures Inv(Do(s, Subscribe(id)).value)
  {
    assert Events([] + []) == [];
  }

  lemma RegisterKeeps(s: State)
    requires Inv(s) && Do(s, ServeRegister).Some?
    ensures Inv(Do(s, ServeRegister).value)
  {
    var s' := Do(s, ServeRegister).value;
    var id := s.register[0];
    assert id in s.register;
    var c := s.chans[id];
    assert ClientOk(c, s.accepted, s.processed) && c.log == [];
    assert ClientOk(c.(joined := s.processed), s.accepted, s.processed);
    forall x | x in s'.register ensures x in s.register && x != id {
      var i :| 0 <= i < |s'.register| && s'.register[i] == x;
      assert s.register[i + 1] == x;
    }
  }

  lemma CloseKeeps(s: State, ids: set<Id>)
    requires Inv(s) && ids <= s.clients
    ensures Inv(CloseAll(s, ids))
  {
    var s' := CloseAll(s, ids);
    forall id | id in s'.chans ensures ClientOk(s'.chans[id], s'.accepted, s'.processed) {
      assert ClientOk(s.chans[id], s.accepted, s.processed);
    }
  }

  lemma BroadcastKeeps(s: State)
    requires Inv(s) && Do(s, ServeBroadcast).Some?
    ensures Inv(Do(s, ServeBroadcast).value)
  {
    var s' := Do(s, ServeBroadcast).value;
    var item := Item(s.broadcast[0], false);
    forall id | id in s'.chans
      ensures ClientOk(s'.chans[id], s'.accepted, s'.processed)
      ensures s'.chans[id].isOpen == s.chans[id].isOpen
      ensures id in s.clients ==> s'.chans[id].joined + s'.chans[id].offered == s'.processed
    {
      if id in s.clients {
        OfferKeeps(s.chans[id], item, s.accepted, s.processed);
      } else {
        ClientFrame(s.chans[id], s.accepted, s'.accepted, s.processed, s'.processed);
      }
    }
  }

  lemma PingStepKeeps(s: State, e: Event)
    requires Inv(s) && s.running
    ensures Inv(Do(s, ServePing(e)).value)
  {
    var s' := Do(s, ServePing(e)).value;
    forall id | id in s'.chans
      ensures ClientOk(s'.chans[id], s'.accepted, s'.processed)
      ensures s'.chans[id].isOpen == s.chans[id].isOpen
      ensures s'.chans[id].joined == s.chans[id].joined && s'.chans[id].offered == s.chans[id].offered
    {
      assert ClientOk(s.chans[id], s.accepted, s.processed);
      PingKeeps(s.chans[id], Item(e, true), s.accepted, s.processed);
    }
  }

  lemma ReceiveStepKeeps(s: State, id: Id)
    requires Inv(s) && Do(s, Receive(id)).Some?
    ensures Inv(Do(s, Receive(id)).value)
  {
    ReceiveKeeps(s.chans[id], s.accepted, s.processed);
  }

  lemma StepKeepsInv(s: State, step: Step)
    requires Inv(s) && Do(s, step).Some?
    ensures Inv(Do(s, step).value)
  {
    match step
    case Publish(e) => PublishKeeps(s, e);
    case Subscribe(id) => SubscribeKeeps(s, id);
    case SendRegister(id) =>
    case Unsubscribe(id) =>
    case ServeRegister => RegisterKeeps(s);
    case ServeUnregister =>
      if s.unregister[0] in s.clients {
        CloseKeeps(s.(unregister := s.unregister[1..]), {s.unregister[0]});
      }
    case ServeBroadcast => BroadcastKeeps(s);
    case ServePing(e) => PingStepKeeps(s, e);
    case Shutdown => CloseKeeps(s, s.clients);
    case Receive(id) => ReceiveStepKeeps(s, id);
  }

  lemma {:induction false} Reachable(steps: seq<Step>)
    requires Execute(INIT, steps).Some?
    ensures Inv(Execute(INIT, steps).value)
  {
    if steps == [] {
    } else {
      var n := |steps| - 1;
      Reachable(steps[..n]);
      StepKeepsInv(Execute(INIT, steps[..n]).value, steps[n]);
    }
  }

  // ---------- What the hub promises ----------

  /** In every reachable state, shutdown and repeated or early unsubscribes included: no send and no
    * close has hit a closed channel, each channel was closed at most once, clients in the map have
    * open channels, and a closed client is neither in the map nor on its way into it. */
  lemma ChannelsAreOwned(steps: seq<Step>, id: Id)
    requires Execute(INIT, steps).Some? && id in Execute(INIT, steps).value.chans
    ensures var s := Execute(INIT, steps).value;
            && !s.panicked
            && s.chans[id].closes <= 1 && (s.chans[id].closes == 1 <==> !s.chans[id].isOpen)
            && (id in s.clients ==> s.chans[id].isOpen)
            && (!s.chans[id].isOpen ==> id !in s.clients && id !in s.register && id !in s.waiting)
  {
    Reachable(steps);
    assert ClientOk(Execute(INIT, steps).value.chans[id], Execute(INIT, steps).value.accepted, Execute(INIT, steps).value.processed);
  }

  /** The events a client was given, in order, are accepted events at strictly increasing positions:
    * publication order is kept and nothing is duplicated. Each broadcast processed during its
    * membership was put in its buffer once or dropped for a full buffer. */
  lemma DeliveryOrder(steps: seq<Step>, id: Id)
    requires Execute(INIT, steps).Some? && id in Execute(INIT, steps).value.chans
    ensures var s := Execute(INIT, steps).value;
            var c := s.chans[id];
            var events := Events(c.received + c.buffer);
            && |events| == |c.log|
            && (forall i :: 0 <= i < |c.log| ==> c.log[i] < |s.accepted| && events[i] == s.accepted[c.log[i]])
            && (forall i, j :: 0 <= i < j < |c.log| ==> c.log[i] < c.log[j])
            && (forall i :: 0 <= i < |c.log| ==> c.joined <= c.log[i] < c.joined + c.offered)
            && |c.log| + c.dropped == c.offered
            && (id in s.clients ==> c.joined + c.offered == s.processed)
  {
    Reachable(steps);
    var s := Execute(INIT, steps).value;
    assert ClientOk(s.chans[id], s.accepted, s.processed);
  }

  /** Every published event was dropped at the hub, waits in the broadcast channel, or was processed;
    * and those waiting are the newest accepted ones. */
  lemma PublishedAccountedFor(steps: seq<Step>)
    requires Execute(INIT, steps).Some?
    ensures var s := Execute(INIT, steps).value;
            && s.published == s.dropped + |s.broadcast| + s.processed
            && s.processed <= |s.accepted| && s.accepted[s.processed..] == s.broadcast
            && |s.broadcast| <= BROADCAST_SIZE
  {
    Reachable(steps);
  }

  // ---------- What is dropped, and when ----------

  /** Before the shutdown the hub serves whatever waits; after it, nothing. */
  lemma ServingLaw(s: State, e: Event)
    requires Inv(s)
    ensures Do(s, ServeRegister).Some? <==> s.running && s.register != []
    ensures Do(s, ServeUnregister).Some? <==> s.running && s.unregister != []
    ensures Do(s, ServeBroadcast).Some? <==> s.running && s.broadcast != []
    ensures Do(s, ServePing(e)).Some? <==> s.running
    ensures Do(s, Shutdown).Some? <==> s.running
    ensures s.running ==> !Do(s, Shutdown).value.running && Do(s, Shutdown).value.clients == {}
  {
    if s.register != [] {
      assert s.register[0] in s.register;
    }
  }

  /** A new client waits for room among the 64 registrations, and a removal for room among its own 64. */
  lemma HandshakeLaw(s: State, id: Id)
    ensures Do(s, SendRegister(id)).Some? <==> id in s.waiting && |s.register| < 64
    ensures Do(s, SendRegister(id)).Some? ==>
              var s' := Do(s, SendRegister(id)).value; s'.register == s.register + [id] && s'.waiting == s.waiting - {id}
    ensures Do(s, Unsubscribe(id)).Some? <==> id in s.chans && id !in s.waiting && |s.unregister| < 64
    ensures Do(s, Unsubscribe(id)).Some? ==> Do(s, Unsubscribe(id)).value.unregister == s.unregister + [id]
  {}

  /** An event is dropped at the hub exactly when 256 events wait, and appended to them otherwise. */
  lemma PublishLaw(s: State, e: Event)
    ensures Do(s, Publish(e)).Some?
    ensures var s' := Do(s, Publish(e)).value;
            if |s.broadcast| < 256
            then s'.broadcast == s.broadcast + [e] && s'.accepted == s.accepted + [e] && s'.dropped == s.dropped
            else s'.broadcast == s.broadcast && s'.accepted == s.accepted && s'.dropped == s.dropped + 1
  {}

  /** Serving a broadcast puts the front event at the end of the buffer of every client in the map whose
    * buffer has room for it, one of 64 items, and drops it for exactly those whose buffer is full. */
  lemma BroadcastLaw(s: State, id: Id)
    requires Do(s, ServeBroadcast).Some? && id in s.chans
    ensures var s' := Do(s, ServeBroadcast).value;
            && s.broadcast != [] && s'.broadcast == s.broadcast[1..] && id in s'.chans
            && var c, c' := s.chans[id], s'.chans[id];
               if id !in s.clients then c' == c
               else && c'.buffer == (if |c.buffer| < 64 then c.buffer + [Item(s.broadcast[0], false)] else c.buffer)
                    && c'.dropped == c.dropped + (if |c.buffer| < 64 then 0 else 1)
                    && c'.received == c.received && c'.isOpen == c.isOpen
  {}

  /** A ping goes to every client in the map with room, and is otherwise lost without being counted. */
  lemma PingLaw(s: State, e: Event, id: Id)
    requires Do(s, ServePing(e)).Some? && id in s.chans
    ensures var s' := Do(s, ServePing(e)).value;
            && id in s'.chans
            && var c, c' := s.chans[id], s'.chans[id];
               if id in s.clients && |c.buffer| < 64 then c' == c.(buffer := c.buffer + [Item(e, true)]) else c' == c
  {}

  /** A listener takes the front item of its buffer. */
  lemma ReceiveLaw(s: State, id: Id)
    requires id in s.chans && s.chans[id].buffer != []
    ensures Do(s, Receive(id)).Some?
    ensures var s' := Do(s, Receive(id)).value;
            && id in s'.chans && s.chans[id].buffer == [s.chans[id].buffer[0]] + s'.chans[id].buffer
            && s'.chans[id].received == s.chans[id].received + [s.chans[id].buffer[0]]
            && forall x :: x in s.chans && x != id ==> x in s'.chans && s'.chans[x] == s.chans[x]
  {}

  /** A broadcast is served while the client is in the map with 64 unread items. */
  ghost predicate Overflows(s: State, step: Step, id: Id) {
    step == ServeBroadcast && id in s.clients && id in s.chans && |s.chans[id].buffer| >= 64
  }

  ghost predicate OverflowsAt(steps: seq<Step>, n: nat, id: Id) {
    n < |steps| && Execute(INIT, steps[..n]).Some? && Overflows(Execute(INIT, steps[..n]).value, steps[n], id)
  }

  /** How many steps of the run are such. */
  ghost function Overflown(steps: seq<Step>, id: Id): nat {
    if steps == [] then 0
    else Overflown(steps[..|steps| - 1], id) + if OverflowsAt(steps, |steps| - 1, id) then 1 else 0
  }

  function DroppedFor(s: State, id: Id): nat {
    if id in s.chans then s.chans[id].dropped else 0
  }

  lemma StepDrops(s: State, step: Step, id: Id)
    requires Inv(s) && Do(s, step).Some?
    ensures DroppedFor(Do(s, step).value, id) == DroppedFor(s, id) + if Overflows(s, step, id) then 1 else 0
  {
    if step == ServeBroadcast && id in s.chans {
      BroadcastLaw(s, id);
    }
  }

  /** Over every run: the events counted as dropped for a client are exactly the broadcasts served while it
    * was in the map with a full buffer. */
  lemma {:induction false} DroppedIsOverflown(steps: seq<Step>, id: Id)
    requires Execute(INIT, steps).Some?
    ensures DroppedFor(Execute(INIT, steps).value, id) == Overflown(steps, id)
  {
    if steps == [] {
    } else {
      var n := |steps| - 1;
      DroppedIsOverflown(steps[..n], id);
      Reachable(steps[..n]);
      StepDrops(Execute(INIT, steps[..n]).value, steps[n], id);
    }
  }

  lemma {:induction false} NeverOverflown(steps: seq<Step>, id: Id)
    requires forall n: nat :: !OverflowsAt(steps, n, id)
    ensures Overflown(steps, id) == 0
  {
    if steps == [] {
    } else {
      var k := |steps| - 1;
      forall n: nat ensures !OverflowsAt(steps[..k], n, id) {
        if n < k {
          assert steps[..k][..n] == steps[..n];
          assert !OverflowsAt(steps, n, id);
        }
      }
      NeverOverflown(steps[..k], id);
    }
  }

  lemma {:induction false} FullLog(log: seq<nat>, from: nat, k: nat)
    requires Increasing(log, from, from + |log|) && k < |log|
    ensures log[k] == from + k
    decreases |log| - k
  {
    if k == |log| - 1 {
      FirstFromBelow(log, from, k);
    } else {
      FullLog(log, from, k + 1);
      FirstFromBelow(log, from, k);
    }
  }

  lemma {:induction false} FirstFromBelow(log: seq<nat>, from: nat, k: nat)
    requires Increasing(log, from, from + |log|) && k < |log|
    ensures log[k] >= from + k
  {
    if k == 0 {
    } else {
      FirstFromBelow(log, from, k - 1);
      assert log[k - 1] < log[k];
    }
  }

  lemma WholeLog(c: Client, accepted: seq<Event>, processed: nat)
    requires ClientOk(c, accepted, processed) && c.dropped == 0 && processed <= |accepted|
    ensures Events(c.received + c.buffer) == accepted[c.joined..c.joined + c.offered]
  {
    forall i | 0 <= i < |c.log| ensures c.log[i] == c.joined + i {
      FullLog(c.log, c.joined, i);
    }
  }

  /** A client whose buffer is never full when a broadcast is served loses nothing: taken and buffered, it
    * has every event the hub processed since it joined, in order, up to now while it is in the map. */
  lemma NothingLostWithRoom(steps: seq<Step>, id: Id)
    requires Execute(INIT, steps).Some? && id in Execute(INIT, steps).value.chans
    requires forall n: nat :: !OverflowsAt(steps, n, id)
    ensures var s := Execute(INIT, steps).value;
            var c := s.chans[id];
            && c.joined + c.offered <= s.processed <= |s.accepted|
            && Events(c.received + c.buffer) == s.accepted[c.joined..c.joined + c.offered]
            && (id in s.clients ==> c.joined + c.offered == s.processed)
  {
    Reachable(steps);
    DroppedIsOverflown(steps, id);
    NeverOverflown(steps, id);
    var s := Execute(INIT, steps).value;
    WholeLog(s.chans[id], s.accepted, s.processed);
  }

  // ---------- Who is in the map ----------

  ghost predicate Registers(s: State, step: Step, id: Id) {
    step == ServeRegister && s.register != [] && s.register[0] == id
  }

  ghost predicate Removes(s: State, step: Step, id: Id) {
    step == Shutdown || (step == ServeUnregister && s.unregister != [] && s.unregister[0] == id)
  }

  /** Step `n` of the run serves the client's registration. */
  ghost predicate RegisteredAt(steps: seq<Step>, n: nat, id: Id) {
    n < |steps| && Execute(INIT, steps[..n]).Some? && Registers(Execute(INIT, steps[..n]).value, steps[n], id)
  }

  /** Step `n` of the run serves a removal of the client, or shuts the hub down. */
  ghost predicate RemovedAt(steps: seq<Step>, n: nat, id: Id) {
    n < |steps| && Execute(INIT, steps[..n]).Some? && Removes(Execute(INIT, steps[..n]).value, steps[n], id)
  }

  /** The registration was served at step `n` and no removal since. */
  ghost predicate InSince(steps: seq<Step>, n: nat, id: Id) {
    RegisteredAt(steps, n, id) && forall m: nat :: n < m ==> !RemovedAt(steps, m, id)
  }

  lemma StepClients(s: State, step: Step, id: Id)
    requires Do(s, step).Some?
    ensures id in Do(s, step).value.clients <==> Registers(s, step, id) || (id in s.clients && !Removes(s, step, id))
  {}

  lemma PrefixEvents(steps: seq<Step>, n: nat, id: Id)
    requires n + 1 < |steps|
    ensures RegisteredAt(steps, n, id) <==> RegisteredAt(steps[..|steps| - 1], n, id)
    ensures RemovedAt(steps, n, id) <==> RemovedAt(steps[..|steps| - 1], n, id)
  {
    assert steps[..|steps| - 1][..n] == steps[..n];
  }

  lemma InSinceInit(steps: seq<Step>, n: nat, id: Id)
    requires n + 1 < |steps|
    ensures InSince(steps, n, id) <==> InSince(steps[..|steps| - 1], n, id) && !RemovedAt(steps, |steps| - 1, id)
  {
    var k := |steps| - 1;
    PrefixEvents(steps, n, id);
    forall m: nat | m < k ensures RemovedAt(steps, m, id) <==> RemovedAt(steps[..k], m, id) {
      PrefixEvents(steps, m, id);
    }
    if InSince(steps[..k], n, id) && !RemovedAt(steps, k, id) {
      forall m: nat | n < m ensures !RemovedAt(steps, m, id) {
        assert !RemovedAt(steps[..k], m, id);
      }
    }
    if InSince(steps, n, id) {
      forall m: nat | n < m ensures !RemovedAt(steps[..k], m, id) {
        assert !RemovedAt(steps, m, id);
      }
    }
  }

  lemma InSinceSnoc(steps: seq<Step>, id: Id)
    requires steps != []
    ensures var k := |steps| - 1;
            (exists n: nat :: InSince(steps, n, id))
            <==> RegisteredAt(steps, k, id) || ((exists n: nat :: InSince(steps[..k], n, id)) && !RemovedAt(steps, k, id))
  {
    var k := |steps| - 1;
    if RegisteredAt(steps, k, id) {
      assert InSince(steps, k, id);
    }
    if n: nat :| InSince(steps[..k], n, id) {
      InSinceInit(steps, n, id);
    }
    if n: nat :| InSince(steps, n, id) {
      if n < k {
        InSinceInit(steps, n, id);
      }
    }
  }

  /** Over every run: a client is in the map exactly when its registration has been served and since then
    * neither a removal of it nor the shutdown. */
  lemma {:induction false} InMapIff(steps: seq<Step>, id: Id)
    requires Execute(INIT, steps).Some?
    ensures id in Execute(INIT, steps).value.clients <==> exists n: nat :: InSince(steps, n, id)
  {
    if steps == [] {
    } else {
      var k := |steps| - 1;
      InMapIff(steps[..k], id);
      StepClients(Execute(INIT, steps[..k]).value, steps[k], id);
      InSinceSnoc(steps, id);
    }
  }

  lemma StepRegistered(s: State, step: Step, id: Id)
    requires Inv(s) && Do(s, step).Some?
    requires Registers(s, step, id) || (id in s.chans && id !in s.register && id !in s.waiting)
    ensures var s' := Do(s, step).value; id in s'.chans && id !in s'.register && id !in s'.waiting
  {
    if Registers(s, step, id) {
      assert id in s.register;
      assert forall i :: 0 <= i < |s.register[1..]| ==> s.register[1..][i] == s.register[i + 1];
    }
  }

  /** A registration is served once. */
  lemma {:induction false} RegisteredIsDone(steps: seq<Step>, n: nat, id: Id)
    requires Execute(INIT, steps).Some? && RegisteredAt(steps, n, id)
    ensures var s := Execute(INIT, steps).value; id in s.chans && id !in s.register && id !in s.waiting
    decreases |steps|
  {
    var k := |steps| - 1;
    Reachable(steps[..k]);
    if n == k {
    } else {
      PrefixEvents(steps, n, id);
      RegisteredIsDone(steps[..k], n, id);
    }
    StepRegistered(Execute(INIT, steps[..k]).value, steps[k], id);
  }

  /** Over every run: serving a removal of a client whose channel is open closes it exactly when the
    * client's registration was served before. */
  lemma RemovalClosesIffRegistered(steps: seq<Step>, id: Id)
    requires Execute(INIT, steps).Some?
    requires var s := Execute(INIT, steps).value;
             s.running && s.unregister != [] && s.unregister[0] == id && id in s.chans && s.chans[id].isOpen
    ensures Execute(INIT, steps + [ServeUnregister]).Some?
    ensures var s' := Execute(INIT, steps + [ServeUnregister]).value;
            && id in s'.chans && id !in s'.clients
            && (!s'.chans[id].isOpen <==> exists n: nat :: RegisteredAt(steps, n, id))
  {
    Reachable(steps);
    InMapIff(steps, id);
    ExecuteSnoc(INIT, steps, ServeUnregister);
    if n: nat :| RegisteredAt(steps, n, id) {
      RegisteredIsDone(steps, n, id);
    }
    if n: nat :| InSince(steps, n, id) {
      assert RegisteredAt(steps, n, id);
    }
  }

  lemma ExecuteSnoc(s: State, steps: seq<Step>, step: Step)
    requires Execute(s, steps).Some?
    ensures Execute(s, steps + [step]) == Do(Execute(s, steps).value, step)
  {
    assert (steps + [step])[..|steps|] == steps;
  }

  /** Served the other way round the client ends in the map, open, with no removal left to serve. */
  lemma EarlyRemovalLeavesClient(id: Id)
    ensures var end := Execute(INIT, [Subscribe(id), SendRegister(id), Unsubscribe(id)] + [ServeUnregister] + [ServeRegister]);
            && end.Some? && end.value.clients == {id} && end.value.unregister == []
            && id in end.value.chans && end.value.chans[id].isOpen
  {
    assert [Subscribe(id), SendRegister(id), Unsubscribe(id)] == (([] + [Subscribe(id)]) + [SendRegister(id)]) + [Unsubscribe(id)];
    ExecuteSnoc(INIT, [], Subscribe(id));
    ExecuteSnoc(INIT, [] + [Subscribe(id)], SendRegister(id));
    ExecuteSnoc(INIT, ([] + [Subscribe(id)]) + [SendRegister(id)], Unsubscribe(id));
    var asked := Execute(INIT, [Subscribe(id), SendRegister(id), Unsubscribe(id)]).value;
    assert asked.register == [id] && asked.unregister == [id] && asked.clients == {} && asked.chans[id].isOpen;
    ExecuteSnoc(INIT, [Subscribe(id), SendRegister(id), Unsubscribe(id)], ServeUnregister);
    ExecuteSnoc(INIT, [Subscribe(id), SendRegister(id), Unsubscribe(id)] + [ServeUnregister], ServeRegister);
  }

  // ---------- From Publish to the listener's parser ----------

  function Raw(items: seq<Item>): (events: seq<Event>)
    ensures |events| == |items| && forall i :: 0 <= i < |items| ==> events[i] == items[i].event
  {
    if items == [] then [] else Raw(items[..|items| - 1]) + [items[|items| - 1].event]
  }

  lemma {:induction false} EventsPrefix(xs: seq<Item>, ys: seq<Item>)
    ensures Events(xs) <= Events(xs + ys)
  {
    if ys == [] {
      assert xs + ys == xs;
    } else {
      var n := |ys| - 1;
      EventsPrefix(xs, ys[..n]);
      assert xs + ys == (xs + ys[..n]) + [ys[n]];
      EventsSnoc(xs + ys[..n], ys[n]);
    }
  }

  /** A listener that parses the bytes written for what it took gets exactly those events, pings
    * included; without the pings they are accepted events in publication order, none twice. */
  lemma PublishedReachesParser(steps: seq<Step>, id: Id)
    requires Execute(INIT, steps).Some? && id in Execute(INIT, steps).value.chans
    requires AllClean(Marshalled(Raw(Execute(INIT, steps).value.chans[id].received)))
    ensures var s := Execute(INIT, steps).value;
            var c := s.chans[id];
            var events := Events(c.received);
            && Parse(Stream(Marshalled(Raw(c.received)))) == Marshalled(Raw(c.received))
            && |events| <= |c.log|
            && (forall i :: 0 <= i < |events| ==> c.log[i] < |s.accepted| && events[i] == s.accepted[c.log[i]])
            && (forall i, j :: 0 <= i < j < |events| ==> c.log[i] < c.log[j])
  {
    var c := Execute(INIT, steps).value.chans[id];
    StreamRoundTrip(Marshalled(Raw(c.received)));
    DeliveryOrder(steps, id);
    EventsPrefix(c.received, c.buffer);
  }
}
