/** The hub in the source's own control flow: Publish, Subscribe and the cases of Run's select, with
  * their loops over the client map, each proved to be a step of Hub. */
module HubCode {
  import opened Options
  import opened EventStream
  import opened Hub

  class EventHub {
    var clients: set<Id>
    var register: seq<Id>
    var unregister: seq<Id>
    var broadcast: seq<Event>
    var running: bool
    var chans: map<Id, Client>
    ghost var panicked: bool
    ghost var waiting: set<Id>
    ghost var accepted: seq<Event>
    var processed: nat
    ghost var dropped: nat
    ghost var published: nat

    ghost function View(): State
      reads this
    {
      State(clients, register, unregister, broadcast, running, panicked, waiting, chans, accepted, processed, dropped, published)
    }

    constructor ()
      ensures View() == INIT
    {
      clients, register, unregister, broadcast := {}, [], [], [];
      running, chans := true, map[];
      panicked, waiting, accepted := false, {}, [];
      processed, dropped, published := 0, 0, 0;
    }

    method Publish(e: Event)
      modifies this
      ensures Do(old(View()), Step.Publish(e)) == Some(View())
    {
      published := published + 1;
      if |broadcast| < BROADCAST_SIZE {
        broadcast := broadcast + [e];
        accepted := accepted + [e];
      } else {
        dropped := dropped + 1;
      }
    }

    /** The blocking send on `register` goes through when there is room. */
    method Subscribe(id: Id)
      requires id !in chans && id !in waiting && |register| < REGISTER_SIZE
      modifies this
      ensures Execute(old(View()), [Step.Subscribe(id)] + [SendRegister(id)]) == Some(View())
    {
      ghost var before := View();
      chans := chans[id := Client(true, [], [], [], 0, 0, 0, 0)];
      register := register + [id];
      assert (waiting + {id}) - {id} == waiting;
      ExecuteSnoc(before, [], Step.Subscribe(id));
      assert [] + [Step.Subscribe(id)] == [Step.Subscribe(id)];
      ExecuteSnoc(before, [Step.Subscribe(id)], SendRegister(id));
    }

    method ServeRegister()
      requires running && register != [] && register[0] in chans
      modifies this
      ensures Do(old(View()), Step.ServeRegister) == Some(View())
    {
      var client := register[0];
      register := register[1..];
      clients := clients + {client};
      chans := chans[client := chans[client].(joined := processed)];
    }

    /** close(client.Send) */
    method Close(id: Id)
      requires id in chans
      modifies this`chans, this`panicked
      ensures chans == old(chans)[id := Closed(old(chans)[id])]
      ensures panicked == (old(panicked) || !old(chans)[id].isOpen)
    {
      panicked := panicked || !chans[id].isOpen;
      chans := chans[id := Closed(chans[id])];
    }

    method ServeUnregister()
      requires running && unregister != [] && clients <= chans.Keys
      modifies this
      ensures Do(old(View()), Step.ServeUnregister) == Some(View())
    {
      var client := unregister[0];
      unregister := unregister[1..];
      if client in clients {
        CloseOne(View(), client);
        clients := clients - {client};
        Close(client);
      }
    }

    /** The select with a default branch around one client's channel. */
    method TrySend(id: Id, item: Item)
      requires id in chans
      modifies this`chans, this`panicked
      ensures chans == old(chans)[id := Offer(old(chans)[id], item, processed)]
      ensures panicked == (old(panicked) || !old(chans)[id].isOpen)
    {
      panicked := panicked || !chans[id].isOpen;
      var c := chans[id];
      if !item.ping {
        c := c.(offered := c.offered + 1);
      }
      if |c.buffer| < SEND_SIZE {
        c := c.(buffer := c.buffer + [item]);
        if !item.ping {
          c := c.(log := c.log + [processed]);
        }
      } else if !item.ping {
        c := c.(dropped := c.dropped + 1);
      }
      chans := chans[id := c];
    }

    /** The loop over the client map, in whatever order it is ranged. */
    method SendToAll(item: Item)
      requires clients <= chans.Keys
      modifies this`chans, this`panicked
      ensures View() == OfferAll(old(View()), item)
    {
      var todo := clients;
      while todo != {}
        invariant todo <= clients && chans.Keys == old(chans).Keys
        invariant forall id :: id in chans ==>
                    chans[id] == if id in clients - todo then Offer(old(chans)[id], item, processed) else old(chans)[id]
        invariant panicked == (old(panicked) || exists id :: id in clients - todo && !old(chans)[id].isOpen)
        decreases todo
      {
        var id :| id in todo;
        TrySend(id, item);
        todo := todo - {id};
      }
      assert clients - {} == clients;
      assert chans == OfferAll(old(View()), item).chans;
    }

    method ServeBroadcast()
      requires running && broadcast != [] && clients <= chans.Keys
      modifies this
      ensures Do(old(View()), Step.ServeBroadcast) == Some(View())
    {
      var event := broadcast[0];
      SendToAll(Item(event, false));
      broadcast := broadcast[1..];
      processed := processed + 1;
    }

    method ServePing(ping: Event)
      requires running && clients <= chans.Keys
      modifies this
      ensures Do(old(View()), Step.ServePing(ping)) == Some(View())
    {
      SendToAll(Item(ping, true));
    }

    /** The loop that closes every client. */
    method CloseClients()
      requires clients <= chans.Keys
      modifies this`clients, this`chans, this`panicked
      ensures View() == CloseAll(old(View()), old(clients))
    {
      ghost var before, done := View(), {};
      CloseNone(before);
      while clients != {}
        invariant done <= old(clients) && clients == old(clients) - done && clients <= chans.Keys
        invariant View() == CloseAll(before, done)
        decreases clients
      {
        var id :| id in clients;
        CloseMore(before, done, id);
        Close(id);
        clients := clients - {id};
        done := done + {id};
      }
      assert done == old(clients);
    }

    /** The case of a finished context. */
    method Shutdown()
      requires running && clients <= chans.Keys
      modifies this
      ensures Do(old(View()), Step.Shutdown) == Some(View())
    {
      CloseClients();
      running := false;
    }
  }

  lemma CloseNone(s: State)
    ensures CloseAll(s, {}) == s
  {
    assert CloseAll(s, {}).chans == s.chans;
  }

  /** Closing one channel more. */
  lemma CloseMore(s: State, done: set<Id>, id: Id)
    requires id in s.chans && id !in done
    ensures var mid := CloseAll(s, done);
            CloseAll(s, done + {id})
            == mid.(chans := mid.chans[id := Closed(mid.chans[id])], panicked := mid.panicked || !mid.chans[id].isOpen,
                    clients := mid.clients - {id})
  {
    var mid := CloseAll(s, done);
    assert CloseAll(s, done + {id}).chans == mid.chans[id := Closed(mid.chans[id])];
    assert s.clients - (done + {id}) == mid.clients - {id};
  }

  lemma CloseOne(s: State, id: Id)
    requires id in s.chans
    ensures CloseAll(s, {id}) ==
            s.(chans := s.chans[id := Closed(s.chans[id])], panicked := s.panicked || !s.chans[id].isOpen,
               clients := s.clients - {id})
  {
    CloseNone(s);
    CloseMore(s, {}, id);
    assert {} + {id} == {id};
  }
}
