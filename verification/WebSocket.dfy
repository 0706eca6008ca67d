/** WebSocketTransport's table and its critical sections (internal/transport/websocket.go), on values and in place. */
module WebSocket {
  import opened Wrappers
  import opened Transport

  datatype CallTable<Ch> = CallTable(nextID: nat, pending: map<nat, Ch>)

  function Enroll<Ch>(t: CallTable<Ch>, ch: Ch): CallTable<Ch> {
    var id := Inc64(t.nextID);
    CallTable(id, t.pending[id := ch])
  }

  function Drop<Ch>(t: CallTable<Ch>, id: nat): CallTable<Ch> {
    t.(pending := t.pending - {id})
  }

  function Find<Ch>(t: CallTable<Ch>, id: nat): Option<Ch> {
    if id in t.pending then Some(t.pending[id]) else None
  }

  class WebSocketTransport {
    var nextID: nat
    var pending: map<nat, ReplyChan>
    var done: bool

    function View(): CallTable<ReplyChan>
      reads this
    {
      CallTable(nextID, pending)
    }

    ghost predicate Valid()
      reads this, pending.Values
    {
      && nextID < WORD
      && (forall id :: id in pending ==> pending[id].buf.None?)
      && (forall i, j :: i in pending && j in pending && i != j ==> pending[i] != pending[j])
    }

    /** Until the id counter wraps, the next id is larger than every pending one. */
    ghost predicate Numbered()
      reads this
    {
      forall id :: id in pending ==> 1 <= id <= nextID
    }

    constructor ()
      ensures Valid() && View() == CallTable(0, map[]) && !done
      ensures nextID == 0 && pending == map[]
    {
      nextID, pending, done := 0, map[], false;
    }

    /** Call up to the write. The entry overwrites no other unless the id counter wraps. */
    method RegisterCall() returns (id: Option<nat>, ch: ReplyChan)
      requires Valid()
      modifies this
      ensures Valid() && fresh(ch) && done == old(done)
      ensures id.None? <==> done
      ensures !done ==> id == Some(nextID) && nextID == (old(nextID) + 1) % 0x1_0000_0000_0000_0000
      ensures done ==> nextID == old(nextID) && pending == old(pending)
      ensures View() == if done then old(View()) else Enroll(old(View()), ch)
      ensures id.Some? ==> pending == old(pending)[id.value := ch]
      ensures id.Some? && old(Numbered()) && old(nextID) + 1 < WORD ==> Numbered() && id.value !in old(pending)
    {
      ch := new ReplyChan();
      if done { return None, ch; }
      nextID := Inc64(nextID);
      pending := pending[nextID := ch];
      id := Some(nextID);
    }

    method RemovePending(id: nat)
      requires Valid()
      modifies this`pending
      ensures Valid() && View() == Drop(old(View()), id)
      ensures pending == old(pending) - {id}
    {
      pending := pending - {id};
    }

    method DeliverResponse(id: nat, res: CallResult)
      requires Valid()
      modifies this`pending, if id in pending then {pending[id]} else {}
      ensures Valid() && View() == Drop(old(View()), id)
      ensures pending == old(pending) - {id}
      ensures id in old(pending) ==> old(pending)[id].buf == Some(res)
      ensures match Find(old(View()), id)
              case None => true
              case Some(ch) => ch.buf == Some(res)
    {
      if id in pending {
        var ch := pending[id];
        pending := pending - {id};
        var sent := ch.TrySend(res);
        assert sent;
      }
    }

    method Terminate()
      requires Valid()
      modifies this, pending.Values
      ensures Valid() && done && pending == map[] && nextID == old(nextID)
      ensures View() == old(View()).(pending := map[])
      ensures forall id :: id in old(pending) ==> old(pending)[id].buf == Some(Failed(ErrClosed))
    {
      var flushed := pending;
      pending := map[];
      Flush(flushed, ErrClosed);
      done := true;
    }

    method Close()
      requires Valid()
      modifies this, pending.Values
      ensures Valid() && done
      ensures View() == if old(done) then old(View()) else old(View()).(pending := map[])
      ensures nextID == old(nextID) && pending == if old(done) then old(pending) else map[]
      ensures old(done) ==> forall id :: id in pending ==> pending[id].buf == old(pending[id].buf)
      ensures !old(done) ==> forall id :: id in old(pending) ==> old(pending)[id].buf == Some(Failed(ErrClosed))
    {
      if done { return; }
      Terminate();
    }
  }
}
