/**
 Server-side notifications (rpc/subscription.go, rpc/handler.go): a Notifier buffers what
 its subscription is notified of until the reply to the subscribe call has been written.
 */
module Notifications {
  type Data = string

  datatype Wire = Reply | Event(notifier: nat, data: Data)

  /** The connection, by what was written to it. */
  class Connection {
    var log: seq<Wire>

    constructor ()
      ensures log == []
    {
      log := [];
    }

    /** A write either appends to the log or fails, for reasons outside the model. */
    method WriteJSON(w: Wire, ok: bool)
      modifies this
      ensures log == if ok then old(log) + [w] else old(log)
    {
      if ok {
        log := log + [w];
      }
    }
  }

  // ---- specification -------------------------------------------------------------------

  datatype NotifierState = NotifierState(
    created: bool,
    callReturned: bool,
    activated: bool,
    buffer: seq<Data>)

  const FRESH := NotifierState(false, false, false, [])

  /** No subscription can be created twice, or once the call has returned: the source panics. */
  predicate CanCreate(x: NotifierState) {
    !x.created && !x.callReturned
  }

  /** Before activation the data is kept; afterwards it is written at once. */
  function Keep(x: NotifierState, data: Data): NotifierState {
    if x.activated then x else x.(buffer := x.buffer + [data])
  }

  function Take(x: NotifierState): NotifierState {
    x.(callReturned := true)
  }

  /** The events that carry the data, in order. */
  function Events(n: nat, data: seq<Data>): seq<Wire> {
    seq(|data|, i requires 0 <= i < |data| => Event(n, data[i]))
  }

  class Notifier {
    const id: nat
    const conn: Connection
    var created: bool
    var buffer: seq<Data>
    var callReturned: bool
    var activated: bool

    ghost function View(): NotifierState
      reads this
    {
      NotifierState(created, callReturned, activated, buffer)
    }

    constructor (id: nat, conn: Connection)
      ensures View() == FRESH && this.id == id && this.conn == conn
    {
      this.id, this.conn := id, conn;
      created, buffer, callReturned, activated := false, [], false, false;
    }

    method CreateSubscription() returns (ok: bool)
      modifies this`created
      ensures ok <==> CanCreate(old(View()))
      ensures View() == if ok then old(View()).(created := true) else old(View())
    {
      if created || callReturned {
        return false;
      }
      created := true;
      ok := true;
    }

    /** `ok` says whether a write at this moment succeeds. */
    method Notify(data: Data, ok: bool)
      requires created
      modifies this`buffer, conn
      ensures View() == Keep(old(View()), data)
      ensures conn.log == if activated && ok then old(conn.log) + [Event(id, data)] else old(conn.log)
    {
      if activated {
        conn.WriteJSON(Event(id, data), ok);
      } else {
        buffer := buffer + [data];
      }
    }

    method TakeSubscription() returns (taken: bool)
      modifies this`callReturned
      ensures View() == Take(old(View())) && taken == created
    {
      callReturned := true;
      taken := created;
    }

    /**
     Writes the kept data in order; `good` is the number of writes that succeed before one
     fails. Only if all succeed does the notifier become active.
     */
    method Activate(good: nat) returns (ok: bool)
      modifies this`activated, conn
      ensures ok <==> good >= |buffer|
      ensures View() == if ok then old(View()).(activated := true) else old(View())
      ensures conn.log == old(conn.log) + Events(id, buffer[..if ok then |buffer| else good])
    {
      for i := 0 to |buffer|
        invariant i <= good && activated == old(activated)
        invariant conn.log == old(conn.log) + Events(id, buffer[..i])
      {
        if i == good {
          return false;
        }
        conn.WriteJSON(Event(id, buffer[i]), true);
        assert Events(id, buffer[..i + 1]) == Events(id, buffer[..i]) + [Event(id, buffer[i])];
      }
      assert buffer[..|buffer|] == buffer;
      activated := true;
      ok := true;
    }
  }
}
