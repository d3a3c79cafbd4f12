/**
 * The global broadcast relay (backend/signaling_server.py): one set of connected
 * clients shared by every connection, and a handler per connection that forwards
 * each message it reads, unchanged, to every other connected client.
 *
 * Sockets are opaque identities; what a socket has been sent is its outbox. The
 * order in which Python iterates over the set is unspecified, so the fan-out picks
 * the next recipient arbitrarily. Whether `client.send` raises `ConnectionClosed`
 * is a parameter: the set of recipients whose connection is closed.
 */
module BroadcastRelay {

  type Socket = nat
  type Message = string

  /**
   * The number of messages whose fan-out completes before one meets a closed
   * recipient among `others`, when the i-th fan-out meets the closed set `closedAt[i]`.
   */
  function CompletedFanOuts(others: set<Socket>, closedAt: seq<set<Socket>>): (k: nat)
    ensures k <= |closedAt|
    ensures forall i :: 0 <= i < k ==> closedAt[i] * others == {}
    ensures k < |closedAt| ==> closedAt[k] * others != {}
    decreases |closedAt|
  {
    if closedAt == [] then 0
    else if closedAt[0] * others != {} then 0
    else 1 + CompletedFanOuts(others, closedAt[1..])
  }

  /** The module-level `clients` set, and what each socket ever connected has been sent. */
  class Relay {
    var clients: set<Socket>
    var outbox: map<Socket, seq<Message>>

    ghost predicate Valid()
      reads this
    {
      clients <= outbox.Keys
    }

    constructor ()
      ensures Valid() && clients == {} && outbox == map[]
    {
      clients, outbox := {}, map[];
    }

    /** `clients.add(websocket)` for a newly accepted socket. */
    method Connect(ws: Socket)
      requires Valid() && ws !in outbox
      modifies this
      ensures Valid()
      ensures clients == old(clients) + {ws}
      ensures outbox == old(outbox)[ws := []]
    {
      clients := clients + {ws};
      outbox := outbox[ws := []];
    }

    /** `clients.remove(websocket)`, in the handler's `finally`. */
    method Disconnect(ws: Socket)
      requires Valid() && ws in clients
      modifies this`clients
      ensures Valid()
      ensures clients == old(clients) - {ws}
    {
      clients := clients - {ws};
    }

    /**
     * One message's fan-out: `msg` unchanged to every client but the sender.
     * A recipient in `closed` raises `ConnectionClosed`, which ends the fan-out
     * there (`aborted`): each other client then has received the message or not,
     * and no closed one has.
     */
    method Forward(sender: Socket, msg: Message, closed: set<Socket>) returns (aborted: bool)
      requires Valid() && sender in clients
      modifies this`outbox
      ensures Valid() && outbox.Keys == old(outbox).Keys
      ensures aborted <==> (clients - {sender}) * closed != {}
      ensures forall c :: c in outbox && (c == sender || c !in clients) ==> outbox[c] == old(outbox)[c]
      ensures !aborted ==> forall c :: c in clients && c != sender ==> outbox[c] == old(outbox)[c] + [msg]
      ensures aborted ==> forall c :: c in clients && c != sender ==>
        outbox[c] == old(outbox)[c] || (c !in closed && outbox[c] == old(outbox)[c] + [msg])
    {
      var remaining := clients;
      aborted := false;
      while remaining != {}
        invariant remaining <= clients
        invariant outbox.Keys == old(outbox).Keys
        invariant forall c :: c in outbox && (c == sender || c !in clients || c in remaining) ==> outbox[c] == old(outbox)[c]
        invariant forall c :: c in clients - remaining && c != sender ==> c !in closed && outbox[c] == old(outbox)[c] + [msg]
        decreases remaining
      {
        var client :| client in remaining;
        remaining := remaining - {client};
        if client != sender {
          if client in closed {
            assert client in (clients - {sender}) * closed;
            aborted := true;
            break;
          }
          outbox := outbox[client := outbox[client] + [msg]];
        }
      }
      if !aborted {
        assert forall c :: c in (clients - {sender}) * closed ==> c in clients - remaining;
      }
    }

    /**
     * `handler`: add the socket, forward the messages it reads in order (each
     * fan-out finishing before the next message is read), and remove it once its
     * loop ends — after the last message, or at the first fan-out that meets a
     * closed recipient (`closedAt[i]` for the i-th message). `forwarded` counts
     * the completed fan-outs.
     */
    method Handler(ws: Socket, incoming: seq<Message>, closedAt: seq<set<Socket>>) returns (forwarded: nat)
      requires Valid() && ws !in outbox && |closedAt| == |incoming|
      modifies this
      ensures Valid() && clients == old(clients)
      ensures outbox.Keys == old(outbox).Keys + {ws} && outbox[ws] == []
      ensures forwarded == CompletedFanOuts(old(clients), closedAt)
      ensures forall c :: c in old(outbox) && c !in old(clients) ==> outbox[c] == old(outbox)[c]
      ensures forwarded == |incoming| ==> forall c :: c in old(clients) ==> outbox[c] == old(outbox)[c] + incoming
      ensures forwarded < |incoming| ==> forall c :: c in old(clients) ==>
        outbox[c] == old(outbox)[c] + incoming[..forwarded]
        || (c !in closedAt[forwarded] && outbox[c] == old(outbox)[c] + incoming[..forwarded + 1])
    {
      Connect(ws);
      var i := 0;
      while i < |incoming|
        invariant i <= |incoming|
        invariant Valid() && clients == old(clients) + {ws}
        invariant outbox.Keys == old(outbox).Keys + {ws} && outbox[ws] == []
        invariant forall c :: c in old(outbox) && c !in old(clients) ==> outbox[c] == old(outbox)[c]
        invariant forall c :: c in old(clients) ==> outbox[c] == old(outbox)[c] + incoming[..i]
        invariant forall j :: 0 <= j < i ==> closedAt[j] * old(clients) == {}
      {
        var aborted := Forward(ws, incoming[i], closedAt[i]);
        assert clients - {ws} == old(clients);
        if aborted {
          break;
        }
        assert incoming[..i + 1] == incoming[..i] + [incoming[i]];
        i := i + 1;
      }
      assert i == |incoming| ==> incoming[..i] == incoming;
      assert i < |incoming| ==> incoming[..i + 1] == incoming[..i] + [incoming[i]];
      Disconnect(ws);
      forwarded := i;
    }
  }
}
