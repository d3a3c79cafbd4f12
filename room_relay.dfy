/**
 * The room-scoped relay (netlify/functions/websocket.js): a socket.io server on
 * which each connecting socket joins the room its handshake names, and a `signal`
 * event from a socket is emitted, unchanged, to the other sockets of that room.
 *
 * A handshake that repeats the `room` parameter yields an array of names, and
 * `socket.join` then joins every one of them; so each socket has a set of rooms.
 *
 * Modelling assumption: `socket.to(rooms).emit(...)` reaches, once each, every
 * socket that has joined one of `rooms`, except `socket` itself, as socket.io
 * documents for `to`. Sockets are opaque identities; what a socket has been
 * emitted is its inbox.
 */
module RoomRelay {

  type SocketId = nat

  /**
   * The room a socket joins: the handshake's `room` query value, or JavaScript's
   * `undefined` when the query has none (sockets without one share that room).
   */
  datatype RoomKey = Named(name: string) | Undefined

  /** The data of a `signal` event, never inspected. */
  datatype Payload = Payload(json: string)

  /** One event emitted to a socket: its name and its data. */
  datatype Emission = Emission(event: string, data: Payload)

  datatype HttpResponse = HttpResponse(statusCode: int, body: string)

  const SignalEvent := "signal"

  /** The values a query parameter given two or more times parses to. */
  type RepeatedValues = s: seq<string> | |s| >= 2 witness ["", ""]

  /** A parsed handshake query value: one string, or an array for a repeated parameter. */
  datatype QueryValue = Single(value: string) | Repeated(values: RepeatedValues)

  function Values(v: QueryValue): seq<string>
  {
    match v
    case Single(x) => [x]
    case Repeated(xs) => xs
  }

  /** The rooms `socket.join(socket.handshake.query.room)` joins. */
  function RoomsFromQuery(query: map<string, QueryValue>): (r: set<RoomKey>)
    ensures "room" !in query ==> r == {Undefined}
    ensures "room" in query ==> Undefined !in r && forall name :: Named(name) in r <==> name in Values(query["room"])
    ensures r != {}
  {
    if "room" !in query then {Undefined}
    else
      var names := Values(query["room"]);
      assert Named(names[0]) in set name | name in names :: Named(name);
      set name | name in names :: Named(name)
  }

  /** A query that names at most one room joins exactly one room. */
  lemma SingleRoomQuery(query: map<string, QueryValue>)
    requires "room" in query ==> query["room"].Single?
    ensures RoomsFromQuery(query) == if "room" in query then {Named(query["room"].value)} else {Undefined}
  {
  }

  /** Whether sockets `a` and `b` have joined a common room. */
  predicate ShareRoom(roomOf: map<SocketId, set<RoomKey>>, a: SocketId, b: SocketId)
    requires a in roomOf && b in roomOf
  {
    roomOf[a] * roomOf[b] != {}
  }

  /** The sockets `socket.to(roomId)` targets for `sender`. */
  function Recipients(roomOf: map<SocketId, set<RoomKey>>, sender: SocketId): set<SocketId>
    requires sender in roomOf
  {
    set s | s in roomOf && s != sender && ShareRoom(roomOf, s, sender)
  }

  /** The inboxes after `sender` signals `data`: only recipients gain exactly one emission. */
  function Deliver(inbox: map<SocketId, seq<Emission>>, roomOf: map<SocketId, set<RoomKey>>,
                   sender: SocketId, data: Payload): (r: map<SocketId, seq<Emission>>)
    requires sender in roomOf
    ensures r.Keys == inbox.Keys
    ensures forall s :: s in inbox ==>
      r[s] == inbox[s] || (s in Recipients(roomOf, sender) && r[s] == inbox[s] + [Emission(SignalEvent, data)])
  {
    map s | s in inbox :: if s in Recipients(roomOf, sender) then inbox[s] + [Emission(SignalEvent, data)] else inbox[s]
  }

  /** The inboxes after the signals `(sender, data)` of `signals`, handled in order. */
  function DeliverAll(inbox: map<SocketId, seq<Emission>>, roomOf: map<SocketId, set<RoomKey>>,
                      signals: seq<(SocketId, Payload)>): (r: map<SocketId, seq<Emission>>)
    requires forall i :: 0 <= i < |signals| ==> signals[i].0 in roomOf
    ensures r.Keys == inbox.Keys
    decreases |signals|
  {
    if signals == [] then inbox
    else DeliverAll(Deliver(inbox, roomOf, signals[0].0, signals[0].1), roomOf, signals[1..])
  }

  /** The emissions socket `s` is due from `signals`: those sent by the other members of its room. */
  function SignalsFor(roomOf: map<SocketId, set<RoomKey>>, s: SocketId, signals: seq<(SocketId, Payload)>): seq<Emission>
    requires s in roomOf
    requires forall i :: 0 <= i < |signals| ==> signals[i].0 in roomOf
    decreases |signals|
  {
    if signals == [] then []
    else
      var (sender, data) := signals[0];
      (if sender != s && ShareRoom(roomOf, sender, s) then [Emission(SignalEvent, data)] else [])
      + SignalsFor(roomOf, s, signals[1..])
  }

  /**
   * One signal reaches exactly the other sockets that share a room with the sender,
   * each once, with event name and data unchanged; the sender and sockets in none
   * of its rooms get nothing.
   */
  lemma DeliverExactlyToRoomPeers(inbox: map<SocketId, seq<Emission>>, roomOf: map<SocketId, set<RoomKey>>,
                                  sender: SocketId, data: Payload)
    requires sender in roomOf && roomOf.Keys <= inbox.Keys
    ensures var r := Deliver(inbox, roomOf, sender, data);
      && r[sender] == inbox[sender]
      && (forall s :: s in roomOf && s != sender && ShareRoom(roomOf, s, sender) ==>
            r[s] == inbox[s] + [Emission(SignalEvent, data)])
      && (forall s :: s in inbox && r[s] != inbox[s] ==>
            s in roomOf && s != sender && ShareRoom(roomOf, s, sender))
      && (forall s :: s in roomOf && !ShareRoom(roomOf, s, sender) ==> r[s] == inbox[s])
  {
  }

  lemma DeliverAt(inbox: map<SocketId, seq<Emission>>, roomOf: map<SocketId, set<RoomKey>>,
                  sender: SocketId, data: Payload, s: SocketId)
    requires sender in roomOf && s in roomOf && s in inbox
    ensures Deliver(inbox, roomOf, sender, data)[s]
      == inbox[s] + if sender != s && ShareRoom(roomOf, sender, s) then [Emission(SignalEvent, data)] else []
  {
    assert s in Recipients(roomOf, sender) <==> sender != s && ShareRoom(roomOf, sender, s);
  }

  /** Over any sequence of signals, each socket receives exactly the signals of those sharing a room with it, in order. */
  lemma {:induction false} ReceivesRoomSignalsInOrder(inbox: map<SocketId, seq<Emission>>,
                                                      roomOf: map<SocketId, set<RoomKey>>,
                                                      signals: seq<(SocketId, Payload)>, s: SocketId)
    requires forall i :: 0 <= i < |signals| ==> signals[i].0 in roomOf
    requires s in roomOf && s in inbox
    ensures DeliverAll(inbox, roomOf, signals)[s] == inbox[s] + SignalsFor(roomOf, s, signals)
    decreases |signals|
  {
    if signals != [] {
      var (sender, data) := signals[0];
      var next := Deliver(inbox, roomOf, sender, data);
      var head := if sender != s && ShareRoom(roomOf, sender, s) then [Emission(SignalEvent, data)] else [];
      var rest := SignalsFor(roomOf, s, signals[1..]);
      DeliverAt(inbox, roomOf, sender, data, s);
      assert SignalsFor(roomOf, s, signals) == head + rest;
      ReceivesRoomSignalsInOrder(next, roomOf, signals[1..], s);
      Associative(inbox[s], head, rest);
    }
  }

  lemma Associative(a: seq<Emission>, b: seq<Emission>, c: seq<Emission>)
    ensures (a + b) + c == a + (b + c)
  {
  }

  /** Signals sent only by sockets sharing no room with `s` leave its inbox as it was. */
  lemma {:induction false} RoomsAreIsolated(inbox: map<SocketId, seq<Emission>>, roomOf: map<SocketId, set<RoomKey>>,
                                            s: SocketId, signals: seq<(SocketId, Payload)>)
    requires s in roomOf && s in inbox
    requires forall i :: 0 <= i < |signals| ==> signals[i].0 in roomOf && !ShareRoom(roomOf, signals[i].0, s)
    ensures DeliverAll(inbox, roomOf, signals)[s] == inbox[s]
    decreases |signals|
  {
    if signals != [] {
      var next := Deliver(inbox, roomOf, signals[0].0, signals[0].1);
      DeliverAt(inbox, roomOf, signals[0].0, signals[0].1, s);
      RoomsAreIsolated(next, roomOf, s, signals[1..]);
    }
  }

  /** The server's room membership and what has been emitted to each connected socket. */
  class RoomServer {
    var roomOf: map<SocketId, set<RoomKey>>
    var inbox: map<SocketId, seq<Emission>>

    ghost predicate Valid()
      reads this
    {
      roomOf.Keys == inbox.Keys
    }

    /** `new Server(...)`: no socket has connected. */
    constructor ()
      ensures Valid() && roomOf == map[] && inbox == map[]
    {
      roomOf, inbox := map[], map[];
    }

    /** The `connection` listener: `socket.join(socket.handshake.query.room)`. */
    method OnConnection(socket: SocketId, query: map<string, QueryValue>)
      requires Valid() && socket !in roomOf
      modifies this
      ensures Valid()
      ensures roomOf == old(roomOf)[socket := RoomsFromQuery(query)]
      ensures inbox == old(inbox)[socket := []]
    {
      var roomId := RoomsFromQuery(query);
      roomOf := roomOf[socket := roomId];
      inbox := inbox[socket := []];
    }

    /** The `signal` listener: `socket.to(roomId).emit('signal', data)`; rooms stay as joined. */
    method OnSignal(sender: SocketId, data: Payload)
      requires Valid() && sender in roomOf
      modifies this`inbox
      ensures Valid()
      ensures inbox == Deliver(old(inbox), roomOf, sender, data)
    {
      inbox := Deliver(inbox, roomOf, sender, data);
    }
  }

  /** `exports.handler`: sets up a fresh server and answers every invocation the same way. */
  method Handler<Event>(event: Event) returns (io: RoomServer, response: HttpResponse)
    ensures fresh(io) && io.Valid() && io.roomOf == map[]
    ensures response.statusCode == 200 && response.body == "Socket.IO ready"
  {
    io := new RoomServer();
    response := HttpResponse(200, "Socket.IO ready");
  }
}
