/** The server's real-time layer: the `connectedUsers` and `chatRooms` maps and the
    socket event handlers that update them (server.js).

    Each handler is a method of `Server`. It changes the maps as the JavaScript does and
    returns the events it emits, in emission order, each tagged with its audience:
    `io.emit` reaches every socket, `io.to(room)` every socket in a socket.io room,
    `socket.to(room)` the same minus the sender, and `socket.emit` only the requester.
    Clock readings and generated ids are parameters. */
module ChatServer {
  import opened Base
  import opened JsString

  type UserId = string
  type SocketId = string
  type Username = string
  type RoomName = string

  /** A socket after the handshake: its id and the identity copied from the token
      (`socket.userId`, `socket.username`, `socket.email`). */
  datatype Connection = Connection(socketId: SocketId, userId: UserId, username: Username, email: string)

  /** The fields of a verified token. */
  datatype Claims = Claims(userId: UserId, username: Username, email: string)

  datatype Handshake = Admitted(conn: Connection) | Rejected(reason: string)

  /** An entry of `connectedUsers`. `room` is `null` until the first join. */
  datatype Session = Session(socketId: SocketId, username: Username, email: string, room: Option<RoomName>, connectedAt: int)

  /** A message as broadcast with `message:new`. System notices carry no id and no user id,
      and their `username` is the fixed string "System". */
  datatype ChatMessage =
    | UserMessage(id: string, userId: UserId, username: Username, body: string, timestamp: string, room: RoomName)
    | SystemMessage(body: string, timestamp: string, room: RoomName)
  {
    function Sender(): Username
    {
      if UserMessage? then username else "System"
    }
  }

  /** An entry of `chatRooms`. `users` is an array of usernames, kept without duplicates
      by the join handler; `messages` holds only what `message:send` stored. */
  datatype Room = Room(name: RoomName, createdAt: int, messages: seq<ChatMessage>, users: seq<Username>)

  /** One entry of the `rooms:list` reply. */
  datatype RoomSummary = RoomSummary(name: RoomName, users: nat, messages: nat)

  /** Outbound events and their payloads. */
  datatype Event =
    | UsersUpdate(sessions: seq<Session>)
    | MessageNew(message: ChatMessage)
    | RoomsList(rooms: seq<RoomSummary>)
    | RoomInfo(name: RoomName, users: seq<Username>, messageCount: nat)
    | RoomMessages(room: RoomName, messages: seq<ChatMessage>)
    | UserTyping(username: Username, room: RoomName)
    | UserStopTyping(username: Username, room: RoomName)
    | Error(reason: string)

  datatype Scope = ToAll | ToRoom(room: RoomName) | ToRoomExcept(room: RoomName, except: SocketId) | ToRequester

  datatype Emit = Emit(scope: Scope, event: Event)

  /** The socket middleware: a missing or empty token is refused with "Authentication failed",
      a token the verifier rejects with "Invalid token"; otherwise the socket carries the
      token's identity. The verifier is a parameter. */
  function Authenticate(socketId: SocketId, token: Option<string>, verify: string -> Option<Claims>): (h: Handshake)
    ensures h.Admitted? <==> token.Some? && token.value != "" && verify(token.value).Some?
    ensures h.Rejected? && (token.None? || token.value == "") ==> h.reason == "Authentication failed"
    ensures h.Rejected? && token.Some? && token.value != "" ==> h.reason == "Invalid token"
    ensures h.Admitted? ==> h.conn.socketId == socketId
    ensures h.Admitted? ==> var c := verify(token.value).value;
      h.conn.userId == c.userId && h.conn.username == c.username && h.conn.email == c.email
  {
    if token.None? || token.value == "" then Rejected("Authentication failed")
    else match verify(token.value)
      case None => Rejected("Invalid token")
      case Some(c) => Admitted(Connection(socketId, c.userId, c.username, c.email))
  }

  /** `Array.from(m.values())`: the values of `m` in key insertion order. */
  function ValuesInOrder<K, V>(order: seq<K>, m: map<K, V>): (r: seq<V>)
    requires forall k :: k in order ==> k in m
    ensures |r| == |order|
    ensures forall i :: 0 <= i < |order| ==> r[i] == m[order[i]]
  {
    if order == [] then [] else [m[order[0]]] + ValuesInOrder(order[1..], m)
  }

  /** The `rooms:get` mapping over `chatRooms.keys()`. */
  function Summaries(order: seq<RoomName>, rooms: map<RoomName, Room>): (r: seq<RoomSummary>)
    requires forall n :: n in order ==> n in rooms
    ensures |r| == |order|
    ensures forall i :: 0 <= i < |order| ==>
      r[i] == RoomSummary(order[i], |rooms[order[i]].users|, |rooms[order[i]].messages|)
  {
    if order == [] then []
    else
      var room := rooms[order[0]];
      [RoomSummary(order[0], |room.users|, |room.messages|)] + Summaries(order[1..], rooms)
  }

  /** What every stored room satisfies: it is filed under its own name, no username is
      listed twice, and its history holds only user messages addressed to it. */
  ghost predicate RoomValid(name: RoomName, room: Room)
  {
    && room.name == name
    && NoDuplicates(room.users)
    && forall i :: 0 <= i < |room.messages| ==>
         room.messages[i].UserMessage? && room.messages[i].room == name
  }

  /** The invariant of the two maps: each key order lists exactly its map's keys, once each;
      every room is valid; every session's room exists. */
  ghost predicate Consistent(sessions: map<UserId, Session>, sessionOrder: seq<UserId>,
                             rooms: map<RoomName, Room>, roomOrder: seq<RoomName>)
  {
    && NoDuplicates(sessionOrder)
    && (forall u :: u in sessions <==> u in sessionOrder)
    && NoDuplicates(roomOrder)
    && (forall n :: n in rooms <==> n in roomOrder)
    && (forall n :: n in rooms ==> RoomValid(n, rooms[n]))
    && (forall u :: u in sessions && sessions[u].room.Some? ==> sessions[u].room.value in rooms)
  }

  /** Moving an existing session into a room, and storing that room (created at the end of
      the order if new), keeps the maps consistent. */
  lemma JoinKeepsConsistent(sessions: map<UserId, Session>, sessionOrder: seq<UserId>,
                            rooms: map<RoomName, Room>, roomOrder: seq<RoomName>,
                            userId: UserId, roomName: RoomName, room: Room)
    requires Consistent(sessions, sessionOrder, rooms, roomOrder)
    requires userId in sessions && RoomValid(roomName, room)
    ensures Consistent(sessions[userId := sessions[userId].(room := Some(roomName))], sessionOrder,
                       rooms[roomName := room], if roomName in rooms then roomOrder else roomOrder + [roomName])
  {
  }

  /** Replacing the users of a stored room by a list without duplicates keeps the maps
      consistent. */
  lemma SetUsersKeepsConsistent(sessions: map<UserId, Session>, sessionOrder: seq<UserId>,
                                rooms: map<RoomName, Room>, roomOrder: seq<RoomName>,
                                roomName: RoomName, users: seq<Username>)
    requires Consistent(sessions, sessionOrder, rooms, roomOrder)
    requires roomName in rooms && NoDuplicates(users)
    ensures Consistent(sessions, sessionOrder, rooms[roomName := rooms[roomName].(users := users)], roomOrder)
  {
  }

  /** Appending a user message addressed to a stored room to that room's history keeps the
      maps consistent. */
  lemma AppendMessageKeepsConsistent(sessions: map<UserId, Session>, sessionOrder: seq<UserId>,
                                     rooms: map<RoomName, Room>, roomOrder: seq<RoomName>,
                                     roomName: RoomName, message: ChatMessage)
    requires Consistent(sessions, sessionOrder, rooms, roomOrder)
    requires roomName in rooms && message.UserMessage? && message.room == roomName
    ensures Consistent(sessions, sessionOrder,
                       rooms[roomName := rooms[roomName].(messages := rooms[roomName].messages + [message])], roomOrder)
  {
  }

  /** Deleting a session, from the map and from its order, keeps the maps consistent. */
  lemma RemoveSessionKeepsConsistent(sessions: map<UserId, Session>, sessionOrder: seq<UserId>,
                                     rooms: map<RoomName, Room>, roomOrder: seq<RoomName>, userId: UserId)
    requires Consistent(sessions, sessionOrder, rooms, roomOrder)
    ensures Consistent(sessions - {userId}, Without(sessionOrder, userId), rooms, roomOrder)
  {
  }

  function LeftNotice(username: Username, timestamp: string, room: RoomName): ChatMessage
  {
    SystemMessage(username + " left the room", timestamp, room)
  }

  function JoinedNotice(username: Username, timestamp: string, room: RoomName): ChatMessage
  {
    SystemMessage(username + " joined the room", timestamp, room)
  }

  function DisconnectedNotice(username: Username, timestamp: string, room: RoomName): ChatMessage
  {
    SystemMessage(username + " disconnected", timestamp, room)
  }

  class Server {
    /** `connectedUsers`, split into its entries and its key insertion order. */
    var sessions: map<UserId, Session>
    var sessionOrder: seq<UserId>
    /** `chatRooms`, split into its entries and its key insertion (creation) order. */
    var rooms: map<RoomName, Room>
    var roomOrder: seq<RoomName>

    ghost predicate Valid()
      reads this
    {
      Consistent(sessions, sessionOrder, rooms, roomOrder)
    }

    /** The `users:update` payload: every session, in the order the map lists them. */
    function Online(): (r: seq<Session>)
      reads this`sessions, this`sessionOrder
      requires forall u :: u in sessionOrder ==> u in sessions
      ensures |r| == |sessionOrder|
      ensures forall i :: 0 <= i < |r| ==> r[i] == sessions[sessionOrder[i]]
    {
      ValuesInOrder(sessionOrder, sessions)
    }

    constructor ()
      ensures Valid()
      ensures sessions == map[] && sessionOrder == [] && rooms == map[] && roomOrder == []
    {
      sessions, sessionOrder := map[], [];
      rooms, roomOrder := map[], [];
    }

    /** `connection`: store a fresh session under the socket's user id (replacing any entry
        already there, which keeps its place in the map's order) and broadcast the list. */
    method Connect(conn: Connection, now: int) returns (out: seq<Emit>)
      requires Valid()
      modifies this
      ensures Valid()
      ensures sessions == old(sessions)[conn.userId := Session(conn.socketId, conn.username, conn.email, None, now)]
      ensures sessionOrder == if conn.userId in old(sessions) then old(sessionOrder) else old(sessionOrder) + [conn.userId]
      ensures rooms == old(rooms) && roomOrder == old(roomOrder)
      ensures out == [Emit(ToAll, UsersUpdate(Online()))]
    {
      if conn.userId !in sessions {
        sessionOrder := sessionOrder + [conn.userId];
      }
      sessions := sessions[conn.userId := Session(conn.socketId, conn.username, conn.email, None, now)];
      out := [Emit(ToAll, UsersUpdate(Online()))];
    }

    /** `room:join`. If the session is in a room, that room is told the user left, but the
        user stays in its `users` list and it gets no `room:info`. The session moves to the
        new room, which is created empty if absent; the username is added unless present;
        the new room gets a "joined" notice and its `room:info`. Joining the room one is
        already in goes through the same steps. Without a session (another socket with the
        same user id has disconnected) the handler throws before changing anything. */
    method JoinRoom(conn: Connection, roomName: RoomName, now: int, timestamp: string)
      returns (out: seq<Emit>, threw: bool)
      requires Valid()
      modifies this
      ensures Valid()
      ensures threw <==> conn.userId !in old(sessions)
      ensures threw ==> out == [] && sessions == old(sessions) && rooms == old(rooms)
      ensures sessionOrder == old(sessionOrder)
      ensures !threw ==> sessions == old(sessions)[conn.userId := old(sessions)[conn.userId].(room := Some(roomName))]
      ensures !threw ==> roomName in rooms && rooms == old(rooms)[roomName := rooms[roomName]]
      ensures !threw && roomName in old(rooms) ==>
        rooms[roomName] == old(rooms)[roomName].(users := AddOnce(old(rooms)[roomName].users, conn.username))
      ensures !threw && roomName !in old(rooms) ==> rooms[roomName] == Room(roomName, now, [], [conn.username])
      ensures roomOrder == if !threw && roomName !in old(rooms) then old(roomOrder) + [roomName] else old(roomOrder)
      ensures !threw ==>
        var prev := old(sessions)[conn.userId].room;
        out == (if Truthy(prev) then [Emit(ToRoom(prev.value), MessageNew(LeftNotice(conn.username, timestamp, prev.value)))] else [])
             + [ Emit(ToRoom(roomName), MessageNew(JoinedNotice(conn.username, timestamp, roomName))),
                 Emit(ToRoom(roomName), RoomInfo(roomName, rooms[roomName].users, |rooms[roomName].messages|)) ]
    {
      if conn.userId !in sessions {
        out, threw := [], true;
        return;
      }
      threw := false;
      var user := sessions[conn.userId];
      var created := roomName !in rooms;
      var room := if created then Room(roomName, now, [], []) else rooms[roomName];
      room := room.(users := AddOnce(room.users, conn.username));
      JoinKeepsConsistent(sessions, sessionOrder, rooms, roomOrder, conn.userId, roomName, room);
      sessions := sessions[conn.userId := user.(room := Some(roomName))];
      rooms := rooms[roomName := room];
      if created {
        roomOrder := roomOrder + [roomName];
      }
      out := if Truthy(user.room) then [Emit(ToRoom(user.room.value), MessageNew(LeftNotice(conn.username, timestamp, user.room.value)))] else [];
      out := out + [ Emit(ToRoom(roomName), MessageNew(JoinedNotice(conn.username, timestamp, roomName))),
                     Emit(ToRoom(roomName), RoomInfo(roomName, room.users, |room.messages|)) ];
    }

    /** `message:send`. Without a session, or outside a room, only the requester hears
        "Not in a room". Otherwise one user message with the trimmed body is appended to the
        session's room (the payload's room is ignored) and broadcast to that room. */
    method SendMessage(conn: Connection, message: string, payloadRoom: RoomName, id: string, timestamp: string)
      returns (out: seq<Emit>)
      requires Valid()
      modifies this
      ensures Valid()
      ensures sessions == old(sessions) && sessionOrder == old(sessionOrder) && roomOrder == old(roomOrder)
      ensures !(conn.userId in old(sessions) && Truthy(old(sessions)[conn.userId].room)) ==>
        out == [Emit(ToRequester, Error("Not in a room"))] && rooms == old(rooms)
      ensures conn.userId in old(sessions) && Truthy(old(sessions)[conn.userId].room) ==>
        var r := old(sessions)[conn.userId].room.value;
        var msg := UserMessage(id, conn.userId, conn.username, Trim(message), timestamp, r);
        && r in old(rooms)
        && rooms == old(rooms)[r := old(rooms)[r].(messages := old(rooms)[r].messages + [msg])]
        && out == [Emit(ToRoom(r), MessageNew(msg))]
    {
      if conn.userId !in sessions || !Truthy(sessions[conn.userId].room) {
        out := [Emit(ToRequester, Error("Not in a room"))];
        return;
      }
      var r := sessions[conn.userId].room.value;
      var msg := UserMessage(id, conn.userId, conn.username, Trim(message), timestamp, r);
      if r in rooms {
        AppendMessageKeepsConsistent(sessions, sessionOrder, rooms, roomOrder, r, msg);
        rooms := rooms[r := rooms[r].(messages := rooms[r].messages + [msg])];
      }
      out := [Emit(ToRoom(r), MessageNew(msg))];
    }

    /** `room:getMessages`: the room's stored history, or an empty list for an unknown room,
        sent to the requester only. The history holds only user messages of that room. */
    method GetMessages(room: RoomName) returns (out: seq<Emit>)
      requires Valid()
      ensures room in rooms ==> out == [Emit(ToRequester, RoomMessages(room, rooms[room].messages))]
      ensures room !in rooms ==> out == [Emit(ToRequester, RoomMessages(room, []))]
      ensures forall i :: 0 <= i < |out[0].event.messages| ==>
        out[0].event.messages[i].UserMessage? && out[0].event.messages[i].room == room
    {
      if room in rooms {
        out := [Emit(ToRequester, RoomMessages(room, rooms[room].messages))];
      } else {
        out := [Emit(ToRequester, RoomMessages(room, []))];
      }
    }

    /** `rooms:get`: one summary per room in creation order, sent to the requester only. */
    method GetRooms() returns (out: seq<Emit>)
      requires Valid()
      ensures |out| == 1 && out[0].scope == ToRequester && out[0].event.RoomsList?
      ensures |out[0].event.rooms| == |roomOrder|
      ensures forall i :: 0 <= i < |roomOrder| ==>
        out[0].event.rooms[i] == RoomSummary(roomOrder[i], |rooms[roomOrder[i]].users|, |rooms[roomOrder[i]].messages|)
      ensures forall n :: n in rooms <==> exists i :: 0 <= i < |roomOrder| && out[0].event.rooms[i].name == n
    {
      var list := Summaries(roomOrder, rooms);
      out := [Emit(ToRequester, RoomsList(list))];
      forall n | n in rooms
        ensures exists i :: 0 <= i < |roomOrder| && list[i].name == n
      {
        var i :| 0 <= i < |roomOrder| && roomOrder[i] == n;
        assert list[i].name == n;
      }
    }

    /** `room:leave`. Outside a room nothing happens. Otherwise the room hears the "left"
        notice, every occurrence of the username leaves its `users`, the room gets its
        `room:info`, and the session's room becomes null. */
    method LeaveRoom(conn: Connection, timestamp: string) returns (out: seq<Emit>)
      requires Valid()
      modifies this
      ensures Valid()
      ensures sessionOrder == old(sessionOrder) && roomOrder == old(roomOrder)
      ensures !(conn.userId in old(sessions) && Truthy(old(sessions)[conn.userId].room)) ==>
        out == [] && sessions == old(sessions) && rooms == old(rooms)
      ensures conn.userId in old(sessions) && Truthy(old(sessions)[conn.userId].room) ==>
        var r := old(sessions)[conn.userId].room.value;
        && sessions == old(sessions)[conn.userId := old(sessions)[conn.userId].(room := None)]
        && r in old(rooms)
        && rooms == old(rooms)[r := old(rooms)[r].(users := Without(old(rooms)[r].users, conn.username))]
        && conn.username !in rooms[r].users
        && out == [ Emit(ToRoom(r), MessageNew(LeftNotice(conn.username, timestamp, r))),
                    Emit(ToRoom(r), RoomInfo(r, rooms[r].users, |rooms[r].messages|)) ]
    {
      out := [];
      if conn.userId in sessions && Truthy(sessions[conn.userId].room) {
        var user := sessions[conn.userId];
        var r := user.room.value;
        out := [Emit(ToRoom(r), MessageNew(LeftNotice(conn.username, timestamp, r)))];
        if r in rooms {
          var room := rooms[r].(users := Without(rooms[r].users, conn.username));
          SetUsersKeepsConsistent(sessions, sessionOrder, rooms, roomOrder, r, room.users);
          rooms := rooms[r := room];
          out := out + [Emit(ToRoom(r), RoomInfo(r, room.users, |room.messages|))];
        }
        sessions := sessions[conn.userId := user.(room := None)];
      }
    }

    /** `user:typing`: relayed to the rest of the sender's room; nothing outside a room. */
    method Typing(conn: Connection) returns (out: seq<Emit>)
      requires Valid()
      ensures conn.userId in sessions && Truthy(sessions[conn.userId].room) ==>
        var r := sessions[conn.userId].room.value;
        out == [Emit(ToRoomExcept(r, conn.socketId), UserTyping(conn.username, r))]
      ensures !(conn.userId in sessions && Truthy(sessions[conn.userId].room)) ==> out == []
    {
      out := [];
      if conn.userId in sessions && Truthy(sessions[conn.userId].room) {
        var r := sessions[conn.userId].room.value;
        out := [Emit(ToRoomExcept(r, conn.socketId), UserTyping(conn.username, r))];
      }
    }

    /** `user:stopTyping`: relayed to the rest of the sender's room; nothing outside a room. */
    method StopTyping(conn: Connection) returns (out: seq<Emit>)
      requires Valid()
      ensures conn.userId in sessions && Truthy(sessions[conn.userId].room) ==>
        var r := sessions[conn.userId].room.value;
        out == [Emit(ToRoomExcept(r, conn.socketId), UserStopTyping(conn.username, r))]
      ensures !(conn.userId in sessions && Truthy(sessions[conn.userId].room)) ==> out == []
    {
      out := [];
      if conn.userId in sessions && Truthy(sessions[conn.userId].room) {
        var r := sessions[conn.userId].room.value;
        out := [Emit(ToRoomExcept(r, conn.socketId), UserStopTyping(conn.username, r))];
      }
    }

    /** `disconnect`. Without a session nothing happens. Otherwise, if the session is in a
        room, every occurrence of the username leaves that room's `users` and the room hears
        the "disconnected" notice and its `room:info`; then the session is deleted and the
        remaining list is broadcast. */
    method Disconnect(conn: Connection, timestamp: string) returns (out: seq<Emit>)
      requires Valid()
      modifies this
      ensures Valid()
      ensures roomOrder == old(roomOrder)
      ensures conn.userId !in old(sessions) ==>
        out == [] && sessions == old(sessions) && sessionOrder == old(sessionOrder) && rooms == old(rooms)
      ensures conn.userId in old(sessions) ==>
        && sessions == old(sessions) - {conn.userId}
        && sessionOrder == Without(old(sessionOrder), conn.userId)
        && conn.userId !in sessions
      ensures conn.userId in old(sessions) && !Truthy(old(sessions)[conn.userId].room) ==>
        rooms == old(rooms) && out == [Emit(ToAll, UsersUpdate(Online()))]
      ensures conn.userId in old(sessions) && Truthy(old(sessions)[conn.userId].room) ==>
        var r := old(sessions)[conn.userId].room.value;
        && r in old(rooms)
        && rooms == old(rooms)[r := old(rooms)[r].(users := Without(old(rooms)[r].users, conn.username))]
        && conn.username !in rooms[r].users
        && out == [ Emit(ToRoom(r), MessageNew(DisconnectedNotice(conn.username, timestamp, r))),
                    Emit(ToRoom(r), RoomInfo(r, rooms[r].users, |rooms[r].messages|)),
                    Emit(ToAll, UsersUpdate(Online())) ]
    {
      if conn.userId !in sessions {
        return [];
      }
      var user := sessions[conn.userId];
      RemoveSessionKeepsConsistent(sessions, sessionOrder, rooms, roomOrder, conn.userId);
      sessions := sessions - {conn.userId};
      sessionOrder := Without(sessionOrder, conn.userId);
      var update := Emit(ToAll, UsersUpdate(Online()));
      if Truthy(user.room) && user.room.value in rooms {
        var r := user.room.value;
        var room := rooms[r].(users := Without(rooms[r].users, conn.username));
        SetUsersKeepsConsistent(sessions, sessionOrder, rooms, roomOrder, r, room.users);
        rooms := rooms[r := room];
        out := [ Emit(ToRoom(r), MessageNew(DisconnectedNotice(conn.username, timestamp, r))),
                 Emit(ToRoom(r), RoomInfo(r, room.users, |room.messages|)),
                 update ];
      } else {
        out := [update];
      }
    }
  }
}
