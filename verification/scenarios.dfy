/** Properties of sequences of server events, proved by calling the handlers of
    `ChatServer.Server` in sequence. */
module Scenarios {
  import opened Base
  import opened JsString
  import opened ChatServer

  /** Joining a room one was not listed in and then leaving it restores every room exactly,
      and leaves the session outside any room. */
  method JoinThenLeave(s: Server, conn: Connection, room: RoomName, now: int, timestamp: string)
    requires s.Valid()
    requires conn.userId in s.sessions && room != ""
    requires room in s.rooms && conn.username !in s.rooms[room].users
    modifies s
    ensures s.Valid()
    ensures s.rooms == old(s.rooms) && s.roomOrder == old(s.roomOrder)
    ensures s.sessions.Keys == old(s.sessions).Keys && s.sessionOrder == old(s.sessionOrder)
    ensures s.sessions[conn.userId].room == None
  {
    ghost var before := s.rooms[room];
    var joined, threw := s.JoinRoom(conn, room, now, timestamp);
    assert s.rooms == old(s.rooms)[room := before.(users := before.users + [conn.username])];
    LeaveAfterJoin(s, conn, room, old(s.rooms), timestamp);
  }

  /** The second half of `JoinThenLeave`: leaving the room whose only change was the
      appended name puts the rooms back as they were. */
  method LeaveAfterJoin(s: Server, conn: Connection, room: RoomName, ghost rooms0: map<RoomName, Room>, timestamp: string)
    requires s.Valid()
    requires room != "" && room in rooms0 && conn.username !in rooms0[room].users
    requires conn.userId in s.sessions && s.sessions[conn.userId].room == Some(room)
    requires s.rooms == rooms0[room := rooms0[room].(users := rooms0[room].users + [conn.username])]
    modifies s
    ensures s.Valid()
    ensures s.rooms == rooms0 && s.roomOrder == old(s.roomOrder)
    ensures s.sessions.Keys == old(s.sessions).Keys && s.sessionOrder == old(s.sessionOrder)
    ensures s.sessions[conn.userId].room == None
  {
    AddThenRemoveAppend(rooms0[room].users, conn.username);
    var left := s.LeaveRoom(conn, timestamp);
    assert s.rooms == old(s.rooms)[room := rooms0[room]];
  }

  /** A second disconnect for the same user id emits nothing: the sessions and their order
      end as a single disconnect leaves them. */
  method DisconnectTwice(s: Server, conn: Connection, timestamp: string) returns (second: seq<Emit>)
    requires s.Valid()
    modifies s
    ensures s.Valid()
    ensures second == []
    ensures conn.userId !in s.sessions
    ensures s.sessions == old(s.sessions) - {conn.userId}
    ensures s.sessionOrder == Without(old(s.sessionOrder), conn.userId)
  {
    var first := s.Disconnect(conn, timestamp);
    ghost var sessions, order, rooms := s.sessions, s.sessionOrder, s.rooms;
    second := s.Disconnect(conn, timestamp);
    assert s.sessions == sessions && s.sessionOrder == order && s.rooms == rooms;
    if conn.userId !in old(s.sessions) {
      WithoutAbsent(old(s.sessionOrder), conn.userId);
    }
  }

  /** Two sends from inside a room append both messages to that room's history, in order,
      and touch no other room. */
  method SendTwice(s: Server, conn: Connection, first: string, second: string, id1: string, id2: string, timestamp: string)
    requires s.Valid()
    requires conn.userId in s.sessions && Truthy(s.sessions[conn.userId].room)
    modifies s
    ensures s.Valid()
    ensures var r := old(s.sessions)[conn.userId].room.value;
      && r in s.rooms
      && s.rooms == old(s.rooms)[r := s.rooms[r]]
      && s.rooms[r].messages == old(s.rooms)[r].messages
           + [ UserMessage(id1, conn.userId, conn.username, Trim(first), timestamp, r),
               UserMessage(id2, conn.userId, conn.username, Trim(second), timestamp, r) ]
  {
    ghost var r := s.sessions[conn.userId].room.value;
    ghost var m1 := UserMessage(id1, conn.userId, conn.username, Trim(first), timestamp, r);
    ghost var m2 := UserMessage(id2, conn.userId, conn.username, Trim(second), timestamp, r);
    var out1 := s.SendMessage(conn, first, "", id1, timestamp);
    assert s.rooms == old(s.rooms)[r := old(s.rooms)[r].(messages := old(s.rooms)[r].messages + [m1])];
    var out2 := s.SendMessage(conn, second, "", id2, timestamp);
    assert old(s.rooms)[r].messages + [m1] + [m2] == old(s.rooms)[r].messages + [m1, m2];
  }

  /** A joins the new room "general": the room is created and its members see the notice
      and a room:info listing only A, with no messages. */
  method FirstJoin() returns (s: Server, aJoin: seq<Emit>)
    ensures s.Valid()
    ensures s.sessionOrder == ["1"] && s.sessions["1"].room == Some("general")
    ensures s.rooms == map["general" := Room("general", 10, [], ["A"])]
    ensures aJoin == [ Emit(ToRoom("general"), MessageNew(JoinedNotice("A", "t1", "general"))),
                       Emit(ToRoom("general"), RoomInfo("general", ["A"], 0)) ]
  {
    s := new Server();
    var out := s.Connect(Connection("sa", "1", "A", "a@x"), 1);
    var threw;
    aJoin, threw := s.JoinRoom(Connection("sa", "1", "A", "a@x"), "general", 10, "t1");
  }

  /** B joins "general" after A: both see B's notice and a room:info listing A then B. */
  method SecondJoin(s: Server) returns (bJoin: seq<Emit>)
    requires s.Valid()
    requires "2" in s.sessions && s.sessions["2"].room == None
    requires s.rooms == map["general" := Room("general", 10, [], ["A"])]
    modifies s
    ensures s.Valid()
    ensures s.rooms == map["general" := Room("general", 10, [], ["A", "B"])]
    ensures bJoin == [ Emit(ToRoom("general"), MessageNew(JoinedNotice("B", "t2", "general"))),
                       Emit(ToRoom("general"), RoomInfo("general", ["A", "B"], 0)) ]
  {
    assert "B" !in ["A"] by {
      assert "B"[0] != "A"[0];
    }
    assert AddOnce(["A"], "B") == ["A", "B"];
    var threw;
    bJoin, threw := s.JoinRoom(Connection("sb", "2", "B", "b@x"), "general", 11, "t2");
  }

  lemma HiIsTrimmed()
    ensures Trim("hi") == "hi"
  {
    assert "hi"[0] == 'h' && "hi"[1] == 'i';
    TrimUnchanged("hi");
  }

  /** A says "hi" in "general": the message is broadcast to the room and the history then
      holds just that message. */
  method FirstMessage(s: Server) returns (aSend: seq<Emit>, history: seq<Emit>)
    requires s.Valid()
    requires "1" in s.sessions && s.sessions["1"].room == Some("general")
    requires "general" in s.rooms && s.rooms["general"].messages == []
    modifies s
    ensures s.Valid()
    ensures aSend == [ Emit(ToRoom("general"), MessageNew(UserMessage("m1", "1", "A", "hi", "t3", "general"))) ]
    ensures history == [ Emit(ToRequester, RoomMessages("general", [UserMessage("m1", "1", "A", "hi", "t3", "general")])) ]
  {
    HiIsTrimmed();
    var m := UserMessage("m1", "1", "A", "hi", "t3", "general");
    var c := Connection("sa", "1", "A", "a@x");
    assert c.userId in s.sessions && Truthy(s.sessions[c.userId].room);
    ghost var r0 := s.rooms;
    aSend := s.SendMessage(c, "hi", "general", "m1", "t3");
    assert s.rooms["general"].messages == r0["general"].messages + [m];
    assert s.rooms["general"].messages == [m];
    history := s.GetMessages("general");
  }

  /** A disconnects while B is still in "general": B sees the notice and a room:info listing
      only B, and the user list broadcast to everyone holds only B's session. */
  method DisconnectLeavesOther(s: Server) returns (aQuit: seq<Emit>)
    requires s.Valid()
    requires s.sessionOrder == ["1", "2"] && s.sessions["1"].room == Some("general")
    requires "general" in s.rooms && s.rooms["general"].users == ["A", "B"] && |s.rooms["general"].messages| == 1
    modifies s
    ensures s.Valid()
    ensures s.sessionOrder == ["2"] && "2" in s.sessions
    ensures aQuit == [ Emit(ToRoom("general"), MessageNew(DisconnectedNotice("A", "t4", "general"))),
                       Emit(ToRoom("general"), RoomInfo("general", ["B"], 1)),
                       Emit(ToAll, UsersUpdate([s.sessions["2"]])) ]
  {
    assert Without(["A", "B"], "A") == ["B"] by {
      assert ["A", "B"][1..] == ["B"];
      assert "B" != "A" by { assert "B"[0] != "A"[0]; }
      assert ["B"][1..] == [];
    }
    assert Without(["1", "2"], "1") == ["2"] by {
      assert ["1", "2"][1..] == ["2"];
      assert "2" != "1" by { assert "2"[0] != "1"[0]; }
      assert ["2"][1..] == [];
    }
    aQuit := s.Disconnect(Connection("sa", "1", "A", "a@x"), "t4");
    assert s.Online() == [s.sessions["2"]];
  }

  /** A room named "" can be joined, but the handlers then treat the session as being in no
      room: sending is refused, leaving does nothing, and even a disconnect leaves the name
      listed in that room. */
  method EmptyRoomName() returns (send: seq<Emit>, leave: seq<Emit>, listed: seq<Username>)
    ensures send == [Emit(ToRequester, Error("Not in a room"))]
    ensures leave == []
    ensures listed == ["A"]
  {
    var s := new Server();
    var a := Connection("sa", "1", "A", "a@x");
    var out := s.Connect(a, 1);
    var threw;
    out, threw := s.JoinRoom(a, "", 5, "t1");
    send := s.SendMessage(a, "hello", "", "m1", "t2");
    leave := s.LeaveRoom(a, "t3");
    out := s.Disconnect(a, "t4");
    listed := s.rooms[""].users;
  }

  /** A second connection with the same user id replaces the session: it starts outside any
      room, yet the name stays listed in the room the first connection joined. When the first
      socket then disconnects, the shared entry is deleted, and a join from the second socket
      throws. */
  method SameUserTwice() returns (online: nat, stale: seq<Username>, secondJoinThrew: bool)
    ensures online == 1
    ensures stale == ["A"]
    ensures secondJoinThrew
  {
    var s := new Server();
    var first := Connection("s1", "1", "A", "a@x");
    var second := Connection("s2", "1", "A", "a@x");
    var out := s.Connect(first, 1);
    var threw;
    out, threw := s.JoinRoom(first, "general", 2, "t1");
    out := s.Connect(second, 3);
    online := |s.Online()|;
    stale := s.rooms["general"].users;
    assert s.sessions["1"].room == None;
    out := s.Disconnect(first, "t2");
    out, secondJoinThrew := s.JoinRoom(second, "general", 4, "t3");
  }
}
