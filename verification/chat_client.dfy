/** The browser side of the chat page (public/chat.js): the list of users currently shown as
    typing, the room the page has joined, the guards on joining and sending, the caption of
    the typing indicator and the CSS class given to each message. Rendering is left out;
    what the page would send to the server is returned as a list of outbound events. */
module ChatClient {
  import opened Base
  import opened JsString
  import ChatServer

  /** The logged-in user as stored by the login page. */
  datatype CurrentUser = CurrentUser(id: string, username: string)

  /** Events the page emits to the server. */
  datatype Outbound =
    | JoinRequest(roomName: string)
    | MessagesRequest(room: string)
    | RoomsRequest
    | SendRequest(message: string, room: string)
    | TypingStarted
    | TypingStopped

  /** What the typing indicator shows. */
  datatype Indicator = Hidden | OneTyping(name: string) | TwoTyping(first: string, second: string) | ManyTyping(count: nat)

  /** The number of entries of `typing` other than `me`. */
  function OthersCount(typing: seq<string>, me: string): nat
  {
    |typing| - multiset(typing)[me]
  }

  /** `updateTypingIndicator`: the current user's own name is ignored; zero other names hide
      the indicator, one or two are named, three or more are counted. */
  function TypingIndicator(typing: seq<string>, me: string): (ind: Indicator)
    ensures ind.Hidden? <==> forall i :: 0 <= i < |typing| ==> typing[i] == me
    ensures ind.Hidden? <==> OthersCount(typing, me) == 0
    ensures ind.OneTyping? <==> OthersCount(typing, me) == 1
    ensures ind.TwoTyping? <==> OthersCount(typing, me) == 2
    ensures ind.ManyTyping? <==> OthersCount(typing, me) >= 3
    ensures ind.ManyTyping? ==> ind.count == OthersCount(typing, me)
    ensures ind.OneTyping? ==> ind.name in typing && ind.name != me
    ensures ind.TwoTyping? ==> ind.first in typing && ind.second in typing && ind.first != me && ind.second != me
    ensures ind.TwoTyping? && NoDuplicates(typing) ==> ind.first != ind.second
    ensures ind.OneTyping? ==> [ind.name] == Without(typing, me)
    ensures ind.TwoTyping? ==> [ind.first, ind.second] == Without(typing, me)
  {
    var others := Without(typing, me);
    WithoutCount(typing, me);
    assert others == [] <==> forall i :: 0 <= i < |typing| ==> typing[i] == me by {
      if others != [] {
        assert others[0] in others;
      } else {
        forall i | 0 <= i < |typing| ensures typing[i] == me {
          assert typing[i] in typing;
        }
      }
    }
    if |others| == 0 then Hidden
    else if |others| == 1 then
      assert [others[0]] == others;
      OneTyping(others[0])
    else if |others| == 2 then
      assert others[0] in others && others[1] in others;
      assert [others[0], others[1]] == others;
      TwoTyping(others[0], others[1])
    else ManyTyping(|others|)
  }

  /** The names the indicator spells out. */
  function Names(ind: Indicator): seq<string>
  {
    match ind
    case OneTyping(x) => [x]
    case TwoTyping(x, y) => [x, y]
    case _ => []
  }

  /** The caption text; `None` when the indicator is hidden. */
  function Caption(ind: Indicator): (c: Option<string>)
    ensures c.None? <==> ind.Hidden?
  {
    match ind
    case Hidden => None
    case OneTyping(x) => Some(x + " is typing...")
    case TwoTyping(x, y) => Some(x + " and " + y + " are typing...")
    case ManyTyping(n) => Some(Decimal(n) + " users are typing...")
  }

  /** The count caption starts with the count's digits, and reading them back gives the count. */
  lemma ManyCaptionShowsCount(n: nat)
    ensures var c := Caption(ManyTyping(n)).value;
      var k := |Decimal(n)|;
      && k <= |c|
      && (forall i :: 0 <= i < k ==> IsDigit(c[i]))
      && ParseDecimal(c[..k]) == n
      && c[k..] == " users are typing..."
  {
    var c := Caption(ManyTyping(n)).value;
    var k := |Decimal(n)|;
    assert c[..k] == Decimal(n);
    DecimalRoundTrip(n);
  }

  /** Removing the current user's own name from the list never changes the indicator. */
  lemma OwnNameIgnored(typing: seq<string>, me: string)
    ensures TypingIndicator(Without(typing, me), me) == TypingIndicator(typing, me)
  {
    WithoutIdempotent(typing, me);
  }

  /** `getMessageClass`: system messages first, then own messages by user id. */
  function MessageClass(message: ChatServer.ChatMessage, user: CurrentUser): (c: string)
    ensures c == "message-system" <==> message.SystemMessage?
    ensures c == "message-own" <==> message.UserMessage? && message.userId == user.id
    ensures c == "message-other" <==> message.UserMessage? && message.userId != user.id
  {
    if message.SystemMessage? then "message-system"
    else if message.userId == user.id then "message-own"
    else "message-other"
  }

  class Client {
    const user: CurrentUser
    var currentRoom: Option<string>
    var typingUsers: seq<string>

    ghost predicate Valid()
      reads this
    {
      NoDuplicates(typingUsers)
    }

    constructor (user: CurrentUser)
      ensures Valid()
      ensures this.user == user && currentRoom == None && typingUsers == []
    {
      this.user := user;
      currentRoom := None;
      typingUsers := [];
    }

    /** The indicator as `updateTypingIndicator` would draw it now. */
    function Shown(): Indicator
      reads this
    {
      TypingIndicator(typingUsers, user.username)
    }

    /** `user:typing`: the name is added only if absent and the event is about the
        current room. */
    method OnUserTyping(username: string, room: string)
      requires Valid()
      modifies this`typingUsers
      ensures Valid()
      ensures typingUsers == if username !in old(typingUsers) && currentRoom == Some(room)
                             then old(typingUsers) + [username] else old(typingUsers)
      ensures username in typingUsers <==> username in old(typingUsers) || currentRoom == Some(room)
    {
      if username !in typingUsers && currentRoom == Some(room) {
        typingUsers := typingUsers + [username];
      }
    }

    /** `user:stopTyping`: every occurrence of the name goes, whatever the room. */
    method OnUserStopTyping(username: string, room: string)
      requires Valid()
      modifies this`typingUsers
      ensures Valid()
      ensures typingUsers == Without(old(typingUsers), username)
      ensures username !in typingUsers
      ensures username !in Names(Shown())
    {
      typingUsers := Without(typingUsers, username);
    }

    /** `message:new`: the author (or "System") no longer counts as typing. */
    method OnMessageNew(message: ChatServer.ChatMessage)
      requires Valid()
      modifies this`typingUsers
      ensures Valid()
      ensures typingUsers == Without(old(typingUsers), message.Sender())
      ensures message.Sender() !in typingUsers
      ensures message.Sender() !in Names(Shown())
    {
      typingUsers := Without(typingUsers, message.Sender());
    }

    /** `joinRoom`: a no-op for the room already current; otherwise the room becomes current
        and the page asks to join it and for its history. It then highlights the clicked
        entry of the room list, which throws when the click target has no `.room-item`
        ancestor; `targetInRoomItem` says whether it has one, as the page's markup decides. */
    method JoinRoom(roomName: string, targetInRoomItem: bool) returns (out: seq<Outbound>, threw: bool)
      modifies this`currentRoom
      ensures old(currentRoom) == Some(roomName) ==> out == [] && !threw && currentRoom == old(currentRoom)
      ensures old(currentRoom) != Some(roomName) ==>
        currentRoom == Some(roomName) && out == [JoinRequest(roomName), MessagesRequest(roomName)]
      ensures threw <==> old(currentRoom) != Some(roomName) && !targetInRoomItem
    {
      if currentRoom == Some(roomName) {
        return [], false;
      }
      currentRoom := Some(roomName);
      out := [JoinRequest(roomName), MessagesRequest(roomName)];
      threw := !targetInRoomItem;
    }

    /** The create-room button: a blank name is refused; otherwise the trimmed name is
        joined, and the room list is requested again only if the join returned normally. */
    method CreateRoom(input: string, targetInRoomItem: bool) returns (out: seq<Outbound>, threw: bool)
      modifies this`currentRoom
      ensures AllWhitespace(input) ==> out == [] && !threw && currentRoom == old(currentRoom)
      ensures !AllWhitespace(input) ==> currentRoom == Some(Trim(input))
      ensures threw <==> !AllWhitespace(input) && old(currentRoom) != Some(Trim(input)) && !targetInRoomItem
      ensures !AllWhitespace(input) && old(currentRoom) == Some(Trim(input)) ==> out == [RoomsRequest]
      ensures !AllWhitespace(input) && old(currentRoom) != Some(Trim(input)) && targetInRoomItem ==>
        out == [JoinRequest(Trim(input)), MessagesRequest(Trim(input)), RoomsRequest]
      ensures threw ==> out == [JoinRequest(Trim(input)), MessagesRequest(Trim(input))]
    {
      var roomName := Trim(input);
      if roomName == "" {
        return [], false;
      }
      out, threw := JoinRoom(roomName, targetInRoomItem);
      if threw {
        return;
      }
      out := out + [RoomsRequest];
    }

    /** `sendMessage`: nothing for a blank input or without a current room; otherwise the
        trimmed text goes to the current room, followed by a stop-typing event. */
    method SendMessage(input: string) returns (out: seq<Outbound>)
      ensures AllWhitespace(input) || !Truthy(currentRoom) ==> out == []
      ensures !AllWhitespace(input) && Truthy(currentRoom) ==>
        out == [SendRequest(Trim(input), currentRoom.value), TypingStopped]
      ensures forall i :: 0 <= i < |out| && out[i].SendRequest? ==> out[i].message != "" && out[i].room != ""
    {
      var message := Trim(input);
      if message == "" {
        return [];
      }
      if !Truthy(currentRoom) {
        return [];
      }
      out := [SendRequest(message, currentRoom.value), TypingStopped];
    }

    /** Typing in the input box announces typing only when a room is current. */
    method OnInput() returns (out: seq<Outbound>)
      ensures Truthy(currentRoom) ==> out == [TypingStarted]
      ensures !Truthy(currentRoom) ==> out == []
    {
      if !Truthy(currentRoom) {
        return [];
      }
      out := [TypingStarted];
    }
  }
}
