# Netchat chat-room core in Dafny

Netchat is a small real-time chat. An Express/socket.io server keeps two in-memory
maps: `connectedUsers` (user id to session) and `chatRooms` (room name to room). Its
socket handlers update those maps and emit events to everyone, to a room, to a room
minus the sender, or only to the requester. A browser page keeps a list of users
currently typing and a current room. A login page scores password strength and checks
the register form before sending it.

This project models that core:

- `chat_server.dfy` (module `ChatServer`): the two maps as fields of a `Server` class.
  Each map is stored as a Dafny `map` plus a `seq` of its keys in insertion order. There
  is one method per socket event. Each method returns the events it emits, in order,
  each tagged with its audience. All handlers preserve `Valid()`, which states:
  - every key order lists its map's keys exactly once;
  - no room lists a username twice;
  - a room's history holds only user messages addressed to that room;
  - every session's room exists.
- `chat_client.dfy` (module `ChatClient`): the page's `typingUsers` / `currentRoom`
  state as a `Client` class, and the pure helpers `TypingIndicator`, `Caption` and
  `MessageClass`.
- `register_form.dfy` (module `RegisterForm`): the step-by-step strength score and the
  ordered register checks.
- `js_string.dfy` (module `JsString`): the JavaScript string operations the code relies
  on. These are `trim` (ECMAScript WhiteSpace and LineTerminator characters), `length`
  in UTF-16 units, and the decimal rendering of a count in a template literal.
- `base.dfy` (module `Base`): `Option`, duplicate-freedom, the `filter(u => u !== x)`
  idiom (`Without`) and the `if (!includes) push` idiom (`AddOnce`).
- `scenarios.dfy` (module `Scenarios`): properties of several handler calls in a row.

Modelling choices:

- JavaScript truthiness is written out. A session whose room is `""` counts as being in
  no room (`Base.Truthy`, used by both server and page).
- Clock readings and generated message ids are method parameters.
- Token verification is a function parameter of `Authenticate`.
- The handshake identity (`socket.userId`, `socket.username`, `socket.id`) is a
  `Connection` value passed to every handler.
- `room:join` on a socket whose session was deleted raises a TypeError in the server
  before it changes anything. This is modelled as the `threw` result, with no state
  change.

## Model

| member | source | states |
|---|---|---|
| Base.Without | server.js:452 | `filter(u => u !== x)`: keeps exactly the other elements, so `x` is absent; never longer; keeps duplicate-freedom |
| Base.WithoutSingleton | server.js:452 | a one-element list keeps its element exactly when it differs from `x` |
| Base.WithoutAppend | server.js:452 | filtering a concatenation filters each part and keeps them in order, so the kept elements stay in their original order |
| Base.AddOnce | server.js:355-357 | appends `x` only when absent, so `x` is present afterwards and duplicate-freedom is kept |
| Base.WithoutAbsent | server.js:452 | filtering out an absent element changes nothing |
| Base.WithoutIdempotent | public/chat.js:310 | filtering twice equals filtering once |
| Base.WithoutCount | public/chat.js:310 | the filtered list is as long as the list minus the occurrences of `x` |
| Base.AddThenRemove | server.js:355-357 | add-once then filter equals filtering alone |
| Base.AddThenRemoveAppend | server.js:452 | appending an absent name and filtering it out restores the list |
| JsString.TrimStartSpec | server.js:392 | the leading cut is a suffix whose removed part is all whitespace and which starts with a non-space |
| JsString.TrimEndSpec | server.js:392 | the trailing cut is a prefix whose removed part is all whitespace and which ends with a non-space |
| JsString.Trim | server.js:392 | `trim()` has no whitespace at either end and is empty exactly when the input is all whitespace |
| JsString.AllWhitespaceAppend | public/chat.js:279 | a concatenation is blank exactly when both parts are |
| JsString.TrimIsInfix | server.js:392 | the trimmed text is a slice of the input with only whitespace around it |
| JsString.TrimUnchanged | server.js:392 | text with non-space ends is its own trim |
| JsString.TrimIdempotent | public/chat.js:279 | trimming twice equals trimming once |
| JsString.Utf16Length | public/script.js:39 | `length` counts each character once or twice, and equals the character count exactly when all are in the BMP |
| JsString.Utf16LengthAppend | public/script.js:39 | `length` of a concatenation is the sum of the lengths |
| JsString.Decimal | public/chat.js:323 | `${n}` is non-empty decimal digits without a leading zero |
| JsString.DecimalRoundTrip | public/chat.js:323 | reading the rendered digits back gives `n` |
| ChatServer.Authenticate | server.js:290-305 | admitted exactly when a non-empty token verifies; the two rejection texts; the socket carries the token's user id, username and email |
| ChatServer.ValuesInOrder | server.js:321 | `Array.from(map.values())` lists the values in key order, one per key |
| ChatServer.Summaries | server.js:421-431 | one summary per room in creation order, with its user and message counts |
| ChatServer.JoinKeepsConsistent | server.js:341-357 | moving a session into a stored valid room keeps the map invariant |
| ChatServer.SetUsersKeepsConsistent | server.js:452 | replacing a room's users by a duplicate-free list keeps the map invariant |
| ChatServer.AppendMessageKeepsConsistent | server.js:399-401 | appending a user message of that room keeps the map invariant |
| ChatServer.RemoveSessionKeepsConsistent | server.js:514 | deleting a session from map and order keeps the map invariant |
| ChatServer.Server.Online | server.js:515 | the `users:update` payload is every session in map order |
| ChatServer.Server.constructor | server.js:286-287 | both maps start empty |
| ChatServer.Server.Connect | server.js:308-321 | a fresh session with no room replaces any entry for the user id; a new id is appended to the order; rooms are untouched; the list is broadcast to all |
| ChatServer.Server.JoinRoom | server.js:324-376 | a "left" notice goes to a previous truthy room, whose users are untouched; the room is created empty only if absent; an existing room keeps its history; the name is added at most once; "joined" and `room:info` go to the room; without a session it throws and changes nothing |
| ChatServer.Server.SendMessage | server.js:379-406 | outside a room, only "Not in a room" goes to the requester and no state changes; otherwise exactly one user message with the trimmed body is appended to the session's room (not the payload's) and broadcast there |
| ChatServer.Server.GetMessages | server.js:409-418 | the room's stored history, or an empty list for an unknown room, to the requester only, changing nothing; the history holds only that room's user messages |
| ChatServer.Server.GetRooms | server.js:421-431 | one entry per existing room in creation order, with user and message counts, to the requester only; every room is listed |
| ChatServer.Server.LeaveRoom | server.js:434-464 | outside a room nothing happens; otherwise the "left" notice, every occurrence of the name removed from the room's users, `room:info` with the filtered list, and the session's room set to null |
| ChatServer.Server.Typing | server.js:467-475 | relayed to the sender's room except the sender; nothing outside a room |
| ChatServer.Server.StopTyping | server.js:478-486 | relayed to the sender's room except the sender; nothing outside a room |
| ChatServer.Server.Disconnect | server.js:489-519 | without a session nothing happens; otherwise the name leaves its room (with notice and `room:info`), the session is deleted and the remaining sessions go to all |
| ChatClient.TypingIndicator | public/chat.js:309-325 | own name ignored: hidden exactly when no other name is listed, one or two names shown, three or more counted; the shown names are listed and are not the user's; one or two names are exactly the other names, in list order |
| ChatClient.Caption | public/chat.js:309-325 | a caption exists exactly when the indicator is shown |
| ChatClient.ManyCaptionShowsCount | public/chat.js:323 | the count caption is the count's digits followed by " users are typing..." |
| ChatClient.OwnNameIgnored | public/chat.js:310 | removing the user's own name never changes the indicator |
| ChatClient.MessageClass | public/chat.js:154-162 | `message-system` exactly for system messages, otherwise `message-own` exactly when the user id matches, else `message-other` |
| ChatClient.Client.constructor | public/chat.js:23-27 | no room and nobody typing |
| ChatClient.Client.OnUserTyping | public/chat.js:100-106 | the name is appended only if absent and the event's room is the current room; the list never holds duplicates |
| ChatClient.Client.OnUserStopTyping | public/chat.js:109-113 | every occurrence of the name goes, whatever the room, so the indicator no longer names it |
| ChatClient.Client.OnMessageNew | public/chat.js:73-79 | the message's username ("System" for notices) is no longer listed as typing or named by the indicator |
| ChatClient.Client.JoinRoom | public/chat.js:221-242 | joining the current room is a no-op; otherwise the room becomes current and a join and a history request are sent, and the handler throws exactly when the click target has no room-list entry to highlight |
| ChatClient.Client.CreateRoom | public/chat.js:328-339 | a blank name sends nothing; otherwise the trimmed name is joined, and the room list is requested only when the join did not throw |
| ChatClient.Client.SendMessage | public/chat.js:278-295 | nothing for blank input or without a truthy current room; otherwise the trimmed text to the current room, then stop-typing; never an empty message |
| ChatClient.Client.OnInput | public/chat.js:298-307 | typing is announced only with a truthy current room |
| RegisterForm.Criteria | public/script.js:37-42 | the four criteria in test order |
| RegisterForm.CountTrue | public/script.js:36-42 | the number of criteria met lies between 0 and their count, is 0 exactly when none holds, and is the count exactly when all hold |
| RegisterForm.CountFour | public/script.js:37-42 | the score is the sum of one point per criterion met |
| RegisterForm.LevelOf | public/script.js:46-49 | score 1 weak, 2 medium, 3 or more strong, 0 no class |
| RegisterForm.CheckPasswordStrength | public/script.js:36-51 | the incremented score is the number of criteria met, at most 4; 4 exactly when all hold; 0 exactly when none; the class follows the score |
| RegisterForm.CriteriaPersist | public/script.js:37-42 | a met criterion stays met when characters are appended |
| RegisterForm.CountTrueMonotone | public/script.js:36-42 | the count never drops when every met criterion stays met |
| RegisterForm.StrengthNeverDropsWhenExtended | public/script.js:36-42 | typing more characters never lowers the score |
| RegisterForm.CheckRegistration | public/script.js:55-77 | checks run in order (trimmed username length < 3, password length < 6, mismatch) and stop at the first failure; the request is sent exactly when all pass, with trimmed username and email and untrimmed passwords; each failure shows its own message |
| Scenarios.JoinThenLeave | server.js:324-463 | joining a room one was not listed in, then leaving, restores every room and leaves the session in no room |
| Scenarios.LeaveAfterJoin | server.js:434-463 | leaving right after that join removes exactly the appended name |
| Scenarios.DisconnectTwice | server.js:489-519 | a second disconnect of the same user id emits nothing; the sessions end as after one disconnect, with the id gone from map and order |
| Scenarios.SendTwice | server.js:379-406 | two sends append both messages in order to the sender's room and touch no other room |
| Scenarios.FirstJoin | server.js:308-376 | the first join creates "general" with one user, no messages, and sends the joined notice and `room:info` |
| Scenarios.SecondJoin | server.js:324-376 | a second user joining is appended after the first in `users` and `room:info` |
| Scenarios.HiIsTrimmed | server.js:392 | the example body "hi" is its own trim, so it is stored as typed |
| Scenarios.FirstMessage | server.js:379-418 | the first message is broadcast to the room and is then the whole history |
| Scenarios.DisconnectLeavesOther | server.js:489-519 | when one of two users disconnects, the room lists only the other and `users:update` holds only the other's session |
| Scenarios.EmptyRoomName | server.js:324-519 | a room named "" can be joined, yet send is refused, leave does nothing and disconnect leaves the name listed |
| Scenarios.SameUserTwice | server.js:308-376 | a second connection with the same user id replaces the session but not the room listing; after the first socket disconnects, a join from the second throws |

## Left out

- The HTTP routes, `users.json` storage, bcrypt hashing, and JWT signing and verifying
  (server.js:1-282, 527-548) are I/O and foreign libraries. Token verification is a
  parameter of `Authenticate`.
- `express-validator` rules are library calls that are not part of this model.
- socket.io delivery and its own room membership (`socket.join` / `socket.leave`) are
  left out. Each handler returns its events with their audience instead of delivering
  them.
- Console logging is left out.
- The browser DOM is left out: rendering, `escapeHTML`, alerts, clearing inputs,
  `localStorage`, `fetch`, redirects and the `setTimeout` that sends stop-typing after
  three seconds.
- The page's markup is not part of this model. Whether the click target of `joinRoom`
  has a `.room-item` ancestor (public/chat.js:240) is a parameter of
  `ChatClient.Client.JoinRoom` and `ChatClient.Client.CreateRoom`.
- `server/server.c` and `client/client.c` are raw TCP sockets and threads; they are not
  part of this model.
- Direct messages: no handler for them exists in the modelled files.
- The source reads the clock separately for each emitted event. The model takes one
  timestamp per handler call.
- A `message:send` payload whose `message` is not a string makes `trim` throw in the
  server. The model types the payload as a string.
- Payload fields of other JavaScript types (a room name that is not a string, a token
  that is some other falsy value) are not modelled: names and tokens are strings.
- `Scenarios.JoinThenLeave`: states that the session keys and the session order are
  unchanged and that the session's room is null. It does not state equality of the whole
  sessions map.
