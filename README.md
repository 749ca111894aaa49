# Jack Chat client: a verified model

Jack Chat is a desktop chat client. It talks to an MQTT broker:

- each chat room is the topic `jack-chat/<room>`;
- each user receives private invitations on `jack-chat/invites/<user>`.

This project models the messaging and presence logic of its two clients and proves properties about them.

**The multi-room client (`1.py`, class `ChatApp`)** keeps:

- its name and room, and the two topics derived from them;
- the rooms it has joined (`user_chatrooms`, saved per user);
- a store of invitations per invitee.

It switches rooms and changes its name by re-subscribing. It invites others through both a private payload and a stored copy. It routes every inbound payload: a private invitation, a chat line (possibly carrying an invitation for this user), or something that makes the handler fail. It derives a display tag and colour from each sender's name.

**The earlier single-room client (`GUI/1.py`)** joins one topic. It hides the echo of its own last message by comparing the payload's name and timestamp with those of its last send.

Modules:

- `Text`: Python's `str.strip`/`isspace`, the case-insensitive `/exit` test, and the character-code sum behind colour choice.
- `Wire`: decoded JSON values, published messages and the payloads the clients build.
- `Topics`: topic names.
- `History`: the room list.
- `Invitations`: the invitation store, resolving an invitation, and closing the review window.
- `Router`: tags and inbound classification of the multi-room client.
- `Session`: the multi-room client's state as a value, and each handler as a transition function.
- `Client`: the `ChatApp` class and the review window. Their methods change fields step by step, and each is proved to produce the `Session` transition of its old state.
- `SingleRoom`: the earlier client.

The broker is modelled as a set of subscribed topics plus an append-only log of publishes. The JSON files are maps held in fields. Dialog answers, yes/no replies, the clock, the broker's reachability and the randomly chosen colour are parameters.

## Model

| member | source | states |
|---|---|---|
| Text.Strip | 1.py:467 | the result is a slice of the input with only whitespace before and after it; it is empty exactly when the input is all Python whitespace, and otherwise starts and ends with non-whitespace |
| Text.StripIdempotent | 1.py:813 | stripping a stripped string changes nothing |
| Text.IsExitCommand | 1.py:819 | exactly the 32 letter-case spellings of `/exit` pass: a slash, then e, x, i, t each in either case |
| Text.CodeSumAppend | 1.py:626 | the character-code sum of a concatenation is the sum of the parts |
| Text.CodeSumAnagram | 1.py:626 | two names made of the same characters have the same code sum |
| Topics.RoomOfChatTopic | 1.py:489 | the room can be read back from its chat topic |
| Topics.ChatTopicInjective | 1.py:489 | distinct rooms have distinct chat topics, and equal rooms equal topics |
| Topics.PersonalTopicInjective | 1.py:475 | distinct users have distinct personal topics, and equal users equal topics |
| Topics.TopicsCollide | 1.py:68-69 | a chat topic equals a personal topic exactly when the room is named `invites/<user>` |
| History.Load | 1.py:134-159 | the user's stored list when the store has an entry for them, otherwise the empty list |
| History.Added | 1.py:180-184 | the room is appended once, only when absent (the list grows by exactly one); earlier rooms keep their places; membership is the old rooms plus this one; a duplicate-free list stays duplicate-free |
| History.AddedTwice | 1.py:180-184 | adding a room twice equals adding it once |
| History.Removed | 1.py:186-190 | no-op when absent; otherwise exactly the first occurrence is cut out, the rooms before and after it keeping their order |
| History.FirstIndex | 1.py:186-190 | the position of a present room's first occurrence, with no earlier occurrence |
| History.RemovedCounts | 1.py:186-190 | exactly one occurrence of the room goes, and every other room keeps its number of occurrences |
| History.RemovedFromNoDup | 1.py:186-190 | in a duplicate-free list the room is gone afterwards and the list stays duplicate-free |
| History.RemovedAfterAdded | 1.py:180-190 | removing a room just added to a list that lacked it restores the list |
| Invitations.Stored | 1.py:746-767 | the target's list gains the invitation at its end (created when missing); every other user's entry is unchanged |
| Invitations.WithoutMatches | 1.py:779-782 | no entry matching both room and sender remains, and every entry that does not match is kept |
| Invitations.WithoutMatchesCounts | 1.py:779-782 | every non-matching entry keeps its number of occurrences, and matching entries have none |
| Invitations.WithoutMatchesAppend | 1.py:779-782 | filtering a concatenation filters each part |
| Invitations.WithoutMatchesNone | 1.py:779-782 | a list with no match is kept as it is |
| Invitations.WithoutMatchesTwice | 1.py:779-782 | filtering a second time removes nothing |
| Invitations.Resolved | 1.py:769-788 | the user's list, when there is one, becomes exactly its non-matching entries in order, so no match is left; a user without a list leaves the store as it is; the set of users and other users' lists are unchanged |
| Invitations.ResolvedTwice | 1.py:769-788 | resolving the same room and sender twice equals resolving once |
| Invitations.ResolvedAfterStored | 1.py:746-788 | storing then resolving an invitation removes the stored copy, and restores a list that held no such invitation |
| Invitations.KeptIndices | 1.py:691 | ascending, below the list length, not processed, and containing every unprocessed index |
| Invitations.Unprocessed | 1.py:691 | the j-th kept invitation is the invitation at the j-th unprocessed index |
| Invitations.KeptEverything | 1.py:691 | with nothing processed, the kept indices are 0 to n-1 in order |
| Invitations.NothingProcessed | 1.py:691 | with nothing processed every invitation is kept, in order |
| Invitations.AllProcessed | 1.py:691 | with every index processed nothing is kept |
| Invitations.WithoutProcessed | 1.py:690-694 | (corrected close) an entry of the current list is kept exactly when the window did not accept or decline it |
| Invitations.WithoutProcessedCounts | 1.py:690-694 | (corrected close) every untouched entry keeps its number of occurrences, and accepted or declined ones have none |
| Invitations.WithoutProcessedAppend | 1.py:690-694 | (corrected close) filtering a concatenation filters each part, so the kept entries stay in their order |
| Invitations.AfterReview | 1.py:690-694 | (corrected close) the owner's list becomes the filter of their current list that drops the invitations the window accepted or declined, keeping the others in order and with their counts, including any stored while it was open; every other user's list is unchanged |
| Invitations.AfterReviewUnchangedList | 1.py:690-694 | when the owner's list is still the one shown and holds no duplicate, an invitation is in the list after the corrected close exactly when it is in the list the close as written keeps |
| Invitations.AfterReviewAsWritten | 1.py:690-694 | (as written) the snapshot read when the window opened gets the unprocessed invitations under the name the user has at close time; every other entry is the snapshot's |
| Invitations.StaleSnapshotLosesInvitation | 1.py:690-694 | an invitation stored for another user while the window is open is erased by the close as written, and kept by the corrected close |
| Invitations.RenameKeepsAcceptedInvitation | 1.py:690-694 | after a rename during review, the close as written leaves the accepted invitation under the old name, while the corrected close clears it |
| Invitations.LiveResolvedComesBack | 1.py:690-694 | a stored invitation resolved by accepting the live one while the window is open is written back by the close as written, and stays resolved with the corrected close |
| Router.ColourIndex | 1.py:624-626 | the index is within the six-colour palette without white |
| Router.TagFor | 1.py:613-632 | "System" gets the system tag and colour; "jack" is red and "bob" green under their own names; every other name gets `user_<name>` in the palette colour at its code-sum index; no name is coloured white |
| Router.TagNameInjective | 1.py:613-632 | distinct usernames get distinct tag names, including "System", "jack" and "bob" |
| Router.AnagramsShareColour | 1.py:624-630 | two ordinary names with the same characters get the same colour |
| Router.EmbeddedPrompt | 1.py:598-601 | the check raises exactly when the `invitation` value is not an object, or invites me without a `chatroom`; a prompt names the room of an invitation addressed to me, and every such invitation with a string room gives one |
| Router.Classify | 1.py:583-611 | a private invitation exactly when an object on the personal topic has type "invitation"; dropped exactly when the payload is not an object or, not being a private invitation, its embedded-invitation check raises; otherwise delivered with the prompt the embedded-invitation check gives, and with a line exactly when the username (or its default) is a string, taking the payload fields or the defaults and the sender's tag |
| Router.ChatIsRendered | 1.py:592-608 | a well-formed chat payload is always rendered, and it prompts exactly when the embedded invitation is addressed to this user |
| Router.PersonalInvitationFirst | 1.py:587-589 | a payload of type "invitation" on the personal topic is handed over with its sender and room (or "Someone" and "unknown"), whatever else it carries |
| Router.ChatLineRendered | 1.py:592-608 | a chat line from bob renders with bob's fixed colour |
| Router.OthersInvitationNoPrompt | 1.py:598-602 | an invitation addressed to someone else raises no prompt |
| Router.OthersRoomlessInvitationRendered | 1.py:593-608 | a line carrying someone else's invitation without a room is rendered with the timestamp default and no prompt |
| Router.DefaultsFilled | 1.py:593-595 | an empty object renders as "unknown time", "unknown user" and "" |
| Router.SystemNoticeRendered | 1.py:428-435 | a system notice renders with the system tag |
| Router.OwnChatRendered | 1.py:583-611 | the client's own chat line comes back rendered with its own tag |
| Router.InvitationDelivered | 1.py:446-458 | the payload `add_user` sends is classified as a private invitation on the invitee's topic, with its sender and room |
| Session.Started | 1.py:21-69 | topics derived and the chosen colour kept; when reachable, subscribed to exactly the two topics with one join notice, otherwise closed with no subscription and nothing published; the history is the stored list plus the starting room, written back only when the room was new; invitations loaded and display empty |
| Session.SystemSent | 1.py:428-435 | one notice from "System" is appended on the current chat topic, and nothing else changes |
| Session.HistoryAdded | 1.py:180-184 | the list is History.Added; the store is rewritten only when the room was absent; nothing else changes |
| Session.HistoryRemoved | 1.py:186-190 | the list is History.Removed; the store is rewritten only when the room was present; nothing else changes |
| Session.ChangedRoom | 1.py:481-511 | "has left" on the old topic and then the join notice on the new topic, with the invitation suffix exactly when asked; old chat topic swapped for the new one; the history is History.Added with the room, stored only when it was new; name, personal topic, colour, invitation store and closed flag unchanged; display reset to the banner |
| Session.Renamed | 1.py:463-479 | a blank or missing answer changes nothing; otherwise the rename notice naming the old name goes out on the unchanged chat topic, the personal subscription moves to the new name, and every other field is unchanged |
| Session.Invited | 1.py:437-461 | a blank or missing answer changes nothing; otherwise a notice and then the private invitation are published, and a copy is appended to the guest's stored list only |
| Session.Recoloured | 1.py:552-561 | the colour is replaced and a notice names it; nothing else changes |
| Session.ShutDown | 1.py:833-841 | the "has left" notice, then closed, with nothing else changed |
| Session.Sent | 1.py:812-831 | blank input does nothing; `/exit` in any case closes; anything else publishes the stripped text with the name, time and colour |
| Session.JoinedFromList | 1.py:312-319 | joining the current room changes nothing; any other room is a room switch |
| Session.RoomAdded | 1.py:321-342 | a blank or missing name changes nothing; otherwise the room joins the history (stored only when new) and nothing else changes, unless the user agreed to join, when the result is exactly a room switch to it |
| Session.RemovalConfirmed | 1.py:344-358 | the current room is never removed; another room is removed only on confirmation |
| Session.PersonalHandled | 1.py:736-744 | an accepted invitation with a string room is exactly a room switch via invitation, otherwise the state stays; with string sender and room the user's list becomes its entries not from that sender for that room, else the store is unchanged; other users' lists are unchanged; nothing is rendered |
| Session.Received | 1.py:583-611 | a dropped payload changes nothing; a private invitation is handled exactly as Session.PersonalHandled, so accepted or declined its stored copies are resolved, and it renders nothing; a chat line is handled exactly as Session.Delivered; the name and personal topic never change; the room changes only when the user accepts, and an accepted prompt or private invitation with a string room does move the user; a rendered line is the newest display entry |
| Session.Delivered | 1.py:598-608 | without an accepted prompt only the line, if any, is appended; with one the state is a room switch via invitation whose display is the banner followed by the line; the invitation store is unchanged |
| Session.ReviewClosed | 1.py:690-694 | (corrected) the owner's list becomes Invitations.WithoutProcessed of their current list, so exactly the invitations the window did not accept or decline remain, in order; other users and every other field are unchanged |
| Session.ChangedRoomStaysSubscribed | 1.py:481-490 | switching rooms keeps exactly the two derived topics subscribed when they differ |
| Session.RenamedStaysSubscribed | 1.py:471-476 | renaming keeps exactly the two derived topics subscribed when they differ |
| Session.AliasedRoomLosesPersonalTopic | 1.py:481-490 | a user in the room `invites/<own name>` loses their personal subscription on leaving it |
| Session.RevisitKeepsHistory | 1.py:493 | switching to a room already in the history leaves the history unchanged |
| Session.LiveInvitationAccepted | 1.py:736-744 | accepting a live private invitation moves the user to its room and leaves no stored copy of it |
| Session.LiveInvitationDeclined | 1.py:736-744 | declining a live private invitation keeps the user in their room and still takes its stored copies out of their list |
| Client.ChatApp.constructor | 1.py:21-69 | the new object's state is Session.Started |
| Client.ChatApp.SendSystemMessage | 1.py:428-435 | one notice from "System" appended on the chat topic |
| Client.ChatApp.AddChatroomToHistory | 1.py:180-184 | the new state is Session.HistoryAdded of the old |
| Client.ChatApp.RemoveChatroomFromHistory | 1.py:186-190 | the new state is Session.HistoryRemoved of the old |
| Client.ChatApp.ChangeToChatroom | 1.py:481-511 | the new state is Session.ChangedRoom of the old |
| Client.ChatApp.JoinChatroom | 1.py:312-319 | the new state is Session.JoinedFromList of the old |
| Client.ChatApp.AddNewChatroom | 1.py:321-342 | the new state is Session.RoomAdded of the old |
| Client.ChatApp.ConfirmRemoveChatroom | 1.py:344-358 | the new state is Session.RemovalConfirmed of the old |
| Client.ChatApp.ChangeUsername | 1.py:463-479 | the new state is Session.Renamed of the old |
| Client.ChatApp.StoreInvitation | 1.py:746-767 | the store becomes Invitations.Stored of the old store |
| Client.ChatApp.RemoveStoredInvitation | 1.py:769-788 | the store becomes Invitations.Resolved of the old store |
| Client.ChatApp.AddUser | 1.py:437-461 | the new state is Session.Invited of the old |
| Client.ChatApp.SetColour | 1.py:552-561 | the new state is Session.Recoloured of the old |
| Client.ChatApp.OnClosing | 1.py:833-841 | the new state is Session.ShutDown of the old |
| Client.ChatApp.SendMessage | 1.py:812-831 | the new state is Session.Sent of the old |
| Client.ChatApp.HandlePersonalInvitation | 1.py:736-744 | the new state is Session.PersonalHandled of the old |
| Client.ChatApp.OnMessage | 1.py:583-611 | the new state is Session.Received of the old |
| Client.ChatApp.DeliverLine | 1.py:598-608 | the new state is Session.Delivered of the old |
| Client.ChatApp.CheckPendingInvitations | 1.py:634-650 | a review window opens exactly when the user has stored invitations; it shows them all, with none processed |
| Client.ReviewWindow.Accept | 1.py:729-731 | the index is marked processed, then the app switches to the invitation's room via invitation |
| Client.ReviewWindow.Decline | 1.py:733-734 | the index is marked processed and nothing else changes |
| Client.ReviewWindow.Close | 1.py:690-694 | (corrected) the app's state becomes Session.ReviewClosed, and the window is closed |
| SingleRoom.ColourIndex | GUI/1.py:141-142 | the index is within the seven-colour palette, white included |
| SingleRoom.TagFor | GUI/1.py:137-147 | "System" gets the tag "system" in the system colour (GUI/1.py:172); every other name gets `user_<name>` in the palette colour at its code-sum index |
| SingleRoom.TagNameInjective | GUI/1.py:137-143 | distinct usernames get distinct tag names |
| SingleRoom.WhiteName | GUI/1.py:11-19 | the name "a" is coloured white |
| SingleRoom.IsOwnEcho | GUI/1.py:128 | the payload's username is my name and its timestamp is that of my last send, or, before any send, it has no timestamp or a null one |
| SingleRoom.PyGet | GUI/1.py:128 | a value is present exactly when the key is there and is not null |
| SingleRoom.Classify | GUI/1.py:123-155 | a line is rendered exactly when the payload is an object that is not the own echo and whose username is a string; it takes the payload fields or the defaults and the name's tag |
| SingleRoom.EchoOfLastSendHidden | GUI/1.py:128-129 | the echo of the message just sent is hidden |
| SingleRoom.SameSecondOtherUserShown | GUI/1.py:128-152 | another user's message with the same timestamp is shown |
| SingleRoom.EarlierOwnEchoShown | GUI/1.py:128-152 | an own echo whose timestamp is not the last send's is shown |
| SingleRoom.UntimedOwnPayloadHidden | GUI/1.py:128-129 | before any send, an own payload without a timestamp is hidden |
| SingleRoom.DefaultsFilled | GUI/1.py:132-134 | an empty object renders with the three defaults |
| SingleRoom.ChatApp.constructor | GUI/1.py:29-59 | when reachable, subscribed to `jack-chat/<room>` with one join notice from "System"; otherwise closed with nothing published |
| SingleRoom.ChatApp.ConnectToMqtt | GUI/1.py:95-115 | sets and subscribes the chat topic and publishes the join notice, or closes |
| SingleRoom.ChatApp.OnMessage | GUI/1.py:123-155 | the display gains exactly the line Classify returns, if any |
| SingleRoom.ChatApp.OnClosing | GUI/1.py:208-224 | "has left" from "System" on the chat topic, then closed |
| SingleRoom.ChatApp.SendMessage | GUI/1.py:182-206 | blank input does nothing; `/exit` in any case closes; anything else records the timestamp as last sent and publishes name, stripped text and timestamp |
| SingleRoom.SendThenReceiveOwnEcho | GUI/1.py:123-206 | a message sent and echoed back before the next send leaves the display unchanged, so the sender never sees their own line |

## Left out

- Widgets and windows: layout, menus, hover colours, the colour picker windows (`change_color`, `pick_custom_color`), the status bar text and `on_connect`. Dialog answers and yes/no replies are parameters.
- `lighten_color` and the auto-scroll test: floating point and cosmetic only.
- The MQTT client library, its network thread, `master.after` and `time.sleep`. Connecting is a parameter, "reachable". Subscriptions and publishes are a set and a log.
- File I/O: the JSON files are held as maps in fields, and an unreadable file is the empty map. The legacy pickle fallback is not modelled. `save_user_chatrooms` is modelled as writing the user's entry into the held map.
- The startup dialogs' failure path: an empty name or room destroys the window. In `1.py` the constructor then carries on and fails on missing attributes; in `GUI/1.py` it returns at once. Both constructors require non-empty names.
- The clock: each handler takes one time value. The source reads the clock again for each notice.
- `random.choice` of the colour is a parameter. The single-room client never sends its colour, so that field is not modelled there.
- `check_pending_invitations` runs in the constructor in the source. In the model it is a separate method called after construction. It reads only the invitation store, which the constructor does not change.
- Router.Classify: an embedded invitation whose `chatroom` is not a string raises no prompt, so it causes no room change. Python would still ask, formatting the value into the question, and on yes would switch to a topic named after the formatted value.
- Router.Classify: a username that is a JSON array or object is dropped. Python would iterate it when summing character codes.
- SingleRoom.Classify: a username that is a JSON array or object is dropped, for the same reason.
- Session.PersonalHandled: when the room of a private invitation is not a string, no room change happens, where Python would switch to the formatted value. Whether the user moves depends only on the room. When the sender or the room is not a string, nothing is removed from the store; Python removes nothing either, because stored copies hold strings.
- SingleRoom.ChatApp.SendMessage: when the chat topic was never set, the model records the timestamp and publishes nothing. In the source the handler raises at that point.
- Client.ReviewWindow.Close implements the corrected close (see Findings). The close as written is Invitations.AfterReviewAsWritten. The corrected close identifies accepted and declined invitations by value, so a second stored copy identical in sender, room and timestamp goes with them.

## Findings

| source | as written | input that shows it | evidently intended | confidence | as-written member | corrected member |
|---|---|---|---|---|---|---|
| 1.py:690-694 | `close_and_save` writes back the whole invitation store as it was read when the review window opened | carol has one stored invitation and opens the window; before closing she invites eve, which stores eve's invitation; closing erases it | only carol's list is changed, in the current store | medium, not executed | Invitations.StaleSnapshotLosesInvitation | Invitations.AfterReview |
| 1.py:692 | the kept list is stored under the username at close time, not the username the window was opened for | carol accepts her only invitation, renames herself to dave, then closes; carol's list still holds the accepted invitation and is offered again at her next start | the list of the user the invitations belong to is changed | medium, not executed | Invitations.RenameKeepsAcceptedInvitation | Invitations.AfterReview |
| 1.py:691-692 | the kept list is computed from the list shown when the window opened, so changes made to the user's own list meanwhile are overwritten | carol's window shows alice's invitation to lobby; she accepts alice's live invitation to lobby, which resolves the stored copy; closing without using the window stores the copy again | only the invitations accepted or declined in the window are taken out of the current list | medium, not executed | Invitations.LiveResolvedComesBack | Invitations.AfterReview |
