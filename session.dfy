/**
 * The state of one multi-room chat session as a value, and every transition
 * of the `ChatApp` class as a function of the old state. The class in module
 * `Client` performs these transitions step by step; the properties the
 * client promises are stated here, about the functions.
 */
module Session {

  import opened Text
  import opened Wire
  import opened Topics
  import opened History
  import opened Invitations
  import opened Router

  /** What the chat display holds: the banner written on joining a room, and rendered lines. */
  datatype Entry = Banner(text: string) | Shown(line: Line)

  /**
   * The fields of a session: who and where the user is, the derived topics,
   * the broker (subscriptions and everything published), the room history
   * with its store, the invitation store, and the display.
   */
  datatype State = State(
    username: string,
    chatroom: string,
    chatTopic: string,
    personalTopic: string,
    colour: string,
    subscriptions: set<string>,
    published: seq<Publish>,
    rooms: seq<string>,
    roomStore: map<string, seq<string>>,
    invitations: Store,
    display: seq<Entry>,
    closed: bool)

  /** Both topics are derived from the current room and name. */
  predicate Valid(s: State) {
    s.chatTopic == ChatTopic(s.chatroom) && s.personalTopic == PersonalTopic(s.username)
  }

  /** Subscribed to the current chat topic and personal topic and nothing else. */
  predicate Subscribed(s: State) {
    s.subscriptions == {s.chatTopic, s.personalTopic}
  }

  function LeftText(user: string): string {
    user + " has left the chat"
  }

  function JoinedText(user: string, viaInvitation: bool): string {
    user + " has joined the chat" + (if viaInvitation then " in response to an invitation" else "")
  }

  function RenamedText(oldName: string, newName: string): string {
    oldName + " has changed their name to " + newName
  }

  function InvitedText(user: string, guest: string): string {
    user + " has invited " + guest + " to join this chatroom"
  }

  function RecolouredText(user: string, colourName: string): string {
    user + " has changed their color to " + colourName
  }

  function JoinBanner(room: string, viaInvitation: bool): string {
    "--- You have joined " + room + (if viaInvitation then " via invitation" else "") + " ---\n"
  }

  /**
   * `__init__` after both names were given: topics derived, connected and
   * subscribed to both topics with a join notice (or the window destroyed
   * when the broker is unreachable), history loaded from the store and the
   * starting room added to it.
   */
  function Started(user: string, room: string, colour: string, reachable: bool, now: string,
                   roomFile: map<string, seq<string>>, inviteFile: Store): (r: State)
    requires user != "" && room != ""
    requires colour in Palette
    ensures Valid(r) && r.username == user && r.chatroom == room
    ensures reachable <==> !r.closed
    ensures reachable ==> Subscribed(r) && r.published == [Publish(ChatTopic(room), SystemNotice(JoinedText(user, false), now))]
    ensures !reachable ==> r.subscriptions == {} && r.published == []
    ensures r.colour == colour
    ensures r.rooms == Added(Load(roomFile, user), room)
    ensures room in r.rooms && (NoDup(Load(roomFile, user)) ==> NoDup(r.rooms))
    ensures r.roomStore == if room in Load(roomFile, user) then roomFile else roomFile[user := r.rooms]
    ensures r.invitations == inviteFile && r.display == []
  {
    var chat := ChatTopic(room);
    var personal := PersonalTopic(user);
    var loaded := Load(roomFile, user);
    var rooms := Added(loaded, room);
    State(user, room, chat, personal, colour,
          if reachable then {chat, personal} else {},
          if reachable then [Publish(chat, SystemNotice(JoinedText(user, false), now))] else [],
          rooms, if room in loaded then roomFile else roomFile[user := rooms],
          inviteFile, [], !reachable)
  }

  /** `send_system_message`: one notice from "System" on the current chat topic. */
  function SystemSent(s: State, text: string, now: string): (r: State)
    ensures r.published == s.published + [Publish(s.chatTopic, SystemNotice(text, now))]
    ensures r.(published := s.published) == s
  {
    s.(published := s.published + [Publish(s.chatTopic, SystemNotice(text, now))])
  }

  /**
   * `add_chatroom_to_history`: the room is appended when absent, and only
   * then is the user's entry in the store rewritten; nothing else changes.
   */
  function HistoryAdded(s: State, room: string): (r: State)
    ensures r.rooms == Added(s.rooms, room)
    ensures r.roomStore == if room in s.rooms then s.roomStore else s.roomStore[s.username := r.rooms]
    ensures r.(rooms := s.rooms, roomStore := s.roomStore) == s
  {
    if room in s.rooms then s
    else s.(rooms := s.rooms + [room], roomStore := s.roomStore[s.username := s.rooms + [room]])
  }

  /**
   * `remove_chatroom_from_history`: the room is removed when present, and
   * only then is the user's entry in the store rewritten; nothing else changes.
   */
  function HistoryRemoved(s: State, room: string): (r: State)
    ensures r.rooms == Removed(s.rooms, room)
    ensures r.roomStore == if room in s.rooms then s.roomStore[s.username := r.rooms] else s.roomStore
    ensures r.(rooms := s.rooms, roomStore := s.roomStore) == s
  {
    if room !in s.rooms then s
    else s.(rooms := Removed(s.rooms, room), roomStore := s.roomStore[s.username := Removed(s.rooms, room)])
  }

  /**
   * `change_to_chatroom`: "has left" goes out on the old chat topic before
   * it is unsubscribed, the new room's topic is subscribed, the room is in
   * the history once, the join notice (with " in response to an invitation"
   * exactly when joining through one) goes out on the new topic, and the
   * display is reset to the join banner. The name, the personal topic and
   * the invitation store do not change.
   */
  function ChangedRoom(s: State, room: string, viaInvitation: bool, now: string): (r: State)
    requires Valid(s)
    ensures Valid(r) && r.chatroom == room
    ensures r.username == s.username && r.personalTopic == s.personalTopic && r.colour == s.colour
    ensures r.published == s.published + [Publish(s.chatTopic, SystemNotice(LeftText(s.username), now)),
                                          Publish(ChatTopic(room), SystemNotice(JoinedText(s.username, viaInvitation), now))]
    ensures r.subscriptions == s.subscriptions - {s.chatTopic} + {ChatTopic(room)}
    ensures r.rooms == Added(s.rooms, room)
    ensures room in r.rooms && (NoDup(s.rooms) ==> NoDup(r.rooms))
    ensures forall x :: x in s.rooms ==> x in r.rooms
    ensures r.roomStore == if room in s.rooms then s.roomStore else s.roomStore[s.username := r.rooms]
    ensures r.invitations == s.invitations && r.closed == s.closed
    ensures r.display == [Banner(JoinBanner(room, viaInvitation))]
  {
    var left := SystemSent(s, LeftText(s.username), now);
    var unsubscribed := left.(subscriptions := left.subscriptions - {left.chatTopic});
    var moved := unsubscribed.(chatroom := room, chatTopic := ChatTopic(room));
    var subscribed := moved.(subscriptions := moved.subscriptions + {moved.chatTopic});
    var recorded := HistoryAdded(subscribed, room);
    var joined := SystemSent(recorded, JoinedText(s.username, viaInvitation), now);
    joined.(display := [Banner(JoinBanner(room, viaInvitation))])
  }

  /**
   * `change_username`: a missing or blank answer changes nothing. Otherwise
   * the rename notice naming the old name goes out on the unchanged chat
   * topic, and the personal topic subscription moves to the new name; the
   * room and its topic stay.
   */
  function Renamed(s: State, answer: Option<string>, now: string): (r: State)
    requires Valid(s)
    ensures Valid(r) && r.chatroom == s.chatroom && r.chatTopic == s.chatTopic
    ensures answer.None? || IsBlank(answer.value) ==> r == s
    ensures answer.Some? && !IsBlank(answer.value) ==>
      && r.username == answer.value
      && r.published == s.published + [Publish(s.chatTopic, SystemNotice(RenamedText(s.username, answer.value), now))]
      && r.subscriptions == s.subscriptions - {s.personalTopic} + {PersonalTopic(answer.value)}
      && r.(username := s.username, personalTopic := s.personalTopic, subscriptions := s.subscriptions, published := s.published) == s
  {
    if answer.None? || IsBlank(answer.value) then s
    else
      var name := answer.value;
      var sent := SystemSent(s, RenamedText(s.username, name), now);
      var unsubscribed := sent.(subscriptions := sent.subscriptions - {sent.personalTopic});
      var renamed := unsubscribed.(username := name, personalTopic := PersonalTopic(name));
      renamed.(subscriptions := renamed.subscriptions + {renamed.personalTopic})
  }

  /**
   * `add_user`: a missing or blank answer changes nothing. Otherwise a
   * notice goes out on the chat topic, the private invitation goes to the
   * guest's personal topic, and a copy is stored under the guest's name.
   */
  function Invited(s: State, answer: Option<string>, now: string, stamp: string): (r: State)
    ensures answer.None? || IsBlank(answer.value) ==> r == s
    ensures answer.Some? && !IsBlank(answer.value) ==>
      var guest := answer.value;
      && r.published == s.published + [Publish(s.chatTopic, SystemNotice(InvitedText(s.username, guest), now)),
                                       Publish(PersonalTopic(guest), InvitePayload(s.username, s.chatroom, stamp))]
      && Pending(r.invitations, guest) == Pending(s.invitations, guest) + [Invitation(s.username, s.chatroom, stamp)]
      && (forall u :: u != guest ==> Pending(r.invitations, u) == Pending(s.invitations, u))
      && r.(published := s.published, invitations := s.invitations) == s
  {
    if answer.None? || IsBlank(answer.value) then s
    else
      var guest := answer.value;
      var sent := SystemSent(s, InvitedText(s.username, guest), now);
      sent.(published := sent.published + [Publish(PersonalTopic(guest), InvitePayload(s.username, s.chatroom, stamp))],
            invitations := Stored(s.invitations, guest, Invitation(s.username, s.chatroom, stamp)))
  }

  /** `set_color`: the new colour is used from now on, and a notice names it. */
  function Recoloured(s: State, colour: string, colourName: string, now: string): (r: State)
    ensures r.colour == colour
    ensures r.published == s.published + [Publish(s.chatTopic, SystemNotice(RecolouredText(s.username, colourName), now))]
    ensures r.(colour := s.colour, published := s.published) == s
  {
    SystemSent(s, RecolouredText(s.username, colourName), now).(colour := colour)
  }

  /** `on_closing`: "has left" on the chat topic, then the window is gone. */
  function ShutDown(s: State, now: string): (r: State)
    ensures r.closed
    ensures r.published == s.published + [Publish(s.chatTopic, SystemNotice(LeftText(s.username), now))]
    ensures r.(published := s.published, closed := s.closed) == s
  {
    SystemSent(s, LeftText(s.username), now).(closed := true)
  }

  /**
   * `send_message`: the entry is stripped; a blank entry does nothing,
   * `/exit` in any letter case closes instead of publishing, and anything
   * else goes out on the chat topic with the name, time and colour.
   */
  function Sent(s: State, entry: string, now: string): (r: State)
    ensures IsBlank(entry) ==> r == s
    ensures !IsBlank(entry) && IsExitCommand(Strip(entry)) ==> r == ShutDown(s, now)
    ensures !IsBlank(entry) && !IsExitCommand(Strip(entry)) ==>
      r == s.(published := s.published + [Publish(s.chatTopic, ColouredChat(s.username, Strip(entry), now, s.colour))])
  {
    var message := Strip(entry);
    if message == [] then s
    else if IsExitCommand(message) then ShutDown(s, now)
    else s.(published := s.published + [Publish(s.chatTopic, ColouredChat(s.username, message, now, s.colour))])
  }

  /** `join_chatroom`: joining the room you are in changes nothing; any other room is switched to. */
  function JoinedFromList(s: State, room: string, now: string): (r: State)
    requires Valid(s)
    ensures room == s.chatroom ==> r == s
    ensures room != s.chatroom ==> r == ChangedRoom(s, room, false, now)
  {
    if room == s.chatroom then s else ChangedRoom(s, room, false, now)
  }

  /**
   * `add_new_chatroom`: a missing or blank name does nothing; otherwise the
   * room joins the history, and the user is moved there when they said yes.
   */
  function RoomAdded(s: State, answer: Option<string>, join: bool, now: string): (r: State)
    requires Valid(s)
    ensures Valid(r)
    ensures answer.None? || IsBlank(answer.value) ==> r == s
    ensures answer.Some? && !IsBlank(answer.value) ==>
      && answer.value in r.rooms
      && r.chatroom == (if join then answer.value else s.chatroom)
    ensures answer.Some? && !IsBlank(answer.value) && !join ==>
      var name := answer.value;
      && r.rooms == Added(s.rooms, name)
      && r.roomStore == (if name in s.rooms then s.roomStore else s.roomStore[s.username := r.rooms])
      && r.(rooms := s.rooms, roomStore := s.roomStore) == s
    ensures answer.Some? && !IsBlank(answer.value) && join ==> r == ChangedRoom(s, answer.value, false, now)
  {
    if answer.None? || IsBlank(answer.value) then s
    else
      var recorded := HistoryAdded(s, answer.value);
      if join then ChangedRoom(recorded, answer.value, false, now) else recorded
  }

  /**
   * `confirm_remove_chatroom`: the current room is never removed; another
   * room is removed only when the user confirms. The user stays where they
   * are, and the current room stays in the history.
   */
  function RemovalConfirmed(s: State, room: string, confirm: bool): (r: State)
    ensures r.chatroom == s.chatroom
    ensures s.chatroom in s.rooms ==> s.chatroom in r.rooms
    ensures room == s.chatroom || !confirm ==> r == s
    ensures room != s.chatroom && confirm ==> r == HistoryRemoved(s, room)
  {
    if room == s.chatroom then s
    else if confirm then
      HistoryRemoved(s, room)
    else s
  }

  /**
   * `handle_personal_invitation`: when the user accepts, they move to the
   * invited room; accepted or declined, every stored copy of the
   * invitation (same room, same sender) is removed from the user's list,
   * and no other user's list changes.
   */
  function PersonalHandled(s: State, from: Json, room: Json, accept: bool, now: string): (r: State)
    requires Valid(s)
    ensures Valid(r) && r.username == s.username && r.personalTopic == s.personalTopic
    ensures from.JString? && room.JString? ==>
      && (forall x :: x in Pending(r.invitations, s.username) ==> !Matches(x, room.s, from.s))
      && Pending(r.invitations, s.username) == WithoutMatches(Pending(s.invitations, s.username), room.s, from.s)
    ensures !(from.JString? && room.JString?) ==> r.invitations == s.invitations
    ensures forall u :: u != s.username ==> Pending(r.invitations, u) == Pending(s.invitations, u)
    ensures r.chatroom == (if accept && room.JString? then room.s else s.chatroom)
    ensures accept && room.JString? ==> r.(invitations := s.invitations) == ChangedRoom(s, room.s, true, now)
    ensures !(accept && room.JString?) ==> r.(invitations := s.invitations) == s
    ensures forall e :: e in r.display && e.Shown? ==> e in s.display
  {
    var moved := if accept && room.JString? then ChangedRoom(s, room.s, true, now) else s;
    if from.JString? && room.JString? then
      moved.(invitations := Resolved(moved.invitations, s.username, room.s, from.s))
    else
      moved
  }

  /**
   * `on_message`: a private invitation is handled and never rendered; a
   * chat line may first move the user to an invited room (only when
   * addressed to them and accepted), then is rendered as the newest line;
   * a payload that makes the handler raise changes nothing. The name and
   * personal topic never change here.
   */
  function Received(s: State, topic: string, payload: Option<Json>, accept: bool, now: string): (r: State)
    requires Valid(s)
    ensures Valid(r) && r.username == s.username && r.personalTopic == s.personalTopic
    ensures r.chatroom != s.chatroom ==> accept
    ensures IsPersonalInvitation(s.personalTopic, topic, payload) ==>
      forall e :: e in r.display && e.Shown? ==> e in s.display
    ensures var route := Classify(s.personalTopic, s.username, topic, payload);
      route.Drop? ==> r == s
    ensures var route := Classify(s.personalTopic, s.username, topic, payload);
      route.Deliver? && route.line.Some? ==> r.display != [] && r.display[|r.display| - 1] == Shown(route.line.value)
    ensures var route := Classify(s.personalTopic, s.username, topic, payload);
      route.Deliver? ==> r.invitations == s.invitations
    ensures var route := Classify(s.personalTopic, s.username, topic, payload);
      route.Personal? ==> r == PersonalHandled(s, route.from, route.chatroom, accept, now)
    ensures var route := Classify(s.personalTopic, s.username, topic, payload);
      route.Personal? && route.from.JString? && route.chatroom.JString? ==>
        Pending(r.invitations, s.username) == WithoutMatches(Pending(s.invitations, s.username), route.chatroom.s, route.from.s)
    ensures var route := Classify(s.personalTopic, s.username, topic, payload);
      route.Deliver? ==> r == Delivered(s, route.prompt, route.line, accept, now)
    ensures var route := Classify(s.personalTopic, s.username, topic, payload);
      route.Deliver? && route.prompt.Some? && accept ==> r.chatroom == route.prompt.value
    ensures var route := Classify(s.personalTopic, s.username, topic, payload);
      route.Personal? && route.chatroom.JString? && accept ==> r.chatroom == route.chatroom.s
    ensures var route := Classify(s.personalTopic, s.username, topic, payload);
      route.Deliver? && (route.prompt.None? || !accept) ==>
        r == s.(display := s.display + (if route.line.Some? then [Shown(route.line.value)] else []))
  {
    var route := Classify(s.personalTopic, s.username, topic, payload);
    if route.Drop? then s
    else if route.Personal? then PersonalHandled(s, route.from, route.chatroom, accept, now)
    else Delivered(s, route.prompt, route.line, accept, now)
  }

  /**
   * A chat line reaching `on_message`: the user first moves to the invited
   * room when prompted and they accept, then the line, if it could be
   * tagged, is appended to the display.
   */
  function Delivered(s: State, prompt: Option<string>, line: Option<Line>, accept: bool, now: string): (r: State)
    requires Valid(s)
    ensures Valid(r) && r.username == s.username && r.personalTopic == s.personalTopic
    ensures r.invitations == s.invitations
    ensures r.chatroom == if prompt.Some? && accept then prompt.value else s.chatroom
    ensures line.Some? ==> r.display != [] && r.display[|r.display| - 1] == Shown(line.value)
    ensures prompt.None? || !accept ==> r == s.(display := s.display + (if line.Some? then [Shown(line.value)] else []))
    ensures prompt.Some? && accept ==>
      && r.(display := []) == ChangedRoom(s, prompt.value, true, now).(display := [])
      && r.display == [Banner(JoinBanner(prompt.value, true))] + (if line.Some? then [Shown(line.value)] else [])
  {
    var moved := if prompt.Some? && accept then ChangedRoom(s, prompt.value, true, now) else s;
    if line.Some? then moved.(display := moved.display + [Shown(line.value)]) else moved
  }

  /**
   * `close_and_save` (corrected): the owner's current list loses the
   * invitations the window accepted or declined and keeps everything else.
   */
  function ReviewClosed(s: State, owner: string, invs: seq<Invitation>, processed: seq<int>): (r: State)
    ensures Pending(r.invitations, owner) == WithoutProcessed(Pending(s.invitations, owner), invs, processed)
    ensures forall x :: x in Pending(r.invitations, owner) <==>
      x in Pending(s.invitations, owner) && !WasProcessed(x, invs, processed)
    ensures forall u :: u != owner ==> Pending(r.invitations, u) == Pending(s.invitations, u)
    ensures r.(invitations := s.invitations) == s
  {
    s.(invitations := AfterReview(s.invitations, owner, invs, processed))
  }

  /** Switching rooms keeps exactly the two derived topics subscribed, unless the old room aliased the personal topic. */
  lemma ChangedRoomStaysSubscribed(s: State, room: string, viaInvitation: bool, now: string)
    requires Valid(s) && Subscribed(s) && s.chatTopic != s.personalTopic
    ensures Subscribed(ChangedRoom(s, room, viaInvitation, now))
  {
    var r := ChangedRoom(s, room, viaInvitation, now);
    assert s.subscriptions - {s.chatTopic} == {s.personalTopic};
  }

  /** Renaming keeps exactly the two derived topics subscribed, unless the room aliased the old personal topic. */
  lemma RenamedStaysSubscribed(s: State, answer: Option<string>, now: string)
    requires Valid(s) && Subscribed(s) && s.chatTopic != s.personalTopic
    ensures Subscribed(Renamed(s, answer, now))
  {
    if answer.Some? && !IsBlank(answer.value) {
      assert s.subscriptions - {s.personalTopic} == {s.chatTopic};
    }
  }

  /**
   * alice sitting in the room "invites/alice" shares her chat topic with her
   * personal topic; leaving that room unsubscribes her personal topic too.
   */
  lemma AliasedRoomLosesPersonalTopic()
    ensures var s := Started("alice", "invites/alice", Palette[0], true, "10:00:00", map[], map[]);
      && s.chatTopic == s.personalTopic
      && ChangedRoom(s, "lobby", false, "10:01:00").subscriptions == {ChatTopic("lobby")}
  {
    var s := Started("alice", "invites/alice", Palette[0], true, "10:00:00", map[], map[]);
    TopicsCollide("invites/alice", "alice");
    assert s.subscriptions == {s.chatTopic};
  }

  /** Joining a room that is already in the history leaves the history as it was. */
  lemma RevisitKeepsHistory(s: State, room: string, viaInvitation: bool, now: string)
    requires Valid(s) && room in s.rooms
    ensures ChangedRoom(s, room, viaInvitation, now).rooms == s.rooms
  {
  }

  /**
   * Accepting a private invitation received live moves the user to its room,
   * and the stored copy of the same invitation is gone afterwards.
   */
  lemma LiveInvitationAccepted(s: State, from: string, room: string, stamp: string, now: string)
    requires Valid(s)
    ensures var r := Received(s, s.personalTopic, Some(InvitePayload(from, room, stamp)), true, now);
      && r.chatroom == room
      && forall x :: x in Pending(r.invitations, s.username) ==> !Matches(x, room, from)
  {
    InvitationDelivered(s.username, from, room, stamp);
  }

  /** Declining a live private invitation keeps the user where they are, yet still resolves its stored copies. */
  lemma LiveInvitationDeclined(s: State, from: string, room: string, stamp: string, now: string)
    requires Valid(s)
    ensures var r := Received(s, s.personalTopic, Some(InvitePayload(from, room, stamp)), false, now);
      && r.chatroom == s.chatroom
      && Pending(r.invitations, s.username) == WithoutMatches(Pending(s.invitations, s.username), room, from)
  {
    InvitationDelivered(s.username, from, room, stamp);
  }
}
