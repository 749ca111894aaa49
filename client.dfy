/**
 * The multi-room client as the object it is: a `ChatApp` whose fields the
 * handlers reassign one step at a time, and the review window for stored
 * invitations. Every method's new state is the corresponding transition of
 * module `Session` applied to the old state.
 */
module Client {

  import opened Text
  import opened Wire
  import opened Topics
  import opened History
  import opened Invitations
  import opened Router
  import opened Session

  class ChatApp {
    var username: string
    var chatroom: string
    var chatTopic: string
    var personalTopic: string
    var colour: string
    /** Topics subscribed at the broker. */
    var subscriptions: set<string>
    /** Everything published, oldest first. */
    var published: seq<Publish>
    /** `user_chatrooms`. */
    var rooms: seq<string>
    /** The chatroom file: one history per username. */
    var roomStore: map<string, seq<string>>
    /** The invitations file. */
    var invitations: Store
    var display: seq<Entry>
    /** The main window was destroyed. */
    var closed: bool

    /** The object's state as a value. */
    function Snapshot(): State
      reads this
    {
      State(username, chatroom, chatTopic, personalTopic, colour, subscriptions, published,
            rooms, roomStore, invitations, display, closed)
    }

    /** Both topics derive from the current room and name. */
    predicate Valid()
      reads this
    {
      Session.Valid(Snapshot())
    }

    /**
     * `__init__` once both dialogs were answered: topics set up, connected
     * (subscribe both topics, announce the join) or the window destroyed,
     * then the history loaded and the starting room added.
     */
    constructor (user: string, room: string, initialColour: string, reachable: bool, now: string,
                 roomFile: map<string, seq<string>>, inviteFile: Store)
      requires user != "" && room != ""
      requires initialColour in Palette
      ensures Valid()
      ensures Snapshot() == Started(user, room, initialColour, reachable, now, roomFile, inviteFile)
    {
      username, chatroom := user, room;
      colour := initialColour;
      personalTopic := PersonalTopic(user);
      chatTopic := ChatTopic(room);
      subscriptions, published, display, closed := {}, [], [], false;
      invitations := inviteFile;
      roomStore := roomFile;
      rooms := [];
      new;
      if reachable {
        subscriptions := subscriptions + {chatTopic};
        subscriptions := subscriptions + {personalTopic};
        SendSystemMessage(JoinedText(username, false), now);
      } else {
        closed := true;
      }
      rooms := Load(roomStore, username);
      ghost var chat, personal := ChatTopic(room), PersonalTopic(user);
      assert Snapshot() == State(user, room, chat, personal, initialColour,
                                 if reachable then {chat, personal} else {},
                                 if reachable then [Publish(chat, SystemNotice(JoinedText(user, false), now))] else [],
                                 Load(roomFile, user), roomFile, inviteFile, [], !reachable);
      AddChatroomToHistory(chatroom);
    }

    /** `send_system_message`. */
    method SendSystemMessage(text: string, now: string)
      modifies this`published
      ensures Snapshot() == SystemSent(old(Snapshot()), text, now)
    {
      published := published + [Publish(chatTopic, SystemNotice(text, now))];
    }

    /** `add_chatroom_to_history`: append when absent, then save. */
    method AddChatroomToHistory(room: string)
      modifies this`rooms, this`roomStore
      ensures Snapshot() == HistoryAdded(old(Snapshot()), room)
    {
      if room !in rooms {
        rooms := rooms + [room];
        roomStore := roomStore[username := rooms];
      }
    }

    /** `remove_chatroom_from_history`: `list.remove` when present, then save. */
    method RemoveChatroomFromHistory(room: string)
      modifies this`rooms, this`roomStore
      ensures Snapshot() == HistoryRemoved(old(Snapshot()), room)
    {
      if room in rooms {
        rooms := Removed(rooms, room);
        roomStore := roomStore[username := rooms];
      }
    }

    /** `change_to_chatroom`. */
    method ChangeToChatroom(room: string, viaInvitation: bool, now: string)
      requires Valid()
      modifies this
      ensures Valid()
      ensures Snapshot() == ChangedRoom(old(Snapshot()), room, viaInvitation, now)
    {
      ghost var s := Snapshot();
      SendSystemMessage(LeftText(username), now);
      ghost var left := Snapshot();
      subscriptions := subscriptions - {chatTopic};
      chatroom := room;
      chatTopic := ChatTopic(chatroom);
      subscriptions := subscriptions + {chatTopic};
      ghost var subscribed := Snapshot();
      assert subscribed == left.(subscriptions := left.subscriptions - {left.chatTopic} + {ChatTopic(room)},
                                 chatroom := room, chatTopic := ChatTopic(room));
      AddChatroomToHistory(room);
      SendSystemMessage(JoinedText(username, viaInvitation), now);
      display := [Banner(JoinBanner(chatroom, viaInvitation))];
    }

    /** `join_chatroom`: the manager's join button. */
    method JoinChatroom(room: string, now: string)
      requires Valid()
      modifies this
      ensures Valid()
      ensures Snapshot() == JoinedFromList(old(Snapshot()), room, now)
    {
      if room == chatroom {
        return;
      }
      ChangeToChatroom(room, false, now);
    }

    /** `add_new_chatroom`: `answer` is the dialog's answer, `join` the yes/no reply. */
    method AddNewChatroom(answer: Option<string>, join: bool, now: string)
      requires Valid()
      modifies this
      ensures Valid()
      ensures Snapshot() == RoomAdded(old(Snapshot()), answer, join, now)
    {
      if answer.None? || IsBlank(answer.value) {
        return;
      }
      AddChatroomToHistory(answer.value);
      if join {
        ChangeToChatroom(answer.value, false, now);
      }
    }

    /** `confirm_remove_chatroom`: `confirm` is the yes/no reply. */
    method ConfirmRemoveChatroom(room: string, confirm: bool)
      modifies this`rooms, this`roomStore
      ensures Snapshot() == RemovalConfirmed(old(Snapshot()), room, confirm)
    {
      if room == chatroom {
        return;
      }
      if confirm {
        RemoveChatroomFromHistory(room);
      }
    }

    /** `change_username`: `answer` is the dialog's answer. */
    method ChangeUsername(answer: Option<string>, now: string)
      requires Valid()
      modifies this`published, this`subscriptions, this`username, this`personalTopic
      ensures Valid()
      ensures Snapshot() == Renamed(old(Snapshot()), answer, now)
    {
      if answer.Some? && !IsBlank(answer.value) {
        var name := answer.value;
        SendSystemMessage(RenamedText(username, name), now);
        ghost var sent := Snapshot();
        subscriptions := subscriptions - {personalTopic};
        username := name;
        personalTopic := PersonalTopic(username);
        subscriptions := subscriptions + {personalTopic};
        assert Snapshot() == sent.(subscriptions := sent.subscriptions - {sent.personalTopic} + {PersonalTopic(name)},
                                   username := name, personalTopic := PersonalTopic(name));
      }
    }

    /** `store_invitation`: create the target's list when missing, then append. */
    method StoreInvitation(target: string, inv: Invitation)
      modifies this`invitations
      ensures invitations == Stored(old(invitations), target, inv)
    {
      if target !in invitations {
        invitations := invitations[target := []];
      }
      invitations := invitations[target := invitations[target] + [inv]];
    }

    /** `remove_stored_invitation`. */
    method RemoveStoredInvitation(user: string, room: string, from: string)
      modifies this`invitations
      ensures invitations == Resolved(old(invitations), user, room, from)
    {
      if user in invitations {
        invitations := invitations[user := WithoutMatches(invitations[user], room, from)];
      }
    }

    /** `add_user`: `answer` is the dialog's answer, `stamp` the invitation's date and time. */
    method AddUser(answer: Option<string>, now: string, stamp: string)
      modifies this`published, this`invitations
      ensures Snapshot() == Invited(old(Snapshot()), answer, now, stamp)
    {
      if answer.Some? && !IsBlank(answer.value) {
        var guest := answer.value;
        SendSystemMessage(InvitedText(username, guest), now);
        published := published + [Publish(PersonalTopic(guest), InvitePayload(username, chatroom, stamp))];
        StoreInvitation(guest, Invitation(username, chatroom, stamp));
      }
    }

    /** `set_color` with the colour chosen in the colour window. */
    method SetColour(code: string, colourName: string, now: string)
      modifies this`colour, this`published
      ensures Snapshot() == Recoloured(old(Snapshot()), code, colourName, now)
    {
      colour := code;
      SendSystemMessage(RecolouredText(username, colourName), now);
    }

    /** `on_closing`. */
    method OnClosing(now: string)
      modifies this`published, this`closed
      ensures Snapshot() == ShutDown(old(Snapshot()), now)
    {
      SendSystemMessage(LeftText(username), now);
      closed := true;
    }

    /** `send_message` with the entry field's text. */
    method SendMessage(entry: string, now: string)
      modifies this`published, this`closed
      ensures Snapshot() == Sent(old(Snapshot()), entry, now)
    {
      var message := Strip(entry);
      if message == [] {
        return;
      }
      if IsExitCommand(message) {
        OnClosing(now);
        return;
      }
      published := published + [Publish(chatTopic, ColouredChat(username, message, now, colour))];
    }

    /** `handle_personal_invitation`: `accept` is the yes/no reply. */
    method HandlePersonalInvitation(from: Json, room: Json, accept: bool, now: string)
      requires Valid()
      modifies this
      ensures Valid()
      ensures Snapshot() == PersonalHandled(old(Snapshot()), from, room, accept, now)
    {
      if accept && room.JString? {
        ChangeToChatroom(room.s, true, now);
      }
      if from.JString? && room.JString? {
        RemoveStoredInvitation(username, room.s, from.s);
      }
    }

    /**
     * `on_message` with the decoded payload (`None` when it does not
     * decode) and the reply to the prompt, should one be shown.
     */
    method OnMessage(topic: string, payload: Option<Json>, accept: bool, now: string)
      requires Valid()
      modifies this
      ensures Valid()
      ensures Snapshot() == Received(old(Snapshot()), topic, payload, accept, now)
    {
      var route := Classify(personalTopic, username, topic, payload);
      match route
      case Drop =>
      case Personal(from, room) =>
        HandlePersonalInvitation(from, room, accept, now);
      case Deliver(prompt, line) =>
        DeliverLine(prompt, line, accept, now);
    }

    /**
     * The chat-line branch of `on_message`: the move to an invited room
     * when prompted and accepted, then the rendered line, if any.
     */
    method DeliverLine(prompt: Option<string>, line: Option<Line>, accept: bool, now: string)
      requires Valid()
      modifies this
      ensures Valid()
      ensures Snapshot() == Delivered(old(Snapshot()), prompt, line, accept, now)
    {
      if prompt.Some? && accept {
        ChangeToChatroom(prompt.value, true, now);
      }
      if line.Some? {
        display := display + [Shown(line.value)];
      }
    }

    /** `check_pending_invitations`: a review window when the user has stored invitations. */
    method CheckPendingInvitations() returns (w: ReviewWindow?)
      ensures w == null <==> Pending(invitations, username) == []
      ensures w != null ==> fresh(w) && w.app == this && w.open && w.processed == []
                            && w.owner == username && w.invites == Pending(invitations, username)
    {
      if username !in invitations || invitations[username] == [] {
        return null;
      }
      w := new ReviewWindow(this, username, invitations[username]);
    }
  }

  /**
   * The pending-invitations window: the invitations shown, by index, and
   * `processed_invites`, the indices accepted or declined so far.
   */
  class ReviewWindow {
    const app: ChatApp
    const owner: string
    const invites: seq<Invitation>
    var processed: seq<int>
    var open: bool

    constructor (app: ChatApp, owner: string, invites: seq<Invitation>)
      ensures this.app == app && this.owner == owner && this.invites == invites
      ensures processed == [] && open
    {
      this.app, this.owner, this.invites := app, owner, invites;
      processed, open := [], true;
    }

    /** `accept_stored_invitation`: mark the index, then join the room via invitation. */
    method Accept(idx: int, now: string)
      requires open && 0 <= idx < |invites| && app.Valid()
      modifies this`processed, app
      ensures processed == old(processed) + [idx]
      ensures app.Valid()
      ensures app.Snapshot() == ChangedRoom(old(app.Snapshot()), invites[idx].chatroom, true, now)
    {
      processed := processed + [idx];
      app.ChangeToChatroom(invites[idx].chatroom, true, now);
    }

    /** `decline_stored_invitation`: only mark the index. */
    method Decline(idx: int)
      requires open && 0 <= idx < |invites|
      modifies this`processed
      ensures processed == old(processed) + [idx]
    {
      processed := processed + [idx];
    }

    /**
     * `close_and_save`, corrected: the owner's list in the current store
     * keeps only the invitations not accepted or declined.
     */
    method Close()
      requires open
      modifies this`open, app`invitations
      ensures !open
      ensures app.Snapshot() == ReviewClosed(old(app.Snapshot()), owner, invites, processed)
    {
      app.invitations := AfterReview(app.invitations, owner, invites, processed);
      open := false;
    }
  }
}
