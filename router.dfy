/**
 * The multi-room client's inbound side: the display tag and colour derived
 * from a username, and the classification of every payload that arrives on
 * a subscribed topic.
 */
module Router {

  import opened Text
  import opened Wire

  /** A display tag: its name and the foreground colour configured for it. */
  datatype Tag = Tag(name: string, colour: string)

  /** `COLORS` without "white", in the dictionary's order. */
  const Palette: seq<string> := ["#FF6B6B", "#4AFF65", "#63B8FF", "#FFF07C", "#FF5DC8", "#00FFFF"]
  const White := "#FFFFFF"
  const SystemColour := "#FFC107"

  /** `sum(ord(c) for c in username) % len(color_names)`. */
  function ColourIndex(name: string): (i: nat)
    ensures i < |Palette|
  {
    CodeSum(name) % |Palette|
  }

  /**
   * `get_tag_for_username`: "System" has the system tag, "jack" and "bob"
   * have fixed colours under their own names, and every other name gets the
   * tag `user_<name>` with the palette colour at its code-sum index.
   */
  function TagFor(name: string): (t: Tag)
    ensures name == "System" ==> t == Tag("system", SystemColour)
    ensures name == "jack" ==> t == Tag("jack", "#FF0000")
    ensures name == "bob" ==> t == Tag("bob", "#008000")
    ensures name !in ["System", "jack", "bob"] ==> t == Tag("user_" + name, Palette[ColourIndex(name)])
    ensures t.colour != White
  {
    if name == "System" then Tag("system", SystemColour)
    else if name == "jack" then Tag("jack", "#FF0000")
    else if name == "bob" then Tag("bob", "#008000")
    else Tag("user_" + name, Palette[ColourIndex(name)])
  }

  /** Different usernames never share a tag, so restyling one user's tag never restyles another's. */
  lemma TagNameInjective(a: string, b: string)
    requires TagFor(a).name == TagFor(b).name
    ensures a == b
  {
    var special := ["System", "jack", "bob"];
    if a !in special && b !in special {
      assert a == TagFor(a).name[5..];
      assert b == TagFor(b).name[5..];
    } else if a in special && b !in special {
      UserTagNotSpecial(b, a);
    } else if a !in special && b in special {
      UserTagNotSpecial(a, b);
    }
  }

  /** A `user_` tag never equals the tag of "System", "jack" or "bob". */
  lemma UserTagNotSpecial(ordinary: string, special: string)
    requires ordinary !in ["System", "jack", "bob"] && special in ["System", "jack", "bob"]
    ensures TagFor(ordinary).name != TagFor(special).name
  {
    var u := TagFor(ordinary).name;
    assert u[..5] == "user_";
    if special == "System" {
      assert TagFor(special).name[0] == 's' != u[0];
    } else if special == "jack" {
      assert TagFor(special).name[0] == 'j' != u[0];
    } else {
      assert TagFor(special).name[0] == 'b' != u[0];
    }
  }

  /** Usernames made of the same characters get the same colour. */
  lemma AnagramsShareColour(a: string, b: string)
    requires multiset(a) == multiset(b)
    requires a !in ["System", "jack", "bob"] && b !in ["System", "jack", "bob"]
    ensures TagFor(a).colour == TagFor(b).colour
  {
    CodeSumAnagram(a, b);
  }

  /** One line handed to the display: timestamp, sender, text and the sender's tag. */
  datatype Line = Line(timestamp: Json, username: string, message: Json, tag: Tag)

  /**
   * What `on_message` does with one payload:
   * `Drop` — it raised before doing anything (undecodable payload, a payload
   * that is not an object, an embedded invitation that is not an object or
   * has no room); `Personal` — a private invitation, handed to
   * `handle_personal_invitation` with its sender and room (or their
   * defaults); `Deliver` — a chat line, with the room of an embedded
   * invitation to prompt for, and the line to render unless computing the
   * tag raised.
   */
  datatype Route =
    | Drop
    | Personal(from: Json, chatroom: Json)
    | Deliver(prompt: Option<string>, line: Option<Line>)

  /** A private invitation: on my personal topic, with `type` equal to "invitation". */
  predicate IsPersonalInvitation(personalTopic: string, topic: string, payload: Option<Json>) {
    && topic == personalTopic
    && payload.Some? && payload.value.JObject?
    && Get(payload.value.fields, "type") == Some(JString("invitation"))
  }

  /** The payload carries an invitation object whose `to` is me. */
  predicate InvitesMe(p: map<string, Json>, me: string) {
    && "invitation" in p && p["invitation"].JObject?
    && Get(p["invitation"].fields, "to") == Some(JString(me))
  }

  /**
   * The embedded-invitation check: `None` when it raises (the `invitation`
   * value is not an object, or it invites me and has no `chatroom`),
   * otherwise the room to prompt for, if any.
   */
  function EmbeddedPrompt(p: map<string, Json>, me: string): (r: Option<Option<string>>)
    ensures r.None? <==>
      "invitation" in p && (!p["invitation"].JObject? || (InvitesMe(p, me) && "chatroom" !in p["invitation"].fields))
    ensures r.Some? && r.value.Some? ==>
      InvitesMe(p, me) && p["invitation"].fields["chatroom"] == JString(r.value.value)
    ensures InvitesMe(p, me) && "chatroom" in p["invitation"].fields && p["invitation"].fields["chatroom"].JString? ==>
      r == Some(Some(p["invitation"].fields["chatroom"].s))
  {
    if "invitation" !in p then Some(None)
    else if !p["invitation"].JObject? then None
    else
      var inv := p["invitation"].fields;
      if Get(inv, "to") != Some(JString(me)) then Some(None)
      else if "chatroom" !in inv then None
      else if inv["chatroom"].JString? then Some(Some(inv["chatroom"].s))
      else Some(None)
  }

  /**
   * `on_message` of the multi-room client, as a decision. A payload is a
   * personal invitation exactly when it is an object on my personal topic
   * whose `type` is "invitation"; then nothing is rendered. Otherwise a
   * prompt is raised only for an embedded invitation addressed to me, and
   * every rendered line takes the payload's fields or the defaults
   * "unknown time", "unknown user" and "".
   */
  function Classify(personalTopic: string, me: string, topic: string, payload: Option<Json>): (r: Route)
    ensures r.Personal? <==> IsPersonalInvitation(personalTopic, topic, payload)
    ensures r.Drop? <==>
      || payload.None? || !payload.value.JObject?
      || (!IsPersonalInvitation(personalTopic, topic, payload) && EmbeddedPrompt(payload.value.fields, me).None?)
    ensures r.Deliver? ==>
      && r.prompt == EmbeddedPrompt(payload.value.fields, me).value
      && (r.line.Some? <==> GetOr(payload.value.fields, "username", JString("unknown user")).JString?)
    ensures r.Deliver? ==> payload.Some? && payload.value.JObject?
    ensures r.Deliver? && r.prompt.Some? ==>
      && InvitesMe(payload.value.fields, me)
      && "chatroom" in payload.value.fields["invitation"].fields
      && payload.value.fields["invitation"].fields["chatroom"] == JString(r.prompt.value)
    ensures r.Deliver? && r.line.Some? ==>
      var p := payload.value.fields;
      && r.line.value.timestamp == GetOr(p, "timestamp", JString("unknown time"))
      && JString(r.line.value.username) == GetOr(p, "username", JString("unknown user"))
      && r.line.value.message == GetOr(p, "message", JString(""))
      && r.line.value.tag == TagFor(r.line.value.username)
  {
    if payload.None? || !payload.value.JObject? then Drop
    else
      var p := payload.value.fields;
      if IsPersonalInvitation(personalTopic, topic, payload) then
        Personal(GetOr(p, "from", JString("Someone")), GetOr(p, "chatroom", JString("unknown")))
      else
        var timestamp := GetOr(p, "timestamp", JString("unknown time"));
        var username := GetOr(p, "username", JString("unknown user"));
        var message := GetOr(p, "message", JString(""));
        match EmbeddedPrompt(p, me)
        case None => Drop
        case Some(prompt) =>
          if username.JString? then
            Deliver(prompt, Some(Line(timestamp, username.s, message, TagFor(username.s))))
          else
            Deliver(prompt, None)
  }

  /**
   * An object payload that is not a private invitation, whose username is a
   * string and whose embedded invitation (if any) is well formed, is always
   * rendered; the prompt appears exactly when the invitation is addressed
   * to me.
   */
  lemma ChatIsRendered(personalTopic: string, me: string, topic: string, p: map<string, Json>)
    requires !IsPersonalInvitation(personalTopic, topic, Some(JObject(p)))
    requires GetOr(p, "username", JString("unknown user")).JString?
    requires "invitation" in p ==> p["invitation"].JObject? && Get(p["invitation"].fields, "chatroom").Some?
                                   && p["invitation"].fields["chatroom"].JString?
    ensures var r := Classify(personalTopic, me, topic, Some(JObject(p)));
      && r.Deliver? && r.line.Some?
      && (r.prompt.Some? <==> InvitesMe(p, me))
  {
  }

  /**
   * A private invitation is handed over with its sender and room (or their
   * defaults) whatever else the payload carries, a message included.
   */
  lemma PersonalInvitationFirst(me: string, p: map<string, Json>)
    requires Get(p, "type") == Some(JString("invitation"))
    ensures var topic := "jack-chat/invites/" + me;
      Classify(topic, me, topic, Some(JObject(p)))
      == Personal(GetOr(p, "from", JString("Someone")), GetOr(p, "chatroom", JString("unknown")))
  {
  }

  /** bob's "hi" in alice's room renders as one line in bob's colour. */
  lemma ChatLineRendered()
    ensures Classify("jack-chat/invites/alice", "alice", "jack-chat/lobby",
              Some(JObject(map["username" := JString("bob"), "message" := JString("hi"),
                               "timestamp" := JString("10:00:00")])))
         == Deliver(None, Some(Line(JString("10:00:00"), "bob", JString("hi"), Tag("bob", "#008000"))))
  {
  }

  /** An invitation addressed to someone else is an ordinary chat line: no prompt. */
  lemma OthersInvitationNoPrompt()
    ensures var inv := JObject(map["to" := JString("carol"), "chatroom" := JString("den")]);
      Classify("jack-chat/invites/alice", "alice", "jack-chat/lobby",
        Some(JObject(map["username" := JString("bob"), "message" := JString("join us"),
                         "timestamp" := JString("10:00:00"), "invitation" := inv])))
      == Deliver(None, Some(Line(JString("10:00:00"), "bob", JString("join us"), Tag("bob", "#008000"))))
  {
  }

  /** A line carrying someone else's invitation without a room is still rendered, with no prompt. */
  lemma OthersRoomlessInvitationRendered()
    ensures Classify("jack-chat/invites/alice", "alice", "jack-chat/lobby",
        Some(JObject(map["username" := JString("bob"), "message" := JString("hi"),
                         "invitation" := JObject(map["to" := JString("carol")])])))
      == Deliver(None, Some(Line(JString("unknown time"), "bob", JString("hi"), Tag("bob", "#008000"))))
  {
  }

  /** An empty object renders with every default. */
  lemma DefaultsFilled(personalTopic: string, me: string, topic: string)
    ensures Classify(personalTopic, me, topic, Some(JObject(map[])))
         == Deliver(None, Some(Line(JString("unknown time"), "unknown user", JString(""), TagFor("unknown user"))))
  {
  }

  /** A system notice renders as a line from "System" with the system tag, on any topic. */
  lemma SystemNoticeRendered(personalTopic: string, me: string, topic: string, text: string, now: string)
    ensures Classify(personalTopic, me, topic, Some(SystemNotice(text, now)))
         == Deliver(None, Some(Line(JString(now), "System", JString(text), Tag("system", SystemColour))))
  {
  }

  /** The client's own chat line comes back as a line with its own text and its own tag. */
  lemma OwnChatRendered(personalTopic: string, me: string, topic: string, text: string, now: string, colour: string)
    ensures Classify(personalTopic, me, topic, Some(ColouredChat(me, text, now, colour)))
         == Deliver(None, Some(Line(JString(now), me, JString(text), TagFor(me))))
  {
  }

  /** An invitation sent by `add_user` reaches the invitee's router as a private invitation with its sender and room. */
  lemma InvitationDelivered(invitee: string, from: string, room: string, stamp: string)
    ensures var topic := "jack-chat/invites/" + invitee;
      Classify(topic, invitee, topic, Some(InvitePayload(from, room, stamp)))
      == Personal(JString(from), JString(room))
  {
    var p := InvitePayload(from, room, stamp).fields;
    assert Get(p, "type") == Some(JString("invitation"));
    assert GetOr(p, "from", JString("Someone")) == JString(from);
    assert GetOr(p, "chatroom", JString("unknown")) == JString(room);
    PersonalInvitationFirst(invitee, p);
  }
}
