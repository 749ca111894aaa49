/**
 * The earlier single-room client: one chat topic, a seven-colour palette
 * that includes white, and an echo filter that hides the payload carrying
 * the client's own name and the timestamp of its last sent message.
 */
module SingleRoom {

  import opened Text
  import opened Wire
  import opened Topics
  import Router

  /** `COLORS` in the dictionary's order: red, green, blue, yellow, magenta, cyan, white. */
  const Palette: seq<string> := ["#FF6B6B", "#4CAF50", "#2196F3", "#FFC107", "#E91E63", "#00BCD4", "#FFFFFF"]
  const White := "#FFFFFF"
  const SystemColour := "#FFC107"

  /** `sum(ord(c) for c in username) % len(color_names)`, white included. */
  function ColourIndex(name: string): (i: nat)
    ensures i < |Palette|
  {
    CodeSum(name) % |Palette|
  }

  /**
   * The tag `on_message` picks: "System" has the system tag, every other
   * name the tag `user_<name>` in the palette colour at its code-sum index.
   */
  function TagFor(name: string): (t: Router.Tag)
    ensures name == "System" ==> t == Router.Tag("system", SystemColour)
    ensures name != "System" ==> t == Router.Tag("user_" + name, Palette[ColourIndex(name)])
    ensures t.name == "system" <==> name == "System"
  {
    if name == "System" then Router.Tag("system", SystemColour)
    else
      var t := Router.Tag("user_" + name, Palette[ColourIndex(name)]);
      assert t.name[0] == 'u' != "system"[0];
      t
  }

  /** Different usernames never share a tag. */
  lemma TagNameInjective(a: string, b: string)
    requires TagFor(a).name == TagFor(b).name
    ensures a == b
  {
    if a != "System" && b != "System" {
      assert a == TagFor(a).name[5..];
      assert b == TagFor(b).name[5..];
    }
  }

  /** Unlike the multi-room client, this one can colour a name white: "a" has code sum 97, and 97 mod 7 is 6. */
  lemma WhiteName()
    ensures TagFor("a").colour == White
  {
    assert CodeSum("a") == 97 by {
      assert "a"[1..] == [];
    }
  }

  /** `d.get(key)` as a Python value: an absent key and JSON `null` both read as `None`. */
  function PyGet(d: map<string, Json>, key: string): (r: Option<Json>)
    ensures r.Some? ==> key in d && r.value == d[key] && r.value != JNull
    ensures r.None? ==> key !in d || d[key] == JNull
  {
    if key in d && d[key] != JNull then Some(d[key]) else None
  }

  /** `last_sent_timestamp`, or `None` before anything was sent. */
  function LastSentValue(lastSent: Option<string>): Option<Json> {
    if lastSent.Some? then Some(JString(lastSent.value)) else None
  }

  /** The skip test: the payload's username is mine and its timestamp is that of my last sent message. */
  predicate IsOwnEcho(p: map<string, Json>, me: string, lastSent: Option<string>)
    ensures IsOwnEcho(p, me, lastSent) <==>
      && "username" in p && p["username"] == JString(me)
      && (if lastSent.Some? then "timestamp" in p && p["timestamp"] == JString(lastSent.value)
          else "timestamp" !in p || p["timestamp"] == JNull)
  {
    PyGet(p, "username") == Some(JString(me)) && PyGet(p, "timestamp") == LastSentValue(lastSent)
  }

  /**
   * `on_message` of the single-room client: the line it renders, if any. A
   * payload is rendered exactly when it decodes to an object that is not
   * my own echo and whose username (or its default) is a string; the
   * rendered line takes the payload's fields or the defaults.
   */
  function Classify(me: string, lastSent: Option<string>, payload: Option<Json>): (r: Option<Router.Line>)
    ensures r.Some? <==>
      && payload.Some? && payload.value.JObject?
      && !IsOwnEcho(payload.value.fields, me, lastSent)
      && GetOr(payload.value.fields, "username", JString("unknown user")).JString?
    ensures r.Some? ==>
      var p := payload.value.fields;
      && r.value.timestamp == GetOr(p, "timestamp", JString("unknown time"))
      && JString(r.value.username) == GetOr(p, "username", JString("unknown user"))
      && r.value.message == GetOr(p, "message", JString(""))
      && r.value.tag == TagFor(r.value.username)
  {
    if payload.None? || !payload.value.JObject? then None
    else
      var p := payload.value.fields;
      if IsOwnEcho(p, me, lastSent) then None
      else
        var timestamp := GetOr(p, "timestamp", JString("unknown time"));
        var username := GetOr(p, "username", JString("unknown user"));
        var message := GetOr(p, "message", JString(""));
        if username.JString? then Some(Router.Line(timestamp, username.s, message, TagFor(username.s)))
        else None
  }

  /** The echo of the message just sent is hidden. */
  lemma EchoOfLastSendHidden(me: string, message: string, now: string)
    ensures Classify(me, Some(now), Some(PlainChat(me, message, now))) == None
  {
  }

  /** Another user's message sent in the same second is shown. */
  lemma SameSecondOtherUserShown(me: string, other: string, message: string, now: string)
    requires other != me
    ensures Classify(me, Some(now), Some(PlainChat(other, message, now)))
         == Some(Router.Line(JString(now), other, JString(message), TagFor(other)))
  {
  }

  /** The echo of an earlier message of mine, arriving after I sent a newer one, is shown. */
  lemma EarlierOwnEchoShown(me: string, message: string, sentThen: string, sentLast: string)
    requires sentThen != sentLast
    ensures Classify(me, Some(sentLast), Some(PlainChat(me, message, sentThen))).Some?
  {
  }

  /** Before anything was sent, a payload with my name and no timestamp matches the unset timestamp and is hidden. */
  lemma UntimedOwnPayloadHidden(me: string, message: string)
    ensures Classify(me, None, Some(JObject(map["username" := JString(me), "message" := JString(message)]))) == None
  {
  }

  /** An empty object is shown with every default. */
  lemma DefaultsFilled(me: string, lastSent: Option<string>)
    ensures Classify(me, lastSent, Some(JObject(map[])))
         == Some(Router.Line(JString("unknown time"), "unknown user", JString(""), TagFor("unknown user")))
  {
  }

  /** The single-room client: its topic, the broker, the last send time and the display. */
  class ChatApp {
    const username: string
    const chatroom: string
    /** Set only once the broker connection succeeded. */
    var chatTopic: Option<string>
    var subscriptions: set<string>
    var published: seq<Publish>
    /** `last_sent_timestamp`: absent until the first message is sent. */
    var lastSent: Option<string>
    var display: seq<Router.Line>
    /** The window was destroyed. */
    var closed: bool

    /**
     * `__init__` once both dialogs were answered: on connecting, the chat
     * topic `jack-chat/<room>` is set and subscribed, and "has joined" from
     * "System" is published on it; otherwise the window is destroyed.
     */
    constructor (user: string, room: string, reachable: bool, now: string)
      requires user != "" && room != ""
      ensures username == user && chatroom == room && lastSent == None && display == []
      ensures reachable ==>
        && !closed && chatTopic == Some(ChatTopic(room)) && subscriptions == {ChatTopic(room)}
        && published == [Publish(ChatTopic(room), SystemNotice(user + " has joined the chat", now))]
      ensures !reachable ==> closed && chatTopic == None && subscriptions == {} && published == []
    {
      username, chatroom := user, room;
      chatTopic, subscriptions, published := None, {}, [];
      lastSent, display, closed := None, [], false;
      new;
      ConnectToMqtt(reachable, now);
    }

    /** `connect_to_mqtt`. */
    method ConnectToMqtt(reachable: bool, now: string)
      modifies this`chatTopic, this`subscriptions, this`published, this`closed
      ensures reachable ==>
        && chatTopic == Some(ChatTopic(chatroom)) && subscriptions == old(subscriptions) + {ChatTopic(chatroom)}
        && published == old(published) + [Publish(ChatTopic(chatroom), SystemNotice(username + " has joined the chat", now))]
        && closed == old(closed)
      ensures !reachable ==> closed && unchanged(this`chatTopic, this`subscriptions, this`published)
    {
      if !reachable {
        closed := true;
        return;
      }
      chatTopic := Some(ChatTopic(chatroom));
      subscriptions := subscriptions + {chatTopic.value};
      published := published + [Publish(chatTopic.value, SystemNotice(username + " has joined the chat", now))];
    }

    /** `on_message` with the decoded payload (`None` when it does not decode). */
    method OnMessage(payload: Option<Json>)
      modifies this`display
      ensures var line := Classify(username, lastSent, payload);
        display == old(display) + (if line.Some? then [line.value] else [])
    {
      var line := Classify(username, lastSent, payload);
      if line.Some? {
        display := display + [line.value];
      }
    }

    /**
     * `on_closing`: "has left" from "System" on the chat topic (when there
     * is one), then the window is destroyed.
     */
    method OnClosing(now: string)
      modifies this`published, this`closed
      ensures closed
      ensures published == old(published) +
        (if chatTopic.Some? then [Publish(chatTopic.value, SystemNotice(username + " has left the chat", now))] else [])
    {
      if chatTopic.Some? {
        published := published + [Publish(chatTopic.value, SystemNotice(username + " has left the chat", now))];
      }
      closed := true;
    }

    /**
     * `send_message` with the entry field's text: a blank entry does
     * nothing, `/exit` in any letter case closes, anything else records its
     * timestamp as the last sent one and goes out on the chat topic.
     */
    method SendMessage(entry: string, now: string)
      modifies this`published, this`lastSent, this`closed
      ensures IsBlank(entry) ==> unchanged(this`published, this`lastSent, this`closed)
      ensures !IsBlank(entry) && IsExitCommand(Strip(entry)) ==>
        && closed && lastSent == old(lastSent)
        && published == old(published) +
             (if chatTopic.Some? then [Publish(chatTopic.value, SystemNotice(username + " has left the chat", now))] else [])
      ensures !IsBlank(entry) && !IsExitCommand(Strip(entry)) ==>
        && lastSent == Some(now) && closed == old(closed)
        && published == old(published) +
             (if chatTopic.Some? then [Publish(chatTopic.value, PlainChat(username, Strip(entry), now))] else [])
    {
      var message := Strip(entry);
      if message == [] {
        return;
      }
      if IsExitCommand(message) {
        OnClosing(now);
        return;
      }
      lastSent := Some(now);
      if chatTopic.Some? {
        published := published + [Publish(chatTopic.value, PlainChat(username, message, now))];
      }
    }
  }

  /**
   * A message sent and then received back before anything else is sent
   * leaves the display as it was: the sender never sees their own line.
   */
  method SendThenReceiveOwnEcho(app: ChatApp, text: string, now: string)
    requires app.chatTopic.Some? && !IsBlank(text) && !IsExitCommand(Strip(text))
    modifies app
    ensures app.display == old(app.display) && app.chatTopic == old(app.chatTopic)
    ensures app.published == old(app.published) + [Publish(app.chatTopic.value, PlainChat(app.username, Strip(text), now))]
  {
    app.SendMessage(text, now);
    app.OnMessage(Some(PlainChat(app.username, Strip(text), now)));
  }
}
