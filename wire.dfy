/**
 * The broker's side of the client: decoded JSON payloads, the published
 * messages the client leaves behind, and the payloads it builds.
 */
module Wire {

  datatype Option<T> = None | Some(value: T)

  /**
   * A decoded JSON value as far as the client looks into it: strings,
   * objects, `null` (Python's `None`), and every other JSON value (numbers,
   * booleans, arrays).
   */
  datatype Json = JString(s: string) | JObject(fields: map<string, Json>) | JNull | JOther

  /** One `client.publish(topic, json.dumps(payload))`. */
  datatype Publish = Publish(topic: string, payload: Json)

  /** `d.get(key)`: the value, or `None` when the key is absent. */
  function Get(d: map<string, Json>, key: string): Option<Json> {
    if key in d then Some(d[key]) else None
  }

  /** `d.get(key, default)`. */
  function GetOr(d: map<string, Json>, key: string, default: Json): Json {
    if key in d then d[key] else default
  }

  /** The payload of a notice from "System" (join, leave, rename, invite, colour change). */
  function SystemNotice(text: string, now: string): Json {
    JObject(map["username" := JString("System"), "message" := JString(text), "timestamp" := JString(now)])
  }

  /** A chat line as the multi-room client sends it, with the sender's colour. */
  function ColouredChat(user: string, message: string, now: string, colour: string): Json {
    JObject(map["username" := JString(user), "message" := JString(message),
                "timestamp" := JString(now), "color" := JString(colour)])
  }

  /** A chat line as the single-room client sends it. */
  function PlainChat(user: string, message: string, now: string): Json {
    JObject(map["username" := JString(user), "message" := JString(message), "timestamp" := JString(now)])
  }

  /** The private invitation sent to an invitee's personal topic. */
  function InvitePayload(from: string, room: string, stamp: string): Json {
    JObject(map["type" := JString("invitation"), "from" := JString(from),
                "chatroom" := JString(room), "timestamp" := JString(stamp)])
  }
}

/** How topic names derive from room and user names. */
module Topics {

  import opened Wire

  const Base := "jack-chat"

  /** `f"{BASE_TOPIC}/{chatroom}"`. */
  function ChatTopic(room: string): string {
    Base + "/" + room
  }

  /** `f"{BASE_TOPIC}/invites/{username}"`. */
  function PersonalTopic(user: string): string {
    Base + "/invites/" + user
  }

  /** The room a chat topic belongs to: the inverse of `ChatTopic`. */
  function RoomOf(topic: string): Option<string> {
    var n := |Base| + 1;
    if |topic| >= n && topic[..n] == Base + "/" then Some(topic[n..]) else None
  }

  /** Every room's chat topic names that room and no other. */
  lemma RoomOfChatTopic(room: string)
    ensures RoomOf(ChatTopic(room)) == Some(room)
  {
    var t := ChatTopic(room);
    assert t[..|Base| + 1] == Base + "/";
    assert t[|Base| + 1..] == room;
  }

  /** Distinct rooms have distinct chat topics. */
  lemma ChatTopicInjective(a: string, b: string)
    ensures ChatTopic(a) == ChatTopic(b) <==> a == b
  {
    if ChatTopic(a) == ChatTopic(b) {
      RoomOfChatTopic(a);
      RoomOfChatTopic(b);
    }
  }

  /** Distinct users have distinct personal topics. */
  lemma PersonalTopicInjective(a: string, b: string)
    ensures PersonalTopic(a) == PersonalTopic(b) <==> a == b
  {
    if PersonalTopic(a) == PersonalTopic(b) {
      var n := |Base + "/invites/"|;
      assert a == PersonalTopic(a)[n..];
      assert b == PersonalTopic(b)[n..];
    }
  }

  /**
   * The two namespaces overlap: a room's chat topic is a user's personal
   * topic exactly when the room is named `invites/<user>`.
   */
  lemma TopicsCollide(room: string, user: string)
    ensures ChatTopic(room) == PersonalTopic(user) <==> room == "invites/" + user
  {
    assert PersonalTopic(user) == ChatTopic("invites/" + user);
    ChatTopicInjective(room, "invites/" + user);
  }
}
