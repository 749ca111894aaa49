/**
 * A user's chatroom history: the list `user_chatrooms` of rooms joined,
 * in the order they were first joined, and the store that keeps one such
 * list per username.
 */
module History {

  /** No room occurs twice. */
  predicate NoDup(rooms: seq<string>) {
    forall i, j :: 0 <= i < j < |rooms| ==> rooms[i] != rooms[j]
  }

  /**
   * `load_user_chatrooms`: the user's list from the store, or the empty
   * list when the store has none (an unreadable store is an empty map).
   */
  function Load(store: map<string, seq<string>>, user: string): (r: seq<string>)
    ensures user in store ==> r == store[user]
    ensures user !in store ==> r == []
  {
    if user in store then store[user] else []
  }

  /**
   * `add_chatroom_to_history`: append the room only when it is absent. The
   * rooms already there keep their places, the room is present afterwards,
   * nothing else is, and a list without duplicates stays without them.
   */
  function Added(rooms: seq<string>, room: string): (r: seq<string>)
    ensures |rooms| <= |r| && r[..|rooms|] == rooms
    ensures forall x :: x in r <==> x in rooms || x == room
    ensures room in rooms ==> r == rooms
    ensures room !in rooms ==> |r| == |rooms| + 1
    ensures NoDup(rooms) ==> NoDup(r)
  {
    if room in rooms then rooms else rooms + [room]
  }

  /** Adding a room twice is the same as adding it once. */
  lemma AddedTwice(rooms: seq<string>, room: string)
    ensures Added(Added(rooms, room), room) == Added(rooms, room)
  {
  }

  /**
   * `list.remove` behind `remove_chatroom_from_history`: the first
   * occurrence of the room goes, everything else stays in order; a room that
   * is absent leaves the list as it is.
   */
  function Removed(rooms: seq<string>, room: string): (r: seq<string>)
    ensures room !in rooms ==> r == rooms
    ensures room in rooms ==> |r| == |rooms| - 1
    ensures room in rooms ==> r == rooms[..FirstIndex(rooms, room)] + rooms[FirstIndex(rooms, room) + 1..]
    ensures forall x :: x in r ==> x in rooms
    ensures forall x :: x in rooms && x != room ==> x in r
  {
    if rooms == [] then []
    else if rooms[0] == room then rooms[1..]
    else
      var head, rest := rooms[0], rooms[1..];
      assert rooms == [head] + rest;
      var tail := Removed(rest, room);
      if room in rooms then
        CutBehindHead(rooms, room);
        [head] + tail
      else
        [head] + tail
  }

  /** Cutting the first occurrence out of the tail, behind a head that differs, cuts it out of the whole list. */
  lemma CutBehindHead(rooms: seq<string>, room: string)
    requires room in rooms && rooms[0] != room
    ensures room in rooms[1..]
    ensures var i := FirstIndex(rooms[1..], room);
      && FirstIndex(rooms, room) == i + 1
      && [rooms[0]] + (rooms[1..][..i] + rooms[1..][i + 1..]) == rooms[..i + 1] + rooms[i + 2..]
  {
    assert rooms == [rooms[0]] + rooms[1..];
    var i := FirstIndex(rooms[1..], room);
    assert rooms[..i + 1] == [rooms[0]] + rooms[1..][..i];
    assert rooms[i + 2..] == rooms[1..][i + 1..];
  }

  /** `list.index`: the position of the first occurrence of a room that is present. */
  function FirstIndex(rooms: seq<string>, room: string): (i: nat)
    requires room in rooms
    ensures i < |rooms| && rooms[i] == room && room !in rooms[..i]
  {
    if rooms[0] == room then 0
    else
      assert rooms == [rooms[0]] + rooms[1..];
      var i := FirstIndex(rooms[1..], room);
      assert rooms[..i + 1] == [rooms[0]] + rooms[1..][..i];
      i + 1
  }

  /** Exactly one occurrence of the room goes, and every other room keeps its number of occurrences. */
  lemma {:induction false} RemovedCounts(rooms: seq<string>, room: string)
    ensures multiset(Removed(rooms, room)) == multiset(rooms) - multiset{room}
  {
    if rooms != [] {
      assert rooms == [rooms[0]] + rooms[1..];
      if rooms[0] != room {
        RemovedCounts(rooms[1..], room);
      }
    }
  }

  /** The tail of a duplicate-free list is duplicate-free and does not hold the head. */
  lemma NoDupTail(rooms: seq<string>)
    requires NoDup(rooms) && rooms != []
    ensures NoDup(rooms[1..]) && rooms[0] !in rooms[1..]
  {
    forall j | 0 <= j < |rooms| - 1
      ensures rooms[1..][j] != rooms[0]
    {
      assert rooms[1..][j] == rooms[j + 1];
    }
  }

  /** Putting a room absent from a duplicate-free list in front keeps it duplicate-free. */
  lemma NoDupCons(x: string, rest: seq<string>)
    requires NoDup(rest) && x !in rest
    ensures NoDup([x] + rest)
  {
    var s := [x] + rest;
    forall i, j | 0 <= i < j < |s|
      ensures s[i] != s[j]
    {
      assert s[j] == rest[j - 1];
      if i > 0 {
        assert s[i] == rest[i - 1];
      }
    }
  }

  /** In a list without duplicates, removing a room removes it entirely and keeps the list duplicate-free. */
  lemma {:induction false} RemovedFromNoDup(rooms: seq<string>, room: string)
    requires NoDup(rooms)
    ensures room !in Removed(rooms, room)
    ensures NoDup(Removed(rooms, room))
  {
    if rooms != [] {
      var head, rest := rooms[0], rooms[1..];
      NoDupTail(rooms);
      if head == room {
        assert Removed(rooms, room) == rest;
      } else {
        var tail := Removed(rest, room);
        assert Removed(rooms, room) == [head] + tail;
        RemovedFromNoDup(rest, room);
        NoDupCons(head, tail);
      }
    }
  }

  /** Removing a room that was just added to a list not holding it restores the list. */
  lemma {:induction false} RemovedAfterAdded(rooms: seq<string>, room: string)
    requires room !in rooms
    ensures Removed(Added(rooms, room), room) == rooms
  {
    if rooms == [] {
      assert Added(rooms, room) == [room];
    } else {
      var grown, rest := rooms + [room], rooms[1..];
      assert grown[0] == rooms[0] != room;
      assert grown[1..] == rest + [room];
      assert Removed(grown, room) == [rooms[0]] + Removed(rest + [room], room);
      assert room !in rest;
      RemovedAfterAdded(rest, room);
      assert rooms == [rooms[0]] + rest;
    }
  }
}
