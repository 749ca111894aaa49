/**
 * The invitation store: for each invitee username, the list of invitations
 * waiting for them, in the order they were stored. The store is the
 * in-memory image of the JSON file the client rewrites on every change; an
 * absent or unreadable file is the empty map.
 */
module Invitations {

  /** A stored invitation (its `type` field is always "invitation"). */
  datatype Invitation = Invitation(from: string, chatroom: string, timestamp: string)

  type Store = map<string, seq<Invitation>>

  /** The invitations waiting for `user`: none when the store has no entry for them. */
  function Pending(store: Store, user: string): seq<Invitation> {
    if user in store then store[user] else []
  }

  /**
   * `store_invitation`: append to the target's list, creating the list when
   * the target has none; every other user's entry stays as it was.
   */
  function Stored(store: Store, target: string, inv: Invitation): (r: Store)
    ensures target in r && Pending(r, target) == Pending(store, target) + [inv]
    ensures forall u :: u != target ==> (u in r <==> u in store) && Pending(r, u) == Pending(store, u)
  {
    store[target := Pending(store, target) + [inv]]
  }

  /** The entry the resolve step looks for: same room and same sender. */
  predicate Matches(inv: Invitation, room: string, from: string) {
    inv.chatroom == room && inv.from == from
  }

  /**
   * The comprehension in `remove_stored_invitation`: the entries that do not
   * match both `room` and `from`, in their original order. No match is left,
   * and every entry that does not match is still there.
   */
  function WithoutMatches(invs: seq<Invitation>, room: string, from: string): (r: seq<Invitation>)
    ensures forall x :: x in r ==> !Matches(x, room, from)
    ensures forall x :: x in invs && !Matches(x, room, from) ==> x in r
    ensures |r| <= |invs|
  {
    if invs == [] then []
    else
      assert invs == [invs[0]] + invs[1..];
      (if Matches(invs[0], room, from) then [] else [invs[0]]) + WithoutMatches(invs[1..], room, from)
  }

  /** Every entry that does not match keeps its number of occurrences; matching entries have none. */
  lemma {:induction false} WithoutMatchesCounts(invs: seq<Invitation>, room: string, from: string, x: Invitation)
    ensures multiset(WithoutMatches(invs, room, from))[x] == if Matches(x, room, from) then 0 else multiset(invs)[x]
  {
    if invs != [] {
      WithoutMatchesCounts(invs[1..], room, from, x);
      assert invs == [invs[0]] + invs[1..];
    }
  }

  /** Filtering a concatenation filters each part. */
  lemma {:induction false} WithoutMatchesAppend(a: seq<Invitation>, b: seq<Invitation>, room: string, from: string)
    ensures WithoutMatches(a + b, room, from) == WithoutMatches(a, room, from) + WithoutMatches(b, room, from)
  {
    if a == [] {
      assert a + b == b;
    } else {
      assert (a + b)[0] == a[0];
      assert (a + b)[1..] == a[1..] + b;
      WithoutMatchesAppend(a[1..], b, room, from);
    }
  }

  /** A list holding no match is left exactly as it is. */
  lemma {:induction false} WithoutMatchesNone(invs: seq<Invitation>, room: string, from: string)
    requires forall x :: x in invs ==> !Matches(x, room, from)
    ensures WithoutMatches(invs, room, from) == invs
  {
    if invs != [] {
      assert invs[0] in invs;
      WithoutMatchesNone(invs[1..], room, from);
      assert invs == [invs[0]] + invs[1..];
    }
  }

  /** Filtering twice removes nothing the second time. */
  lemma WithoutMatchesTwice(invs: seq<Invitation>, room: string, from: string)
    ensures WithoutMatches(WithoutMatches(invs, room, from), room, from) == WithoutMatches(invs, room, from)
  {
    WithoutMatchesNone(WithoutMatches(invs, room, from), room, from);
  }

  /**
   * `remove_stored_invitation`: when the user has an entry, replace it by
   * its non-matching invitations; a user without an entry, and every other
   * user, is left alone.
   */
  function Resolved(store: Store, user: string, room: string, from: string): (r: Store)
    ensures forall x :: x in Pending(r, user) ==> !Matches(x, room, from)
    ensures forall u :: (u in r <==> u in store)
    ensures forall u :: u != user ==> Pending(r, u) == Pending(store, u)
    ensures user in store ==> r[user] == WithoutMatches(store[user], room, from)
    ensures user !in store ==> r == store
  {
    if user in store then store[user := WithoutMatches(store[user], room, from)] else store
  }

  /** Resolving the same (room, sender) pair twice removes nothing the second time. */
  lemma ResolvedTwice(store: Store, user: string, room: string, from: string)
    ensures Resolved(Resolved(store, user, room, from), user, room, from) == Resolved(store, user, room, from)
  {
    if user in store {
      WithoutMatchesTwice(store[user], room, from);
    }
  }

  /**
   * Storing an invitation and then resolving its (room, sender) pair for the
   * invitee leaves the invitee's list as resolving alone would have: the
   * stored copy is gone, and a list that held no such invitation before is
   * back to what it was.
   */
  lemma ResolvedAfterStored(store: Store, target: string, inv: Invitation)
    ensures Pending(Resolved(Stored(store, target, inv), target, inv.chatroom, inv.from), target)
         == WithoutMatches(Pending(store, target), inv.chatroom, inv.from)
    ensures (forall x :: x in Pending(store, target) ==> !Matches(x, inv.chatroom, inv.from)) ==>
            Pending(Resolved(Stored(store, target, inv), target, inv.chatroom, inv.from), target) == Pending(store, target)
  {
    var before := Pending(store, target);
    WithoutMatchesAppend(before, [inv], inv.chatroom, inv.from);
    assert WithoutMatches([inv], inv.chatroom, inv.from) == [];
    if forall x :: x in before ==> !Matches(x, inv.chatroom, inv.from) {
      WithoutMatchesNone(before, inv.chatroom, inv.from);
    }
  }

  /**
   * The indices `i < n` not in `processed`, ascending: the indices the
   * review window keeps when it closes.
   */
  function KeptIndices(n: nat, processed: seq<int>): (ks: seq<nat>)
    ensures forall j :: 0 <= j < |ks| ==> ks[j] < n && ks[j] !in processed
    ensures forall j, k :: 0 <= j < k < |ks| ==> ks[j] < ks[k]
    ensures forall i :: 0 <= i < n && i !in processed ==> i in ks
  {
    if n == 0 then [] else KeptIndices(n - 1, processed) + (if n - 1 in processed then [] else [n - 1])
  }

  /**
   * The comprehension in `close_and_save`: the invitations whose index is
   * not in `processed`, in their original order — the j-th kept invitation
   * is the one at the j-th kept index.
   */
  function Unprocessed(invs: seq<Invitation>, processed: seq<int>): (r: seq<Invitation>)
    ensures var ks := KeptIndices(|invs|, processed);
      |r| == |ks| && forall j :: 0 <= j < |r| ==> r[j] == invs[ks[j]]
  {
    if invs == [] then []
    else
      var n := |invs| - 1;
      var front := invs[..n];
      assert forall i :: 0 <= i < n ==> front[i] == invs[i];
      Unprocessed(front, processed) + (if n in processed then [] else [invs[n]])
  }

  /** When nothing was accepted or declined, closing keeps every invitation. */
  lemma NothingProcessed(invs: seq<Invitation>)
    ensures Unprocessed(invs, []) == invs
  {
    KeptEverything(|invs|);
  }

  /** With nothing processed, the kept indices are 0, 1, ..., n-1. */
  lemma {:induction false} KeptEverything(n: nat)
    ensures KeptIndices(n, []) == seq(n, i => i)
  {
    if n > 0 {
      KeptEverything(n - 1);
      assert seq(n, i => i) == seq(n - 1, i => i) + [n - 1];
    }
  }

  /** When every invitation was accepted or declined, closing keeps none. */
  lemma AllProcessed(invs: seq<Invitation>, processed: seq<int>)
    requires forall i :: 0 <= i < |invs| ==> i in processed
    ensures Unprocessed(invs, processed) == []
  {
  }

  /** The window accepted or declined an invitation equal to `x`. */
  predicate WasProcessed(x: Invitation, invs: seq<Invitation>, processed: seq<int>) {
    exists i :: 0 <= i < |invs| && i in processed && invs[i] == x
  }

  /** The invitations of `current` the window did not accept or decline, in their order. */
  function WithoutProcessed(current: seq<Invitation>, invs: seq<Invitation>, processed: seq<int>): (r: seq<Invitation>)
    ensures forall x :: x in r <==> x in current && !WasProcessed(x, invs, processed)
    ensures |r| <= |current|
  {
    if current == [] then []
    else
      assert current == [current[0]] + current[1..];
      (if WasProcessed(current[0], invs, processed) then [] else [current[0]])
        + WithoutProcessed(current[1..], invs, processed)
  }

  /**
   * `close_and_save` as evidently intended: in the store as it is when the
   * window closes, take the invitations the window accepted or declined out
   * of the list of the user it was opened for. Everything else in that list
   * (an invitation stored meanwhile included) stays, and every other user's
   * list is unchanged.
   */
  function AfterReview(store: Store, owner: string, invs: seq<Invitation>, processed: seq<int>): (r: Store)
    ensures owner in r && r[owner] == WithoutProcessed(Pending(store, owner), invs, processed)
    ensures forall x :: x in r[owner] <==> x in Pending(store, owner) && !WasProcessed(x, invs, processed)
    ensures forall u :: u != owner ==> (u in r <==> u in store) && Pending(r, u) == Pending(store, u)
  {
    store[owner := WithoutProcessed(Pending(store, owner), invs, processed)]
  }

  /** Every entry the window did not touch keeps its number of occurrences; processed ones have none. */
  lemma {:induction false} WithoutProcessedCounts(current: seq<Invitation>, invs: seq<Invitation>, processed: seq<int>, x: Invitation)
    ensures multiset(WithoutProcessed(current, invs, processed))[x]
         == if WasProcessed(x, invs, processed) then 0 else multiset(current)[x]
  {
    if current != [] {
      WithoutProcessedCounts(current[1..], invs, processed, x);
      assert current == [current[0]] + current[1..];
    }
  }

  /** Filtering a concatenation filters each part, so the kept entries stay in order. */
  lemma {:induction false} WithoutProcessedAppend(a: seq<Invitation>, b: seq<Invitation>, invs: seq<Invitation>, processed: seq<int>)
    ensures WithoutProcessed(a + b, invs, processed) == WithoutProcessed(a, invs, processed) + WithoutProcessed(b, invs, processed)
  {
    if a == [] {
      assert a + b == b;
    } else {
      assert (a + b)[0] == a[0];
      assert (a + b)[1..] == a[1..] + b;
      WithoutProcessedAppend(a[1..], b, invs, processed);
    }
  }

  /**
   * When the owner's list is still the one the window showed and holds no
   * invitation twice, the corrected close keeps exactly what the written
   * close keeps for that list.
   */
  lemma AfterReviewUnchangedList(store: Store, owner: string, invs: seq<Invitation>, processed: seq<int>)
    requires Pending(store, owner) == invs
    requires forall i, j :: 0 <= i < j < |invs| ==> invs[i] != invs[j]
    ensures forall x :: x in AfterReview(store, owner, invs, processed)[owner] <==> x in Unprocessed(invs, processed)
  {
    var ks := KeptIndices(|invs|, processed);
    var kept := Unprocessed(invs, processed);
    forall x | x in kept
      ensures x in invs && !WasProcessed(x, invs, processed)
    {
      var j :| 0 <= j < |kept| && kept[j] == x;
      var k := ks[j];
      assert invs[k] == x && k !in processed;
      forall i | 0 <= i < |invs| && i in processed
        ensures invs[i] != x
      {
        assert i != k;
      }
    }
    forall x | x in invs && !WasProcessed(x, invs, processed)
      ensures x in kept
    {
      var i :| 0 <= i < |invs| && invs[i] == x;
      assert i !in processed;
      var j :| 0 <= j < |ks| && ks[j] == i;
      assert kept[j] == x;
    }
  }

  /**
   * `close_and_save` as written: the snapshot of the store read when the
   * window opened gets the kept list under whatever name the user has when
   * the window closes, and replaces the whole store.
   */
  function AfterReviewAsWritten(snapshot: Store, currentUser: string, invs: seq<Invitation>, processed: seq<int>): (r: Store)
    ensures currentUser in r && r[currentUser] == Unprocessed(invs, processed)
    ensures forall u :: u != currentUser ==> (u in r <==> u in snapshot) && Pending(r, u) == Pending(snapshot, u)
  {
    snapshot[currentUser := Unprocessed(invs, processed)]
  }

  /**
   * carol reviews her one invitation; while the window is open she invites
   * eve, which stores eve's invitation; closing writes the old snapshot back
   * and eve's invitation is gone. The corrected close keeps it.
   */
  lemma StaleSnapshotLosesInvitation()
    ensures var mine := Invitation("alice", "lobby", "10:00:00 - 01/01/2025");
            var theirs := Invitation("carol", "den", "10:01:00 - 01/01/2025");
            var snapshot := map["carol" := [mine]];
            var current := Stored(snapshot, "eve", theirs);
            && Pending(AfterReviewAsWritten(snapshot, "carol", [mine], [0]), "eve") == []
            && Pending(AfterReview(current, "carol", [mine], [0]), "eve") == [theirs]
  {
    NothingProcessed([]);
  }

  /**
   * carol accepts her one invitation and renames herself to dave before
   * closing: the accepted invitation stays stored under carol and is offered
   * again at her next start. The corrected close clears carol's list.
   */
  lemma RenameKeepsAcceptedInvitation()
    ensures var mine := Invitation("alice", "lobby", "10:00:00 - 01/01/2025");
            var snapshot := map["carol" := [mine]];
            && Pending(AfterReviewAsWritten(snapshot, "dave", [mine], [0]), "carol") == [mine]
            && Pending(AfterReview(snapshot, "carol", [mine], [0]), "carol") == []
  {
    AllProcessed([Invitation("alice", "lobby", "10:00:00 - 01/01/2025")], [0]);
  }

  /**
   * carol's review window shows her invitation from alice; while it is open
   * she accepts alice's live invitation to the same room, which resolves
   * the stored copy; closing without using the window writes the copy back.
   * The corrected close leaves it resolved.
   */
  lemma LiveResolvedComesBack()
    ensures var mine := Invitation("alice", "lobby", "10:00:00 - 01/01/2025");
            var snapshot := map["carol" := [mine]];
            var current := Resolved(snapshot, "carol", "lobby", "alice");
            && Pending(AfterReviewAsWritten(snapshot, "carol", [mine], []), "carol") == [mine]
            && Pending(AfterReview(current, "carol", [mine], []), "carol") == []
  {
    var mine := Invitation("alice", "lobby", "10:00:00 - 01/01/2025");
    NothingProcessed([mine]);
    assert Resolved(map["carol" := [mine]], "carol", "lobby", "alice")["carol"] == [];
  }
}
