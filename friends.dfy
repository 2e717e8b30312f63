/** friendFunctions.ts: friend lists (`friends/<user>`, an array of ids) and
    friend requests (`friendRequests/<recipient>/<sender>`), which go from
    pending to dismissed. */
module Friends {
  import opened Common
  import opened Store

  // ---------------------------------------------------------------- friend lists

  function FriendsOf(friends: map<UserId, seq<UserId>>, u: UserId): seq<UserId>
  {
    if u in friends then friends[u] else []
  }

  predicate NoDuplicates(s: seq<UserId>)
  {
    forall i, j | 0 <= i < j < |s| :: s[i] != s[j]
  }

  /** The list addFriend leaves: the friend appended unless already present. */
  function WithFriend(list: seq<UserId>, friendID: UserId): (r: seq<UserId>)
    ensures forall x :: x in r <==> x in list || x == friendID
    ensures friendID in list ==> r == list
    ensures friendID !in list ==> r == list + [friendID]
    ensures NoDuplicates(list) ==> NoDuplicates(r)
  {
    if friendID in list then list else list + [friendID]
  }

  /** The friend map after addFriend(u, x). */
  function AddTo(friends: map<UserId, seq<UserId>>, u: UserId, x: UserId): map<UserId, seq<UserId>>
  {
    friends[u := WithFriend(FriendsOf(friends, u), x)]
  }

  /** addFriend: append `friendID` to the user's list when it is not already
      there, and report whether it appended. Nothing is written otherwise. */
  method AddFriend(db: Database, userID: UserId, friendID: UserId) returns (added: bool)
    modifies db`friends
    ensures added <==> friendID !in FriendsOf(old(db.friends), userID)
    ensures added ==> db.friends == AddTo(old(db.friends), userID, friendID)
    ensures !added ==> db.friends == old(db.friends)
  {
    var list := FriendsOf(db.friends, userID);
    if friendID !in list {
      list := list + [friendID];
      db.friends := db.friends[userID := list];
      return true;
    }
    return false;
  }

  /** Adding a friend already in the list leaves the map as it is, so AddTo
      describes addFriend whatever it answers; adding twice is adding once. */
  lemma AddToKnownFriend(friends: map<UserId, seq<UserId>>, u: UserId, x: UserId)
    ensures x in FriendsOf(friends, u) ==> AddTo(friends, u, x) == friends
    ensures AddTo(AddTo(friends, u, x), u, x) == AddTo(friends, u, x)
  {
  }

  /** Every user's list is free of duplicates. */
  ghost predicate ListsDistinct(friends: map<UserId, seq<UserId>>)
  {
    forall u | u in friends :: NoDuplicates(friends[u])
  }

  /** Friendship is mutual: v is in u's list exactly when u is in v's. */
  ghost predicate Mutual(friends: map<UserId, seq<UserId>>)
  {
    forall u, v :: v in FriendsOf(friends, u) <==> u in FriendsOf(friends, v)
  }

  /** acceptFriendRequestAsync's two addFriend calls: the sender into the
      user's list, then the user into the sender's. */
  function Befriend(friends: map<UserId, seq<UserId>>, userID: UserId, senderID: UserId): map<UserId, seq<UserId>>
  {
    AddTo(AddTo(friends, userID, senderID), senderID, userID)
  }

  /** After accepting, each of the two is in the other's list, the lists gain
      no duplicates and nobody else's list changes. */
  lemma BefriendEffect(friends: map<UserId, seq<UserId>>, userID: UserId, senderID: UserId)
    ensures var after := Befriend(friends, userID, senderID);
            && senderID in FriendsOf(after, userID)
            && userID in FriendsOf(after, senderID)
            && (forall w | w != userID && w != senderID :: FriendsOf(after, w) == FriendsOf(friends, w))
            && (forall w, x :: x in FriendsOf(after, w) <==>
                  x in FriendsOf(friends, w) || (w == userID && x == senderID) || (w == senderID && x == userID))
            && (ListsDistinct(friends) ==> ListsDistinct(after))
  {
    var mid := AddTo(friends, userID, senderID);
    assert FriendsOf(mid, userID) == WithFriend(FriendsOf(friends, userID), senderID);
    var after := AddTo(mid, senderID, userID);
    assert FriendsOf(after, senderID) == WithFriend(FriendsOf(mid, senderID), userID);
    if ListsDistinct(friends) {
      assert NoDuplicates(FriendsOf(friends, userID));
      assert ListsDistinct(mid);
      assert NoDuplicates(FriendsOf(mid, senderID));
    }
  }

  /** Accepting keeps friendship mutual. */
  lemma BefriendKeepsMutual(friends: map<UserId, seq<UserId>>, userID: UserId, senderID: UserId)
    requires Mutual(friends)
    ensures Mutual(Befriend(friends, userID, senderID))
  {
    var after := Befriend(friends, userID, senderID);
    BefriendEffect(friends, userID, senderID);
    forall u, v
      ensures v in FriendsOf(after, u) <==> u in FriendsOf(after, v)
    {
      assert v in FriendsOf(friends, u) <==> u in FriendsOf(friends, v);
    }
  }

  // ---------------------------------------------------------------- friend requests

  function RequestsTo(requests: map<UserId, map<UserId, FriendRequest>>, recipient: UserId): map<UserId, FriendRequest>
  {
    if recipient in requests then requests[recipient] else map[]
  }

  /** A request from `sender` to `recipient` is stored and not dismissed. */
  predicate Pending(requests: map<UserId, map<UserId, FriendRequest>>, recipient: UserId, sender: UserId)
  {
    sender in RequestsTo(requests, recipient) && !RequestsTo(requests, recipient)[sender].dismissed
  }

  /** `friendRequests/<recipient>/<sender>.set(request)`. */
  function StoreRequest(requests: map<UserId, map<UserId, FriendRequest>>, recipient: UserId, sender: UserId,
                        request: FriendRequest): map<UserId, map<UserId, FriendRequest>>
  {
    requests[recipient := RequestsTo(requests, recipient)[sender := request]]
  }

  /** `update({dismissed: true})` on a stored request. */
  function MarkDismissed(requests: map<UserId, map<UserId, FriendRequest>>, recipient: UserId, sender: UserId)
    : map<UserId, map<UserId, FriendRequest>>
    requires sender in RequestsTo(requests, recipient)
  {
    var r := RequestsTo(requests, recipient)[sender];
    StoreRequest(requests, recipient, sender, r.(dismissed := true))
  }

  /** A stored request is pending, and a dismissed one is not; any other
      (recipient, sender) pair is untouched either way. */
  lemma RequestLifecycle(requests: map<UserId, map<UserId, FriendRequest>>, recipient: UserId, sender: UserId,
                         request: FriendRequest, r: UserId, s: UserId)
    requires !request.dismissed
    requires (r, s) != (recipient, sender)
    ensures var sent := StoreRequest(requests, recipient, sender, request);
            && Pending(sent, recipient, sender)
            && !Pending(MarkDismissed(sent, recipient, sender), recipient, sender)
            && RequestsTo(MarkDismissed(sent, recipient, sender), recipient)[sender] == request.(dismissed := true)
            && (Pending(sent, r, s) <==> Pending(requests, r, s))
            && (Pending(MarkDismissed(sent, recipient, sender), r, s) <==> Pending(requests, r, s))
  {
  }

  /** The sender's display name as stored on the request. */
  function SenderName(users: map<UserId, UserRecord>, u: UserId): Option<string>
    requires u in users
  {
    users[u].displayName
  }

  datatype RequestResult = UnrecognizedUser | AlreadyPending | RequestSent

  /** createFriendRequestAsync: an unknown sender is refused first, then a
      pending request from this sender to this recipient; a dismissed one is
      overwritten. A refused request writes nothing. (The push message that
      follows is not modelled.) */
  method CreateFriendRequest(db: Database, userID: UserId, recipientID: UserId, now: int) returns (r: RequestResult)
    modifies db`friendRequests
    ensures r == UnrecognizedUser <==> userID !in db.users
    ensures r == AlreadyPending <==> userID in db.users && Pending(old(db.friendRequests), recipientID, userID)
    ensures r != RequestSent ==> db.friendRequests == old(db.friendRequests)
    ensures r == RequestSent ==>
              db.friendRequests == StoreRequest(old(db.friendRequests), recipientID, userID,
                                                FriendRequest(SenderName(db.users, userID), false, now))
  {
    var value := RequestsTo(db.friendRequests, recipientID);
    if userID !in db.users {
      return UnrecognizedUser;
    }
    if userID in value {
      var dismissed := value[userID].dismissed;
      if !dismissed {
        return AlreadyPending;
      }
    }
    var displayName := db.users[userID].displayName;
    db.friendRequests := db.friendRequests[recipientID := value[userID := FriendRequest(displayName, false, now)]];
    r := RequestSent;
  }

  datatype RequestReply = RequestNotFound | RequestDone

  /** acceptFriendRequestAsync: a missing request changes nothing; otherwise
      each user joins the other's friend list and the request is dismissed. */
  method AcceptFriendRequest(db: Database, userID: UserId, senderID: UserId) returns (r: RequestReply)
    modifies db`friends, db`friendRequests
    ensures r == RequestNotFound <==> senderID !in RequestsTo(old(db.friendRequests), userID)
    ensures r == RequestNotFound ==> db.friends == old(db.friends) && db.friendRequests == old(db.friendRequests)
    ensures r == RequestDone ==>
              && db.friends == Befriend(old(db.friends), userID, senderID)
              && db.friendRequests == MarkDismissed(old(db.friendRequests), userID, senderID)
  {
    var entry := RequestsTo(db.friendRequests, userID);
    if senderID !in entry {
      return RequestNotFound;
    }
    var _ := AddFriend(db, userID, senderID);
    var _ := AddFriend(db, senderID, userID);
    AddToKnownFriend(old(db.friends), userID, senderID);
    db.friendRequests := db.friendRequests[userID := entry[senderID := entry[senderID].(dismissed := true)]];
    r := RequestDone;
  }

  /** dismissFriendRequestAsync: a missing request changes nothing; otherwise
      the request is dismissed and friend lists are left alone. */
  method DismissFriendRequest(db: Database, userID: UserId, senderID: UserId) returns (r: RequestReply)
    modifies db`friendRequests
    ensures r == RequestNotFound <==> senderID !in RequestsTo(old(db.friendRequests), userID)
    ensures r == RequestNotFound ==> db.friendRequests == old(db.friendRequests)
    ensures r == RequestDone ==> db.friendRequests == MarkDismissed(old(db.friendRequests), userID, senderID)
    ensures db.friends == old(db.friends)
  {
    var entry := RequestsTo(db.friendRequests, userID);
    if senderID !in entry {
      return RequestNotFound;
    }
    db.friendRequests := db.friendRequests[userID := entry[senderID := entry[senderID].(dismissed := true)]];
    r := RequestDone;
  }
}
