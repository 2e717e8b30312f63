/** notificationFunctions.ts: the per-user notification store (save, dismiss
    one, dismiss many) and the bounded list of push-registration tokens. */
module Notifications {
  import opened Common
  import opened Store

  /** How many registration tokens a user keeps. */
  const MaxTokens: nat := 5

  datatype Outcome = Success | NotFound

  // ---------------------------------------------------------------- notifications

  function NotesOf(notes: map<UserId, map<Key, Notification>>, u: UserId): map<Key, Notification>
  {
    if u in notes then notes[u] else map[]
  }

  /** `notifications/<u>.push(n)` with the generated key k. */
  function Push(notes: map<UserId, map<Key, Notification>>, u: UserId, k: Key, n: Notification)
    : map<UserId, map<Key, Notification>>
  {
    notes[u := NotesOf(notes, u)[k := n]]
  }

  /** The record saveNotificationAsync stores: never dismissed when created. */
  function NewNotification(message: string, category: string, data: NoteData, now: int): (n: Notification)
    ensures !n.dismissed
    ensures n.message == message && n.category == category && n.data == data && n.date == now
  {
    Notification(category, message, now, false, data)
  }

  /** A push under a fresh key appends exactly one entry, after every existing
      key, for that user only. */
  lemma PushAppends(notes: map<UserId, map<Key, Notification>>, u: UserId, k: Key, n: Notification)
    requires KeysBelow(NotesOf(notes, u), k)
    ensures var after := NotesOf(Push(notes, u, k, n), u);
            && k !in NotesOf(notes, u)
            && after.Keys == NotesOf(notes, u).Keys + {k}
            && |after| == |NotesOf(notes, u)| + 1
            && after[k] == n
            && (forall j | j in NotesOf(notes, u) :: j < k && after[j] == NotesOf(notes, u)[j])
            && (forall w | w != u :: NotesOf(Push(notes, u, k, n), w) == NotesOf(notes, w))
  {
    var before := NotesOf(notes, u);
    assert k !in before;
    assert before[k := n].Keys == before.Keys + {k};
  }

  /** A push changes the notifications of the pushed-to user only. */
  lemma NotesOfPush(notes: map<UserId, map<Key, Notification>>, u: UserId, k: Key, n: Notification, w: UserId)
    ensures NotesOf(Push(notes, u, k, n), w) == if w == u then NotesOf(notes, u)[k := n] else NotesOf(notes, w)
  {
  }

  /** saveNotificationAsync, record part: push the notification under a fresh key.
      (The push delivery that follows is not modelled.) */
  method SaveNotification(db: Database, userID: UserId, message: string, category: string, data: NoteData, now: int)
    modifies db`notifications, db`nextKey
    ensures db.nextKey == old(db.nextKey) + 1
    ensures db.notifications == Push(old(db.notifications), userID, old(db.nextKey),
                                     NewNotification(message, category, data, now))
    ensures AllKeysBelow(old(db.notifications), old(db.nextKey)) ==> AllKeysBelow(db.notifications, db.nextKey)
    ensures old(db.Valid()) ==> db.Valid()
  {
    if AllKeysBelow(db.notifications, db.nextKey) {
      PushKeepsKeysBelow(db.notifications, userID, db.nextKey, NewNotification(message, category, data, now));
    }
    var key := db.nextKey;
    db.nextKey := db.nextKey + 1;
    db.notifications := Push(db.notifications, userID, key, NewNotification(message, category, data, now));
  }

  /** A push keeps every stored key below the advanced counter. */
  lemma PushKeepsKeysBelow(notes: map<UserId, map<Key, Notification>>, u: UserId, k: Key, n: Notification)
    requires AllKeysBelow(notes, k)
    ensures AllKeysBelow(Push(notes, u, k, n), k + 1)
  {
  }

  /** dismissNotificationAsync: remove the entry if it exists. */
  method DismissNotification(db: Database, userID: UserId, notificationID: Key) returns (r: Outcome)
    modifies db`notifications
    ensures r == Success <==> notificationID in NotesOf(old(db.notifications), userID)
    ensures r == Success ==>
      db.notifications == old(db.notifications)[userID := NotesOf(old(db.notifications), userID) - {notificationID}]
    ensures r == NotFound ==> db.notifications == old(db.notifications)
    ensures old(db.Valid()) ==> db.Valid()
  {
    var entries := NotesOf(db.notifications, userID);
    if notificationID !in entries {
      return NotFound;
    }
    db.notifications := db.notifications[userID := entries - {notificationID}];
    r := Success;
  }

  /** dismissNotificationsAsync: dismiss every listed id; report Success whatever
      each dismissal answered. */
  method DismissNotifications(db: Database, userID: UserId, ids: seq<Key>) returns (r: Outcome)
    modifies db`notifications
    ensures r == Success
    ensures NotesOf(db.notifications, userID) == NotesOf(old(db.notifications), userID) - set i | i in ids
    ensures forall w | w != userID :: NotesOf(db.notifications, w) == NotesOf(old(db.notifications), w)
    ensures old(db.Valid()) ==> db.Valid()
  {
    var i := 0;
    while i < |ids|
      invariant 0 <= i <= |ids|
      invariant NotesOf(db.notifications, userID) == NotesOf(old(db.notifications), userID) - set j | j in ids[..i]
      invariant forall w | w != userID :: NotesOf(db.notifications, w) == NotesOf(old(db.notifications), w)
      invariant old(db.Valid()) ==> db.Valid()
    {
      var _ := DismissNotification(db, userID, ids[i]);
      assert ids[..i + 1] == ids[..i] + [ids[i]];
      i := i + 1;
    }
    assert ids[..i] == ids;
    r := Success;
  }

  // ---------------------------------------------------------------- registration tokens

  /** The token list saveFCMRegistrationTokenAsync stores: unchanged when the token
      is known, otherwise the token appended and the oldest entries dropped until
      at most MaxTokens remain. */
  function Registered(tokens: seq<string>, token: string): (r: seq<string>)
    ensures token in r
    ensures forall x | x in r :: x in tokens || x == token
  {
    if token in tokens then tokens
    else if |tokens| + 1 <= MaxTokens then tokens + [token]
    else
      var all := tokens + [token];
      assert all[|all| - 1] == all[|tokens| + 1 - MaxTokens..][MaxTokens - 1];
      all[|tokens| + 1 - MaxTokens..]
  }

  /** The in-memory part of saveFCMRegistrationTokenAsync: the `includes` test,
      then `push` and `splice(0, 1)` until the list is short enough. */
  method AppendToken(tokens: seq<string>, token: string) returns (r: seq<string>, added: bool)
    ensures added <==> token !in tokens
    ensures r == Registered(tokens, token)
  {
    if token in tokens {
      return tokens, false;
    }
    var all := tokens + [token];
    r := all;
    ghost var dropped := 0;
    while |r| > MaxTokens
      invariant 0 <= dropped <= |all|
      invariant r == all[dropped..]
      invariant dropped > 0 ==> |r| >= MaxTokens
    {
      r := r[1..];
      dropped := dropped + 1;
    }
    added := true;
  }

  /** A new token ends the list, which then holds at most MaxTokens entries,
      the newest ones of the old list in their old order. */
  lemma RegisteredNewToken(tokens: seq<string>, token: string)
    requires token !in tokens
    ensures var r := Registered(tokens, token);
            && |r| <= MaxTokens
            && |r| == (if |tokens| + 1 <= MaxTokens then |tokens| + 1 else MaxTokens)
            && r[|r| - 1] == token
            && r[..|r| - 1] == tokens[|tokens| - (|r| - 1)..]
  {
  }

  /** A token already in the list leaves the list as it is. */
  lemma RegisteredKnownToken(tokens: seq<string>, token: string)
    requires token in tokens
    ensures Registered(tokens, token) == tokens
  {
  }

  /** After registration the list contains the token, and registering it again
      changes nothing. */
  lemma RegisteredIdempotent(tokens: seq<string>, token: string)
    ensures token in Registered(tokens, token)
    ensures Registered(Registered(tokens, token), token) == Registered(tokens, token)
  {
    var r := Registered(tokens, token);
    if token !in tokens {
      RegisteredNewToken(tokens, token);
      assert r[|r| - 1] == token;
    }
  }

  /** A list of at most MaxTokens entries stays within MaxTokens. */
  lemma RegisteredBounded(tokens: seq<string>, token: string)
    requires |tokens| <= MaxTokens
    ensures |Registered(tokens, token)| <= MaxTokens
  {
  }

  datatype TokenResult = AlreadyExists | Saved

  /** saveFCMRegistrationTokenAsync: only the token list of this user changes,
      and only when the token is new. */
  method SaveRegistrationToken(db: Database, userID: UserId, token: string) returns (r: TokenResult)
    modifies db`tokens
    ensures var old_ := if userID in old(db.tokens) then old(db.tokens)[userID] else [];
            && (r == AlreadyExists <==> token in old_)
            && (r == AlreadyExists ==> db.tokens == old(db.tokens))
            && (r == Saved ==> db.tokens == old(db.tokens)[userID := Registered(old_, token)])
  {
    var tokens: seq<string> := if userID in db.tokens then db.tokens[userID] else [];
    var updated, added := AppendToken(tokens, token);
    if !added {
      return AlreadyExists;
    }
    db.tokens := db.tokens[userID := updated];
    r := Saved;
  }
}
