/** friendChallengeFunctions.ts: the head-to-head challenge between two
    friends. One player challenges another (taking the wager up front in the
    older, deducting variant), the recipient accepts or declines, each player
    submits one score, and the first two scores decide the duel. */
module FriendChallenges {
  import opened Common
  import opened Decimal
  import opened Store
  import opened Ledger
  import opened Notifications

  /** Gameplay seconds of a challenge made by newCreateFriendChallengeAsync. */
  const NewDuration: int := 120
  /** Gameplay seconds of a challenge made by the deducting createFriendChallengeAsync. */
  const DeductingDuration: int := 180

  const RequestCategory := "challengeRequests"
  const ResultCategory := "friendChallengeResults"

  // ---------------------------------------------------------------- open challenges

  /** getFriendChallengeAsync is non-empty: some challenge from `challenger` to
      `recipient` is not completed. The query is directed: a challenge the
      other way round does not count. */
  predicate HasOpenChallenge(fcs: map<Key, FriendChallenge>, challenger: UserId, recipient: UserId)
  {
    exists k | k in fcs :: fcs[k].challenger == challenger && fcs[k].recipient == recipient && !fcs[k].completed
  }

  /** The rule creation enforces: at most one open challenge per ordered
      (challenger, recipient) pair. */
  ghost predicate AtMostOneOpen(fcs: map<Key, FriendChallenge>)
  {
    forall k1, k2 | k1 in fcs && k2 in fcs && !fcs[k1].completed && !fcs[k2].completed
                    && fcs[k1].challenger == fcs[k2].challenger && fcs[k1].recipient == fcs[k2].recipient
      :: k1 == k2
  }

  /** Adding a challenge for a pair with nothing open keeps the rule. */
  lemma AddKeepsOneOpen(fcs: map<Key, FriendChallenge>, key: Key, c: FriendChallenge)
    requires AtMostOneOpen(fcs) && key !in fcs
    requires !HasOpenChallenge(fcs, c.challenger, c.recipient)
    ensures AtMostOneOpen(fcs[key := c])
  {
    var after := fcs[key := c];
    forall k | k in fcs && fcs[k].challenger == c.challenger && fcs[k].recipient == c.recipient
      ensures fcs[k].completed
    {
    }
    forall k1, k2 | k1 in after && k2 in after && !after[k1].completed && !after[k2].completed
                    && after[k1].challenger == after[k2].challenger && after[k1].recipient == after[k2].recipient
      ensures k1 == k2
    {
      if k1 != key && k2 != key {
        assert fcs[k1] == after[k1] && fcs[k2] == after[k2];
      }
    }
  }

  /** Changing only the `accepted` flag, or deleting a challenge, keeps the rule. */
  lemma AcceptOrDeleteKeepsOneOpen(fcs: map<Key, FriendChallenge>, id: Key)
    requires AtMostOneOpen(fcs)
    ensures id in fcs ==> AtMostOneOpen(fcs[id := fcs[id].(accepted := true)])
    ensures AtMostOneOpen(fcs - {id})
  {
    if id in fcs {
      var after := fcs[id := fcs[id].(accepted := true)];
      forall k1, k2 | k1 in after && k2 in after && !after[k1].completed && !after[k2].completed
                      && after[k1].challenger == after[k2].challenger && after[k1].recipient == after[k2].recipient
        ensures k1 == k2
      {
        assert !fcs[k1].completed && !fcs[k2].completed;
        assert fcs[k1].challenger == fcs[k2].challenger && fcs[k1].recipient == fcs[k2].recipient;
      }
    }
  }

  // ---------------------------------------------------------------- creation

  /** The document both creation handlers add. */
  function NewFriendChallenge(challenger: UserId, recipient: UserId, duration: int, locations: seq<string>,
                              rLoc: real, rGoal: real, wager: int, now: int): FriendChallenge
    requires 0.0 <= rLoc < 1.0 && 0.0 <= rGoal < 1.0
  {
    FriendChallenge(challenger, recipient, duration, now, PickLocation(locations, rLoc), PickGoal(rGoal),
                    wager, false, false, [])
  }

  function RequestMessage(name: string): string
  {
    "You received a challenge from " + name
  }

  datatype CreateResult = AlreadyPending | NotEnoughCoins | RequestSent

  /** `collection("friendChallenges").add(c)`: the document gets a new key. */
  method AddDocument(db: Database, c: FriendChallenge) returns (key: Key)
    requires db.Valid()
    modifies db`friendChallenges, db`nextKey
    ensures db.Valid()
    ensures key == old(db.nextKey) && key !in old(db.friendChallenges)
    ensures db.nextKey == key + 1
    ensures db.friendChallenges == old(db.friendChallenges)[key := c]
  {
    key := db.nextKey;
    db.nextKey := db.nextKey + 1;
    db.friendChallenges := db.friendChallenges[key := c];
  }

  /** The tail both creation handlers share: add the challenge under a fresh
      key and notify the recipient, under the next key, that the challenger
      (display name `name`) sent it. */
  method SendChallenge(db: Database, c: FriendChallenge, name: string, now: int) returns (key: Key)
    requires db.Valid()
    requires !HasOpenChallenge(db.friendChallenges, c.challenger, c.recipient) && !c.completed
    modifies db`friendChallenges, db`notifications, db`nextKey
    ensures db.Valid()
    ensures key == old(db.nextKey) && key !in old(db.friendChallenges)
    ensures db.friendChallenges == old(db.friendChallenges)[key := c]
    ensures db.nextKey == key + 2
    ensures db.notifications == Push(old(db.notifications), c.recipient, key + 1,
              NewNotification(RequestMessage(name), RequestCategory, KeyData(key), now))
    ensures HasOpenChallenge(db.friendChallenges, c.challenger, c.recipient)
    ensures AtMostOneOpen(old(db.friendChallenges)) ==> AtMostOneOpen(db.friendChallenges)
  {
    if AtMostOneOpen(db.friendChallenges) {
      AddKeepsOneOpen(db.friendChallenges, db.nextKey, c);
    }
    key := AddDocument(db, c);
    assert db.friendChallenges[key] == c;
    SaveNotification(db, c.recipient, RequestMessage(name), RequestCategory, KeyData(key), now);
  }

  /** The deducting variant's balance check: a stored balance (0 when absent)
      below the wager refuses; otherwise the balance minus the wager is
      written back, unclamped. */
  method DeductWager(db: Database, userID: UserId, wager: int) returns (ok: bool)
    requires db.Valid()
    modifies db`users
    ensures db.Valid()
    ensures ok <==> Balance(old(db.users), userID) >= wager
    ensures ok ==> db.users == SetCoins(old(db.users), userID, Balance(old(db.users), userID) - wager)
    ensures !ok ==> db.users == old(db.users)
  {
    var coins := Balance(db.users, userID);
    if coins < wager {
      return false;
    }
    coins := coins - wager;
    db.users := SetCoins(db.users, userID, coins);
    ok := true;
  }

  /** newCreateFriendChallengeAsync. Nothing is written when the pair already
      has an open challenge; otherwise a 120-second challenge is added under a
      new key and the recipient is notified under the next one. Balances are
      not touched. */
  method NewCreateFriendChallenge(db: Database, userID: UserId, friendID: UserId, wager: int,
                                  rLoc: real, rGoal: real, now: int) returns (r: CreateResult)
    requires db.Valid()
    requires 0.0 <= rLoc < 1.0 && 0.0 <= rGoal < 1.0
    modifies db`friendChallenges, db`notifications, db`nextKey
    ensures db.Valid()
    ensures r != NotEnoughCoins
    ensures r == AlreadyPending <==> HasOpenChallenge(old(db.friendChallenges), userID, friendID)
    ensures r == AlreadyPending ==>
              db.friendChallenges == old(db.friendChallenges)
              && db.notifications == old(db.notifications) && db.nextKey == old(db.nextKey)
    ensures r == RequestSent ==>
              var key := old(db.nextKey);
              && key !in old(db.friendChallenges)
              && db.friendChallenges == old(db.friendChallenges)[key :=
                   NewFriendChallenge(userID, friendID, NewDuration, db.locations, rLoc, rGoal, wager, now)]
              && db.nextKey == key + 2
              && db.notifications == Push(old(db.notifications), friendID, key + 1,
                   NewNotification(RequestMessage(DisplayName(db.users, userID)), RequestCategory, KeyData(key), now))
              && HasOpenChallenge(db.friendChallenges, userID, friendID)
    ensures AtMostOneOpen(old(db.friendChallenges)) ==> AtMostOneOpen(db.friendChallenges)
  {
    if HasOpenChallenge(db.friendChallenges, userID, friendID) {
      return AlreadyPending;
    }
    var challenge := NewFriendChallenge(userID, friendID, NewDuration, db.locations, rLoc, rGoal, wager, now);
    var _ := SendChallenge(db, challenge, DisplayName(db.users, userID), now);
    r := RequestSent;
  }

  /** createFriendChallengeAsync, the deducting variant. Nothing is written
      when the pair already has an open challenge, nor when the stored balance
      (0 when absent) is below the wager. Otherwise the balance minus the
      wager is written, unclamped; then a 180-second challenge is added under a
      new key and the recipient is notified under the next one. */
  method CreateFriendChallenge(db: Database, userID: UserId, friendID: UserId, wager: int,
                               rLoc: real, rGoal: real, now: int) returns (r: CreateResult)
    requires db.Valid()
    requires 0.0 <= rLoc < 1.0 && 0.0 <= rGoal < 1.0
    modifies db`users, db`friendChallenges, db`notifications, db`nextKey
    ensures db.Valid()
    ensures r == AlreadyPending <==> HasOpenChallenge(old(db.friendChallenges), userID, friendID)
    ensures r == NotEnoughCoins <==>
              !HasOpenChallenge(old(db.friendChallenges), userID, friendID) && Balance(old(db.users), userID) < wager
    ensures r != RequestSent ==>
              && db.users == old(db.users) && db.friendChallenges == old(db.friendChallenges)
              && db.notifications == old(db.notifications) && db.nextKey == old(db.nextKey)
    ensures r == RequestSent ==>
              var key := old(db.nextKey);
              && key !in old(db.friendChallenges)
              && db.users == SetCoins(old(db.users), userID, Balance(old(db.users), userID) - wager)
              && db.friendChallenges == old(db.friendChallenges)[key :=
                   NewFriendChallenge(userID, friendID, DeductingDuration, db.locations, rLoc, rGoal, wager, now)]
              && db.nextKey == key + 2
              && db.notifications == Push(old(db.notifications), friendID, key + 1,
                   NewNotification(RequestMessage(DisplayName(old(db.users), userID)), RequestCategory, KeyData(key), now))
              && HasOpenChallenge(db.friendChallenges, userID, friendID)
    ensures AtMostOneOpen(old(db.friendChallenges)) ==> AtMostOneOpen(db.friendChallenges)
  {
    if HasOpenChallenge(db.friendChallenges, userID, friendID) {
      return AlreadyPending;
    }
    // The coins write leaves the display name as it was, so it may be read first.
    var name := DisplayName(db.users, userID);
    var ok := DeductWager(db, userID, wager);
    if !ok {
      return NotEnoughCoins;
    }
    var challenge := NewFriendChallenge(userID, friendID, DeductingDuration, db.locations, rLoc, rGoal, wager, now);
    var _ := SendChallenge(db, challenge, name, now);
    r := RequestSent;
  }

  // ---------------------------------------------------------------- accept, decline, view

  datatype Reply = InvalidChallenge | NotRecipient | NotEnoughToMatch | Replied

  function AcceptedMessage(name: string): string
  {
    name + " accepted your challenge!"
  }

  function DeclinedMessage(name: string): string
  {
    name + " declined your challenge."
  }

  /** `doc.ref.update({accepted: true})` on a stored challenge. */
  method MarkAccepted(db: Database, challengeID: Key)
    requires db.Valid() && challengeID in db.friendChallenges
    modifies db`friendChallenges
    ensures db.Valid()
    ensures db.friendChallenges == old(db.friendChallenges)[challengeID := old(db.friendChallenges)[challengeID].(accepted := true)]
    ensures AtMostOneOpen(old(db.friendChallenges)) ==> AtMostOneOpen(db.friendChallenges)
  {
    if AtMostOneOpen(db.friendChallenges) {
      AcceptOrDeleteKeepsOneOpen(db.friendChallenges, challengeID);
    }
    var c := db.friendChallenges[challengeID];
    db.friendChallenges := db.friendChallenges[challengeID := c.(accepted := true)];
  }

  /** Nothing rejects a negative wager: the deducting create lets it through
      the `coins < wager` test and writes `coins - wager`, so the challenger
      gains coins. */
  method NegativeWagerCredits(db: Database, userID: UserId, friendID: UserId, wager: int,
                              rLoc: real, rGoal: real, now: int) returns (r: CreateResult)
    requires db.Valid()
    requires 0.0 <= rLoc < 1.0 && 0.0 <= rGoal < 1.0
    requires wager < 0
    requires !HasOpenChallenge(db.friendChallenges, userID, friendID)
    modifies db`users, db`friendChallenges, db`notifications, db`nextKey
    ensures r == RequestSent
    ensures Balance(db.users, userID) == old(Balance(db.users, userID)) - wager > old(Balance(db.users, userID))
  {
    r := CreateFriendChallenge(db, userID, friendID, wager, rLoc, rGoal, now);
  }

  /** acceptFriendChallengesAsync. An unknown id or a caller other than the
      recipient changes nothing. Otherwise, with `deduct`, the wager is taken
      from the recipient through addCoins (which clamps at 0 and always reports
      success, so the "not enough coins" answer never comes); the challenge is
      marked accepted and the challenger notified. Nothing stops a second
      acceptance. */
  method AcceptFriendChallenge(db: Database, userID: UserId, challengeID: Key, deduct: bool, now: int)
    returns (r: Reply)
    requires db.Valid()
    modifies db`users, db`friendChallenges, db`notifications, db`nextKey
    ensures db.Valid()
    ensures r != NotEnoughToMatch
    ensures r == InvalidChallenge <==> challengeID !in old(db.friendChallenges)
    ensures r == NotRecipient <==>
              challengeID in old(db.friendChallenges) && old(db.friendChallenges)[challengeID].recipient != userID
    ensures r != Replied ==>
              && db.users == old(db.users) && db.friendChallenges == old(db.friendChallenges)
              && db.notifications == old(db.notifications) && db.nextKey == old(db.nextKey)
    ensures r == Replied ==>
              var c := old(db.friendChallenges)[challengeID];
              && db.users == (if deduct then Credit(old(db.users), userID, -c.wager) else old(db.users))
              && db.friendChallenges == old(db.friendChallenges)[challengeID := c.(accepted := true)]
              && db.nextKey == old(db.nextKey) + 1
              && db.notifications == Push(old(db.notifications), c.challenger, old(db.nextKey),
                   NewNotification(AcceptedMessage(DisplayName(old(db.users), userID)), RequestCategory,
                                   KeyData(challengeID), now))
    ensures AtMostOneOpen(old(db.friendChallenges)) ==> AtMostOneOpen(db.friendChallenges)
  {
    if challengeID !in db.friendChallenges {
      return InvalidChallenge;
    }
    var c := db.friendChallenges[challengeID];
    if c.recipient != userID {
      return NotRecipient;
    }
    var coinsChanged := MatchWager(db, userID, c.wager, deduct);
    if !coinsChanged {
      return NotEnoughToMatch;
    }
    var name := DisplayName(db.users, userID);
    MarkAccepted(db, challengeID);
    SaveNotification(db, c.challenger, AcceptedMessage(name), RequestCategory, KeyData(challengeID), now);
    r := Replied;
  }

  /** The recipient's side of the wager: with `deduct`, addCoins(recipient,
      -wager), whose answer is always true; without it, nothing. */
  method MatchWager(db: Database, userID: UserId, wager: int, deduct: bool) returns (coinsChanged: bool)
    requires db.Valid()
    modifies db`users
    ensures db.Valid()
    ensures coinsChanged
    ensures db.users == (if deduct then Credit(old(db.users), userID, -wager) else old(db.users))
    ensures DisplayName(db.users, userID) == DisplayName(old(db.users), userID)
  {
    coinsChanged := true;
    if deduct {
      CoinsKeepDisplayNames(db.users, userID, 0, -wager, userID);
      coinsChanged := AddCoins(db, userID, -wager);
    }
  }

  /** `doc.ref.delete()` on a stored challenge. */
  method DeleteChallenge(db: Database, challengeID: Key)
    requires db.Valid()
    modifies db`friendChallenges
    ensures db.Valid()
    ensures db.friendChallenges == old(db.friendChallenges) - {challengeID}
    ensures AtMostOneOpen(old(db.friendChallenges)) ==> AtMostOneOpen(db.friendChallenges)
  {
    if AtMostOneOpen(db.friendChallenges) {
      AcceptOrDeleteKeepsOneOpen(db.friendChallenges, challengeID);
    }
    db.friendChallenges := db.friendChallenges - {challengeID};
  }

  /** declineFriendChallengesAsync. An unknown id or a caller other than the
      recipient changes nothing. Otherwise, with `deduct`, the wager goes back
      to the challenger; the challenge is deleted and the challenger notified
      (with no document key, as the document is gone). */
  method DeclineFriendChallenge(db: Database, userID: UserId, challengeID: Key, deduct: bool, now: int)
    returns (r: Reply)
    requires db.Valid()
    modifies db`users, db`friendChallenges, db`notifications, db`nextKey
    ensures db.Valid()
    ensures r == InvalidChallenge <==> challengeID !in old(db.friendChallenges)
    ensures r == NotRecipient <==>
              challengeID in old(db.friendChallenges) && old(db.friendChallenges)[challengeID].recipient != userID
    ensures r != NotEnoughToMatch
    ensures r != Replied ==>
              && db.users == old(db.users) && db.friendChallenges == old(db.friendChallenges)
              && db.notifications == old(db.notifications) && db.nextKey == old(db.nextKey)
    ensures r == Replied ==>
              var c := old(db.friendChallenges)[challengeID];
              && db.users == (if deduct then Credit(old(db.users), c.challenger, c.wager) else old(db.users))
              && db.friendChallenges == old(db.friendChallenges) - {challengeID}
              && db.nextKey == old(db.nextKey) + 1
              && db.notifications == Push(old(db.notifications), c.challenger, old(db.nextKey),
                   NewNotification(DeclinedMessage(DisplayName(old(db.users), userID)), RequestCategory, NoData, now))
    ensures AtMostOneOpen(old(db.friendChallenges)) ==> AtMostOneOpen(db.friendChallenges)
  {
    if challengeID !in db.friendChallenges {
      return InvalidChallenge;
    }
    var c := db.friendChallenges[challengeID];
    if c.recipient != userID {
      return NotRecipient;
    }
    if deduct {
      CoinsKeepDisplayNames(db.users, c.challenger, 0, c.wager, userID);
      var _ := AddCoins(db, c.challenger, c.wager);
    }
    var name := DisplayName(db.users, userID);
    assert name == DisplayName(old(db.users), userID);
    DeleteChallenge(db, challengeID);
    SaveNotification(db, c.challenger, DeclinedMessage(name), RequestCategory, NoData, now);
    r := Replied;
  }

  datatype View = InvalidId | NoPermission | Visible(challenge: FriendChallenge)

  /** getFriendChallengeByIDAsync: a challenge is shown to its two participants
      only. */
  function ViewFriendChallenge(fcs: map<Key, FriendChallenge>, userID: UserId, challengeID: Key): (v: View)
    ensures v == InvalidId <==> challengeID !in fcs
    ensures v.Visible? <==>
              challengeID in fcs && (fcs[challengeID].challenger == userID || fcs[challengeID].recipient == userID)
    ensures v.Visible? ==> v.challenge == fcs[challengeID]
  {
    if challengeID !in fcs then InvalidId
    else
      var c := fcs[challengeID];
      if c.challenger != userID && c.recipient != userID then NoPermission else Visible(c)
  }

  // ---------------------------------------------------------------- the duel

  datatype Duel = Win(winner: UserId, loser: UserId) | Draw

  /** The metric of a friend score under a goal. */
  function DuelValue(goal: Goal, s: FriendScore): real
  {
    GoalValue(goal, s.fishCaught, s.totalWeight)
  }

  /** scoreCompletedFriendChallengeAsync's comparison: only `scores[0]` and
      `scores[1]` take part, and a strictly greater value wins. */
  function DuelOutcome(goal: Goal, scores: seq<FriendScore>): (d: Duel)
    requires |scores| >= 2
    ensures d == Draw <==> DuelValue(goal, scores[0]) == DuelValue(goal, scores[1])
    ensures DuelValue(goal, scores[0]) > DuelValue(goal, scores[1]) ==> d == Win(scores[0].playerID, scores[1].playerID)
    ensures DuelValue(goal, scores[1]) > DuelValue(goal, scores[0]) ==> d == Win(scores[1].playerID, scores[0].playerID)
  {
    var score1 := DuelValue(goal, scores[0]);
    var score2 := DuelValue(goal, scores[1]);
    if score1 > score2 then Win(scores[0].playerID, scores[1].playerID)
    else if score2 > score1 then Win(scores[1].playerID, scores[0].playerID)
    else Draw
  }

  /** The duel is a draw exactly when the two first values are equal, and
      otherwise the holder of the greater one wins against the other; scores
      after the second never matter. */
  lemma DuelOutcomeDecided(goal: Goal, scores: seq<FriendScore>, extra: seq<FriendScore>)
    requires |scores| >= 2
    ensures var v0, v1 := DuelValue(goal, scores[0]), DuelValue(goal, scores[1]);
            && (DuelOutcome(goal, scores) == Draw <==> v0 == v1)
            && (DuelOutcome(goal, scores) == Win(scores[0].playerID, scores[1].playerID) <== v0 > v1)
            && (DuelOutcome(goal, scores) == Win(scores[1].playerID, scores[0].playerID) <== v1 > v0)
            && (DuelOutcome(goal, scores).Win? ==>
                  {DuelOutcome(goal, scores).winner, DuelOutcome(goal, scores).loser}
                  == {scores[0].playerID, scores[1].playerID})
            && DuelOutcome(goal, scores + extra) == DuelOutcome(goal, scores)
  {
    assert (scores + extra)[0] == scores[0] && (scores + extra)[1] == scores[1];
  }

  /** The balances after the duel: the winner is credited the wager once,
      whatever `deduct` says; on a draw both players get the wager back, and
      only when `deduct` is set. */
  function DuelCredits(users: map<UserId, UserRecord>, goal: Goal, scores: seq<FriendScore>, wager: int, deduct: bool)
    : (r: map<UserId, UserRecord>)
    requires |scores| >= 2
    ensures users.Keys <= r.Keys
    ensures forall w | w in users && w != scores[0].playerID && w != scores[1].playerID :: r[w] == users[w]
    ensures !deduct && DuelOutcome(goal, scores) == Draw ==> r == users
  {
    match DuelOutcome(goal, scores)
    case Win(winner, _) => Credit(users, winner, wager)
    case Draw => if deduct then Credit(Credit(users, scores[0].playerID, wager), scores[1].playerID, wager) else users
  }

  function WinMessage(wager: int): string
  {
    "You won the friend challenge and received " + IntText(wager) + " coins."
  }

  const LossMessage := "You lost the friend challenge and received no coins."
  const DrawMessage := "Friend challenge was a draw!"

  /** The notifications after the duel: two, under consecutive keys, to the
      winner then the loser, or to both players on a draw. */
  function DuelNotes(notes: map<UserId, map<Key, Notification>>, key: Key, goal: Goal, scores: seq<FriendScore>,
                     challengeID: Key, wager: int, now: int): map<UserId, map<Key, Notification>>
    requires |scores| >= 2
  {
    match DuelOutcome(goal, scores)
    case Win(winner, loser) =>
      Push(Push(notes, winner, key, NewNotification(WinMessage(wager), ResultCategory, KeyData(challengeID), now)),
           loser, key + 1, NewNotification(LossMessage, ResultCategory, KeyData(challengeID), now))
    case Draw =>
      Push(Push(notes, scores[0].playerID, key, NewNotification(DrawMessage, ResultCategory, KeyData(challengeID), now)),
           scores[1].playerID, key + 1, NewNotification(DrawMessage, ResultCategory, KeyData(challengeID), now))
  }

  /** On a win the winner gains exactly the wager and nobody else's record
      changes; the loser gets nothing. */
  lemma WinnerPaidOnce(users: map<UserId, UserRecord>, goal: Goal, scores: seq<FriendScore>, wager: int, deduct: bool)
    requires |scores| >= 2 && DuelOutcome(goal, scores).Win?
    requires Balance(users, DuelOutcome(goal, scores).winner) >= 0 && wager >= 0
    ensures var w := DuelOutcome(goal, scores).winner;
            var after := DuelCredits(users, goal, scores, wager, deduct);
            && Balance(after, w) == Balance(users, w) + wager
            && (forall u | u in users && u != w :: u in after && after[u] == users[u])
  {
    var w := DuelOutcome(goal, scores).winner;
    CreditEffect(users, w, wager);
  }

  /** On a draw, without `deduct` no balance changes; with it each of two
      distinct players gains exactly the wager. */
  lemma DrawRefunds(users: map<UserId, UserRecord>, goal: Goal, scores: seq<FriendScore>, wager: int, deduct: bool)
    requires |scores| >= 2 && DuelOutcome(goal, scores) == Draw
    requires scores[0].playerID != scores[1].playerID
    requires Balance(users, scores[0].playerID) >= 0 && Balance(users, scores[1].playerID) >= 0 && wager >= 0
    ensures !deduct ==> DuelCredits(users, goal, scores, wager, deduct) == users
    ensures deduct ==>
              var after := DuelCredits(users, goal, scores, wager, deduct);
              && Balance(after, scores[0].playerID) == Balance(users, scores[0].playerID) + wager
              && Balance(after, scores[1].playerID) == Balance(users, scores[1].playerID) + wager
  {
    if deduct {
      var p0, p1 := scores[0].playerID, scores[1].playerID;
      var once := Credit(users, p0, wager);
      CreditEffect(users, p0, wager);
      assert Balance(once, p1) == Balance(users, p1);
      CreditEffect(once, p1, wager);
    }
  }

  /** The deducting lifecycle: the challenger pays the wager on creation, the
      recipient on acceptance, and the winner is credited the wager once. With
      both able to pay, the winner ends where they started and the loser is
      down one wager: the stakes are never paid out twice. */
  lemma DeductingDuelNet(users: map<UserId, UserRecord>, challenger: UserId, recipient: UserId, wager: int,
                         challengerWins: bool)
    requires challenger != recipient && wager >= 0
    requires Balance(users, challenger) >= wager && Balance(users, recipient) >= wager
    ensures var created := SetCoins(users, challenger, Balance(users, challenger) - wager);
            var accepted := Credit(created, recipient, -wager);
            var settled := Credit(accepted, if challengerWins then challenger else recipient, wager);
            && Balance(settled, challenger) == Balance(users, challenger) - (if challengerWins then 0 else wager)
            && Balance(settled, recipient) == Balance(users, recipient) - (if challengerWins then wager else 0)
  {
    var created := SetCoins(users, challenger, Balance(users, challenger) - wager);
    assert Balance(created, recipient) == Balance(users, recipient);
    var accepted := Credit(created, recipient, -wager);
    CreditEffect(created, recipient, -wager);
    assert Balance(accepted, challenger) == Balance(users, challenger) - wager;
    var w := if challengerWins then challenger else recipient;
    CreditEffect(accepted, w, wager);
  }

  // ---------------------------------------------------------------- submission

  /** `scores.find(e => e.playerID === userID)` finds an entry. */
  predicate HasScoreFrom(scores: seq<FriendScore>, u: UserId)
  {
    exists i | 0 <= i < |scores| :: scores[i].playerID == u
  }

  /** The document after a score is appended: `completed` is whether the list
      now holds exactly two scores. */
  function WithScore(c: FriendChallenge, s: FriendScore): (d: FriendChallenge)
    ensures d.scores == c.scores + [s]
    ensures d.completed <==> |c.scores| == 1
    ensures d.(scores := c.scores, completed := c.completed) == c
  {
    c.(scores := c.scores + [s], completed := |c.scores| + 1 == 2)
  }

  /** Submission does not check that the caller takes part, so a third player
      can submit to a completed duel: the challenge is reopened, and the
      settlement that follows decides the same duel again. */
  lemma ThirdSubmissionReopens(c: FriendChallenge, s: FriendScore)
    requires |c.scores| == 2
    ensures !WithScore(c, s).completed
    ensures DuelOutcome(c.goal, WithScore(c, s).scores) == DuelOutcome(c.goal, c.scores)
  {
    DuelOutcomeDecided(c.goal, c.scores, [s]);
  }

  /** A reopened duel breaks the one-open-challenge rule: with a finished duel
      between a and b and a new open one between them, a third submission to
      the finished one leaves two open challenges for the pair. */
  lemma ThirdSubmissionBreaksOneOpen()
    ensures var a0 := FriendScore("a", None, 3, 1.0, 0);
            var b0 := FriendScore("b", None, 1, 1.0, 0);
            var done := FriendChallenge("a", "b", NewDuration, 0, None, Fish, 10, true, true, [a0, b0]);
            var opened_ := FriendChallenge("a", "b", NewDuration, 1, None, Fish, 10, false, false, []);
            var fcs := map[0 := done, 1 := opened_];
            var third := FriendScore("c", None, 5, 1.0, 2);
            && AtMostOneOpen(fcs)
            && !AtMostOneOpen(fcs[0 := WithScore(done, third)])
  {
    var a0 := FriendScore("a", None, 3, 1.0, 0);
    var b0 := FriendScore("b", None, 1, 1.0, 0);
    var done := FriendChallenge("a", "b", NewDuration, 0, None, Fish, 10, true, true, [a0, b0]);
    var opened_ := FriendChallenge("a", "b", NewDuration, 1, None, Fish, 10, false, false, []);
    var fcs := map[0 := done, 1 := opened_];
    var third := FriendScore("c", None, 5, 1.0, 2);
    var after := fcs[0 := WithScore(done, third)];
    assert !after[0].completed && !after[1].completed;
    assert after[0].challenger == after[1].challenger && after[0].recipient == after[1].recipient;
  }

  /** scoreCompletedFriendChallengeAsync: nothing with fewer than two scores;
      otherwise compare the first two and pay and notify as `DuelCredits` and
      `DuelNotes` say. `c` is the document as read before the score was added. */
  method SettleDuel(db: Database, challengeID: Key, c: FriendChallenge, scores: seq<FriendScore>, deduct: bool, now: int)
    requires db.Valid()
    modifies db`users, db`notifications, db`nextKey
    ensures db.Valid()
    ensures |scores| < 2 ==>
              db.users == old(db.users) && db.notifications == old(db.notifications) && db.nextKey == old(db.nextKey)
    ensures |scores| >= 2 ==>
              && db.users == DuelCredits(old(db.users), c.goal, scores, c.wager, deduct)
              && db.nextKey == old(db.nextKey) + 2
              && db.notifications == DuelNotes(old(db.notifications), old(db.nextKey), c.goal, scores,
                                               challengeID, c.wager, now)
  {
    if |scores| < 2 {
      return;
    }
    PayDuel(db, c.goal, scores, c.wager, deduct);
    NotifyDuel(db, challengeID, c.goal, scores, c.wager, now);
  }

  /** The addCoins calls of the settlement: the winner's, or on a draw with
      `deduct` both players' refunds. */
  method PayDuel(db: Database, goal: Goal, scores: seq<FriendScore>, wager: int, deduct: bool)
    requires |scores| >= 2 && db.Valid()
    modifies db`users
    ensures db.Valid()
    ensures db.users == DuelCredits(old(db.users), goal, scores, wager, deduct)
  {
    match DuelOutcome(goal, scores)
    case Win(winnerID, _) =>
      var _ := AddCoins(db, winnerID, wager);
    case Draw =>
      if deduct {
        var _ := AddCoins(db, scores[0].playerID, wager);
        var _ := AddCoins(db, scores[1].playerID, wager);
      }
  }

  /** The two saveNotification calls of the settlement. */
  method NotifyDuel(db: Database, challengeID: Key, goal: Goal, scores: seq<FriendScore>, wager: int, now: int)
    requires |scores| >= 2 && db.Valid()
    modifies db`notifications, db`nextKey
    ensures db.Valid()
    ensures db.nextKey == old(db.nextKey) + 2
    ensures db.notifications == DuelNotes(old(db.notifications), old(db.nextKey), goal, scores, challengeID, wager, now)
  {
    match DuelOutcome(goal, scores)
    case Win(winnerID, loserID) =>
      SaveNotification(db, winnerID, WinMessage(wager), ResultCategory, KeyData(challengeID), now);
      SaveNotification(db, loserID, LossMessage, ResultCategory, KeyData(challengeID), now);
    case Draw =>
      SaveNotification(db, scores[0].playerID, DrawMessage, ResultCategory, KeyData(challengeID), now);
      SaveNotification(db, scores[1].playerID, DrawMessage, ResultCategory, KeyData(challengeID), now);
  }

  datatype FriendSubmitResult = UnrecognizedChallenge | NotAccepted | AlreadySubmitted | UnrecognizedUser | ScoreSaved

  /** saveFriendChallengeScoreAsync. The checks run in order (unknown
      challenge, not accepted, a score with the caller's id, unknown user) and
      each failure writes nothing. Otherwise the caller's score is appended,
      `completed` set to whether there are now two scores, and the duel
      settled on the new list. */
  method SubmitFriendScore(db: Database, userID: UserId, challengeID: Key, fishCaught: int, totalWeight: real,
                           deduct: bool, now: int) returns (r: FriendSubmitResult)
    requires db.Valid()
    modifies db`users, db`friendChallenges, db`notifications, db`nextKey
    ensures db.Valid()
    ensures var fcs := old(db.friendChallenges);
            && (r == UnrecognizedChallenge <==> challengeID !in fcs)
            && (r == NotAccepted <==> challengeID in fcs && !fcs[challengeID].accepted)
            && (r == AlreadySubmitted <==>
                  challengeID in fcs && fcs[challengeID].accepted && HasScoreFrom(fcs[challengeID].scores, userID))
            && (r == UnrecognizedUser <==>
                  challengeID in fcs && fcs[challengeID].accepted && !HasScoreFrom(fcs[challengeID].scores, userID)
                  && userID !in old(db.users))
    ensures r != ScoreSaved ==>
              && db.users == old(db.users) && db.friendChallenges == old(db.friendChallenges)
              && db.notifications == old(db.notifications) && db.nextKey == old(db.nextKey)
    ensures r == ScoreSaved ==>
              var c := old(db.friendChallenges)[challengeID];
              var s := FriendScore(userID, old(db.users)[userID].displayName, fishCaught, totalWeight, now);
              var scores := c.scores + [s];
              && db.friendChallenges == old(db.friendChallenges)[challengeID := WithScore(c, s)]
              && (|scores| < 2 ==>
                    db.users == old(db.users) && db.notifications == old(db.notifications)
                    && db.nextKey == old(db.nextKey))
              && (|scores| >= 2 ==>
                    && db.users == DuelCredits(old(db.users), c.goal, scores, c.wager, deduct)
                    && db.nextKey == old(db.nextKey) + 2
                    && db.notifications == DuelNotes(old(db.notifications), old(db.nextKey), c.goal, scores,
                                                     challengeID, c.wager, now))
  {
    if challengeID !in db.friendChallenges {
      return UnrecognizedChallenge;
    }
    var c := db.friendChallenges[challengeID];
    if !c.accepted {
      return NotAccepted;
    }
    if HasScoreFrom(c.scores, userID) {
      return AlreadySubmitted;
    }
    if userID !in db.users {
      return UnrecognizedUser;
    }
    var s := FriendScore(userID, db.users[userID].displayName, fishCaught, totalWeight, now);
    var scores := c.scores + [s];
    db.friendChallenges := db.friendChallenges[challengeID := WithScore(c, s)];
    SettleDuel(db, challengeID, c, scores, deduct, now);
    r := ScoreSaved;
  }
}
