/** The records the handlers read and write, and the database that holds them.
    Each field of `Database` stands for one path of the Realtime Database or
    one Firestore collection; a handler changes the fields it writes and
    no others. */
module Store {
  import opened Common

  /** `users/<id>`: the fields the economy reads. An absent field is None. */
  datatype UserRecord = UserRecord(coins: Option<int>, displayName: Option<string>, lootBoxes: Option<int>)

  const EmptyUser := UserRecord(None, None, None)

  /** The three challenge paths the code names. `challenges/proTournaments`
      is only ever read by the pro sweep. */
  datatype Namespace = HourlyPath | ProTournamentPath | ProTournamentsPath

  /** A timed ranked challenge (hourly challenge or pro tournament). */
  datatype Challenge = Challenge(
    duration: int,
    startDate: int,
    endDate: int,
    location: Option<string>,
    goal: Goal,
    maxReward: int,
    completed: bool,
    customText: string)

  /** `challengesScores/<challenge>/<user>`; coins is written at settlement. */
  datatype Score = Score(playerName: Option<string>, fishCaught: int, totalWeight: real, date: int, coins: Option<int>)

  /** One entry of a friend challenge's `scores` array. */
  datatype FriendScore = FriendScore(playerID: UserId, playerName: Option<string>, fishCaught: int, totalWeight: real, date: int)

  /** A document of the Firestore collection `friendChallenges`. */
  datatype FriendChallenge = FriendChallenge(
    challenger: UserId,
    recipient: UserId,
    duration: int,
    startDate: int,
    location: Option<string>,
    goal: Goal,
    wager: int,
    accepted: bool,
    completed: bool,
    scores: seq<FriendScore>)

  /** The `data` string of a notification: a document key, or "". */
  datatype NoteData = NoData | KeyData(key: Key)

  /** `notifications/<user>/<pushKey>`. */
  datatype Notification = Notification(category: string, message: string, date: int, dismissed: bool, data: NoteData)

  /** `friendRequests/<recipient>/<sender>`. */
  datatype FriendRequest = FriendRequest(senderName: Option<string>, dismissed: bool, date: int)

  datatype CaughtFish = CaughtFish(name: string, ounces: real)

  datatype FishStats = FishStats(totalCaught: int, totalOunces: real)

  /** `userStats/<user>`. */
  datatype UserStats = UserStats(
    biggestCatch: CaughtFish,
    totalCasts: int,
    totalCatches: int,
    totalOunces: real,
    catchesByFish: map<string, FishStats>)

  /** Every stored balance is non-negative. */
  ghost predicate BalancesNonNegative(users: map<UserId, UserRecord>)
  {
    forall u | u in users && users[u].coins.Some? :: users[u].coins.value >= 0
  }

  /** Every key below `bound`: keys drawn from the counter afterwards are fresh. */
  ghost predicate KeysBelow<V>(m: map<Key, V>, bound: nat)
  {
    forall k | k in m :: k < bound
  }

  /** Every key of every user's entries below `bound`. */
  ghost predicate AllKeysBelow<V>(m: map<UserId, map<Key, V>>, bound: nat)
  {
    forall u | u in m :: KeysBelow(m[u], bound)
  }

  class Database {
    var users: map<UserId, UserRecord>
    /** Keys of `locations`, in key order. */
    var locations: seq<string>
    var challenges: map<Namespace, map<Key, Challenge>>
    var challengeScores: map<Key, map<UserId, Score>>
    var friendChallenges: map<Key, FriendChallenge>
    /** recipient -> sender -> request */
    var friendRequests: map<UserId, map<UserId, FriendRequest>>
    var friends: map<UserId, seq<UserId>>
    var notifications: map<UserId, map<Key, Notification>>
    /** `fcmRegistrationTokens/<user>`: the device tokens, oldest first. */
    var tokens: map<UserId, seq<string>>
    /** `items`: the item keys of each category, in key order. */
    var itemCatalog: seq<seq<ItemId>>
    /** `userItemUnlocks/<user>/<item>/isEquipped`. */
    var unlocks: map<UserId, map<ItemId, bool>>
    var userStats: map<UserId, UserStats>
    /** The next key `push()`/`add()` hands out. */
    var nextKey: nat

    /** Every balance is non-negative and every generated key lies below the counter. */
    ghost predicate Valid()
      reads this`users, this`friendChallenges, this`challenges, this`notifications, this`nextKey
    {
      && BalancesNonNegative(users)
      && KeysBelow(friendChallenges, nextKey)
      && (forall ns | ns in challenges :: KeysBelow(challenges[ns], nextKey))
      && AllKeysBelow(notifications, nextKey)
    }

    constructor (locations: seq<string>, itemCatalog: seq<seq<ItemId>>)
      ensures Valid()
      ensures this.locations == locations && this.itemCatalog == itemCatalog
      ensures users == map[] && challenges == map[] && challengeScores == map[]
      ensures friendChallenges == map[] && friendRequests == map[] && friends == map[]
      ensures notifications == map[] && tokens == map[] && unlocks == map[] && userStats == map[]
      ensures nextKey == 0
    {
      this.users := map[];
      this.locations := locations;
      this.challenges := map[];
      this.challengeScores := map[];
      this.friendChallenges := map[];
      this.friendRequests := map[];
      this.friends := map[];
      this.notifications := map[];
      this.tokens := map[];
      this.itemCatalog := itemCatalog;
      this.unlocks := map[];
      this.userStats := map[];
      this.nextKey := 0;
    }
  }
}
