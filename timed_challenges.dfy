/** challengeFunctions.ts and proTournamentFunctions.ts: creating an hourly
    challenge, submitting a score, the expiry sweep and the settlement of one
    challenge. The two files differ only in the paths they read and in the
    text of the reward notification, so one model serves both, parameterised
    by `Engine`. */
module TimedChallenges {
  import opened Common
  import opened Store
  import opened Ledger
  import opened Notifications
  import opened Ranking

  // ---------------------------------------------------------------- paths

  /** The path the sweep lists: `challenges/hourly`, or `challenges/proTournaments`
      for the pro sweep. */
  function SweepPath(engine: Engine): Namespace
  {
    if engine == HourlyEngine then HourlyPath else ProTournamentsPath
  }

  /** The path settlement and submission read: `challenges/hourly`, or
      `challenges/proTournament` (singular) for pro tournaments. */
  function SettlePath(engine: Engine): Namespace
  {
    if engine == HourlyEngine then HourlyPath else ProTournamentPath
  }

  /** The pro sweep lists one path and settles from another. */
  lemma ProPathsDiffer()
    ensures SweepPath(ProEngine) != SettlePath(ProEngine)
    ensures SweepPath(HourlyEngine) == SettlePath(HourlyEngine)
  {
  }

  function ChallengesAt(challenges: map<Namespace, map<Key, Challenge>>, ns: Namespace): map<Key, Challenge>
  {
    if ns in challenges then challenges[ns] else map[]
  }

  /** `challengesScores/<id>`, shared by both kinds of challenge. */
  function ScoresOf(scores: map<Key, map<UserId, Score>>, id: Key): map<UserId, Score>
  {
    if id in scores then scores[id] else map[]
  }

  // ---------------------------------------------------------------- creation

  const DayMillis: int := 86400000
  const HourlyDuration: int := 120

  /** `endDate.setHours(23, 59, 59)` on the current time: 23:59:59 of the same
      day, keeping the milliseconds. */
  function EndOfDay(now: int): (end: int)
    ensures now <= end
    ensures end / DayMillis == now / DayMillis
    ensures end % 1000 == now % 1000
  {
    EndOfDayBounds(now);
    now - now % DayMillis + 86399000 + now % 1000
  }

  lemma EndOfDayBounds(now: int)
    ensures var end := now - now % DayMillis + 86399000 + now % 1000;
            && now <= end
            && end / DayMillis == now / DayMillis
            && end % 1000 == now % 1000
  {
    var day := now / DayMillis;
    var m := now % DayMillis;
    var a := m / 1000;
    var b := m % 1000;
    assert m == a * 1000 + b && 0 <= a < 86400;
    DivModThousand(now, day * 86400 + a, b);
    var end := (day * 86400 + 86399) * 1000 + b;
    DivModThousand(end, day * 86400 + 86399, b);
    DivModDay(end, day, 86399000 + b);
  }

  lemma DivModThousand(x: int, q: int, r: int)
    requires x == q * 1000 + r && 0 <= r < 1000
    ensures x / 1000 == q && x % 1000 == r
  {
  }

  lemma DivModDay(x: int, q: int, r: int)
    requires x == q * DayMillis + r && 0 <= r < DayMillis
    ensures x / DayMillis == q && x % DayMillis == r
  {
  }

  /** The challenge createHourlyChallenge writes, for the draws rLoc, rGoal and
      rReward of Math.random(). The location is drawn from the first ten keys
      of `locations`; with no location at all it is absent. */
  function NewChallenge(locations: seq<string>, rLoc: real, rGoal: real, rReward: real, now: int): (c: Challenge)
    requires 0.0 <= rLoc < 1.0 && 0.0 <= rGoal < 1.0 && 0.0 <= rReward < 1.0
    ensures c.maxReward % 5 == 0 && 50 <= c.maxReward <= 95
    ensures |locations| == 0 ==> c.location == None
    ensures |locations| > 0 ==>
              exists i | 0 <= i < |locations| && i < 10 :: c.location == Some(locations[i])
    ensures !c.completed && c.customText == ""
    ensures c.duration == HourlyDuration && c.startDate == now
    ensures now <= c.endDate && c.endDate / DayMillis == now / DayMillis
  {
    var coinMultiple := RandomIndex(rReward, 10) + 10;
    Challenge(HourlyDuration, now, EndOfDay(now), PickLocation(locations, rLoc), PickGoal(rGoal),
              coinMultiple * 5, false, "")
  }

  /** createHourlyChallenge: push the new challenge under a fresh key of
      `challenges/hourly`. */
  method CreateHourlyChallenge(db: Database, rLoc: real, rGoal: real, rReward: real, now: int) returns (key: Key)
    requires db.Valid()
    requires 0.0 <= rLoc < 1.0 && 0.0 <= rGoal < 1.0 && 0.0 <= rReward < 1.0
    modifies db`challenges, db`nextKey
    ensures db.Valid()
    ensures key == old(db.nextKey) && db.nextKey == key + 1
    ensures key !in ChallengesAt(old(db.challenges), HourlyPath)
    ensures db.challenges == old(db.challenges)[HourlyPath :=
              ChallengesAt(old(db.challenges), HourlyPath)[key := NewChallenge(db.locations, rLoc, rGoal, rReward, now)]]
  {
    var challenge := NewChallenge(db.locations, rLoc, rGoal, rReward, now);
    key := db.nextKey;
    db.nextKey := db.nextKey + 1;
    db.challenges := db.challenges[HourlyPath := ChallengesAt(db.challenges, HourlyPath)[key := challenge]];
  }

  // ---------------------------------------------------------------- submission

  datatype SubmitResult = UnrecognizedChallenge | Expired | AlreadySubmitted | UnrecognizedUser | ScoreSaved

  /** saveChallengeScoreAsync / saveProTournamentScoreAsync. The checks run in
      order (unknown challenge, expired, existing score, unknown user) and each
      failure writes nothing; success writes one score under the caller's id,
      named after the user's displayName. Both write to the shared
      `challengesScores/<id>`. */
  method SaveScore(db: Database, engine: Engine, userID: UserId, challengeID: Key,
                   fishCaught: int, totalWeight: real, now: int) returns (r: SubmitResult)
    modifies db`challengeScores
    ensures var challenges := ChallengesAt(db.challenges, SettlePath(engine));
            var scores := ScoresOf(old(db.challengeScores), challengeID);
            && (r == UnrecognizedChallenge <==> challengeID !in challenges)
            && (r == Expired <==> challengeID in challenges && challenges[challengeID].endDate < now)
            && (r == AlreadySubmitted <==>
                  challengeID in challenges && challenges[challengeID].endDate >= now && userID in scores)
            && (r == UnrecognizedUser <==>
                  challengeID in challenges && challenges[challengeID].endDate >= now && userID !in scores
                  && userID !in db.users)
            && (r != ScoreSaved ==> db.challengeScores == old(db.challengeScores))
            && (r == ScoreSaved ==>
                  db.challengeScores == old(db.challengeScores)[challengeID :=
                    scores[userID := Score(db.users[userID].displayName, fishCaught, totalWeight, now, None)]])
  {
    var challenges := ChallengesAt(db.challenges, SettlePath(engine));
    if challengeID !in challenges {
      return UnrecognizedChallenge;
    }
    if challenges[challengeID].endDate < now {
      return Expired;
    }
    var scores := ScoresOf(db.challengeScores, challengeID);
    if userID in scores {
      return AlreadySubmitted;
    }
    if userID !in db.users {
      return UnrecognizedUser;
    }
    var score := Score(db.users[userID].displayName, fishCaught, totalWeight, now, None);
    db.challengeScores := db.challengeScores[challengeID := scores[userID := score]];
    r := ScoreSaved;
  }

  /** A user who has submitted once is turned away on every later submission to
      the same challenge, whatever the values. */
  method SubmitTwice(db: Database, engine: Engine, userID: UserId, challengeID: Key,
                     fish1: int, weight1: real, fish2: int, weight2: real, now: int)
    returns (first: SubmitResult, second: SubmitResult)
    modifies db`challengeScores
    ensures first == ScoreSaved ==> second == AlreadySubmitted
    ensures second != ScoreSaved
  {
    first := SaveScore(db, engine, userID, challengeID, fish1, weight1, now);
    if first != ScoreSaved {
      assert userID in ScoresOf(db.challengeScores, challengeID) || first != AlreadySubmitted;
    }
    second := SaveScore(db, engine, userID, challengeID, fish2, weight2, now);
  }

  // ---------------------------------------------------------------- the sweep

  /** How many challenges one run of the sweep settles at most. */
  const MaxSettledPerRun: nat := 2

  /** `orderByChild('completed').endAt(false)`: the keys of every challenge not
      yet completed, each once, in key order. */
  ghost predicate IncompleteListing(listing: seq<Key>, challenges: map<Key, Challenge>)
  {
    && (forall i | 0 <= i < |listing| :: listing[i] in challenges && !challenges[listing[i]].completed)
    && (forall k | k in challenges && !challenges[k].completed :: k in listing)
    && (forall i, j | 0 <= i < j < |listing| :: listing[i] < listing[j])
  }

  /** The listed keys whose endDate lies before `now`, in listing order. */
  function ExpiredIn(listing: seq<Key>, challenges: map<Key, Challenge>, now: int): seq<Key>
    requires forall k | k in listing :: k in challenges
  {
    if |listing| == 0 then []
    else
      var init := listing[..|listing| - 1];
      var k := listing[|listing| - 1];
      assert forall j | j in init :: j in listing;
      ExpiredIn(init, challenges, now) + (if challenges[k].endDate < now then [k] else [])
  }

  /** The filter keeps exactly the listed keys that have expired. */
  lemma {:induction false} ExpiredInMembers(listing: seq<Key>, challenges: map<Key, Challenge>, now: int)
    requires forall k | k in listing :: k in challenges
    ensures forall k :: k in ExpiredIn(listing, challenges, now) <==> k in listing && challenges[k].endDate < now
  {
    if |listing| > 0 {
      var init := listing[..|listing| - 1];
      assert forall j | j in init :: j in listing;
      ExpiredInMembers(init, challenges, now);
      assert listing == init + [listing[|listing| - 1]];
    }
  }

  /** The expired keys of a prefix of the listing begin the expired keys of the
      whole listing. */
  lemma {:induction false} ExpiredInPrefix(listing: seq<Key>, challenges: map<Key, Challenge>, now: int, n: nat)
    requires forall k | k in listing :: k in challenges
    requires n <= |listing|
    ensures var whole := ExpiredIn(listing, challenges, now);
            var part := ExpiredIn(listing[..n], challenges, now);
            |part| <= |whole| && whole[..|part|] == part
  {
    if n < |listing| {
      var init := listing[..|listing| - 1];
      assert init[..n] == listing[..n];
      ExpiredInPrefix(init, challenges, now, n);
    } else {
      assert listing[..n] == listing;
    }
  }

  /** Keys in increasing order stay increasing after the filter. */
  lemma {:induction false} ExpiredInIncreasing(listing: seq<Key>, challenges: map<Key, Challenge>, now: int)
    requires forall k | k in listing :: k in challenges
    requires forall i, j | 0 <= i < j < |listing| :: listing[i] < listing[j]
    ensures forall i, j | 0 <= i < j < |ExpiredIn(listing, challenges, now)| ::
              ExpiredIn(listing, challenges, now)[i] < ExpiredIn(listing, challenges, now)[j]
  {
    if |listing| > 0 {
      var init := listing[..|listing| - 1];
      var last := listing[|listing| - 1];
      assert forall j | j in init :: j in listing;
      ExpiredInIncreasing(init, challenges, now);
      ExpiredInMembers(init, challenges, now);
      var e0 := ExpiredIn(init, challenges, now);
      var e := ExpiredIn(listing, challenges, now);
      assert e == e0 + (if challenges[last].endDate < now then [last] else []);
      forall i | 0 <= i < |e0| ensures e0[i] < last {
        assert e0[i] in init;
        var k :| 0 <= k < |init| && init[k] == e0[i];
        assert listing[k] == e0[i];
      }
      forall i, j | 0 <= i < j < |e| ensures e[i] < e[j] {
        if j < |e0| {
          assert e[i] == e0[i] && e[j] == e0[j];
        } else {
          assert e[i] == e0[i] && e[j] == last;
        }
      }
    }
  }

  /** The challenges one run settles: the first MaxSettledPerRun expired ones. */
  function Selected(listing: seq<Key>, challenges: map<Key, Challenge>, now: int): seq<Key>
    requires forall k | k in listing :: k in challenges
  {
    var e := ExpiredIn(listing, challenges, now);
    if |e| <= MaxSettledPerRun then e else e[..MaxSettledPerRun]
  }

  /** The selection holds at most two keys, every one listed and expired, in
      increasing order; when it holds fewer than two, no expired challenge is
      left out. */
  lemma SelectionSound(listing: seq<Key>, challenges: map<Key, Challenge>, now: int)
    requires IncompleteListing(listing, challenges)
    ensures var s := Selected(listing, challenges, now);
            && |s| <= MaxSettledPerRun
            && (forall k | k in s :: k in listing && challenges[k].endDate < now && !challenges[k].completed)
            && (forall i, j | 0 <= i < j < |s| :: s[i] < s[j])
            && (|s| < MaxSettledPerRun ==>
                  forall k | k in challenges && !challenges[k].completed && challenges[k].endDate < now :: k in s)
  {
    var e := ExpiredIn(listing, challenges, now);
    var s := Selected(listing, challenges, now);
    ExpiredInIncreasing(listing, challenges, now);
    ExpiredInMembers(listing, challenges, now);
    forall i, j | 0 <= i < j < |s| ensures s[i] < s[j] {
      assert s[i] == e[i] && s[j] == e[j];
    }
    forall k | k in s ensures k in e {
      var i :| 0 <= i < |s| && s[i] == k;
      assert e[i] == k;
    }
  }

  /** The loop of scoreCompletedChallengesAsync: walk the listing, take every
      challenge whose endDate has passed, and stop once two are taken. */
  method SelectExpired(listing: seq<Key>, challenges: map<Key, Challenge>, now: int) returns (picked: seq<Key>)
    requires forall k | k in listing :: k in challenges
    ensures picked == Selected(listing, challenges, now)
  {
    picked := [];
    var processed := 0;
    var i := 0;
    while i < |listing|
      invariant 0 <= i <= |listing|
      invariant processed == |picked| < MaxSettledPerRun
      invariant picked == ExpiredIn(listing[..i], challenges, now)
    {
      var key := listing[i];
      assert listing[..i + 1][..i] == listing[..i];
      if challenges[key].endDate < now {
        picked := picked + [key];
        processed := processed + 1;
        if processed >= MaxSettledPerRun {
          ExpiredInPrefix(listing, challenges, now, i + 1);
          return;
        }
      }
      i := i + 1;
    }
    assert listing[..i] == listing;
  }

  // ---------------------------------------------------------------- settlement

  /** The reward computation of updateScoreAsync: value / highScore, a negative
      ratio read as 0 and one above 1 read as 1, then Math.round(ratio * maxReward). */
  method ComputeReward(value: real, high: real, maxReward: int) returns (reward: int)
    requires high > 0.0
    ensures reward == Reward(value, high, maxReward)
  {
    var ratio := value / high;
    if ratio < 0.0 {
      ratio := 0.0;
    }
    if ratio > 1.0 {
      ratio := 1.0;
    }
    reward := Round(ratio * maxReward as real);
  }

  /** updateScoreAsync / updateProTournamentScoreAsync for one visited score:
      record the reward on the score, credit it, and notify the user when it is
      positive. */
  method UpdateScore(db: Database, engine: Engine, challengeID: Key, userID: UserId,
                     value: real, high: real, maxReward: int, rank: int, now: int) returns (p: Payout)
    requires high > 0.0
    modifies db`users, db`challengeScores, db`notifications, db`nextKey
    ensures p == Payout(userID, Reward(value, high, maxReward), rank)
    ensures db.users == Credit(old(db.users), userID, p.reward)
    ensures db.challengeScores == old(db.challengeScores)[challengeID :=
              SetScoreCoins(ScoresOf(old(db.challengeScores), challengeID), userID, p.reward)]
    ensures p.reward > 0 ==>
              && db.nextKey == old(db.nextKey) + 1
              && db.notifications == Push(old(db.notifications), userID, old(db.nextKey),
                                          RewardNotification(engine, p, challengeID, now))
    ensures p.reward <= 0 ==> db.nextKey == old(db.nextKey) && db.notifications == old(db.notifications)
  {
    var reward := ComputeReward(value, high, maxReward);
    p := Payout(userID, reward, rank);
    db.challengeScores := db.challengeScores[challengeID :=
      SetScoreCoins(ScoresOf(db.challengeScores, challengeID), userID, reward)];
    var _ := AddCoins(db, userID, reward);
    if reward > 0 {
      SaveNotification(db, userID, RewardMessage(engine, reward, rank), "challengeResults", KeyData(challengeID), now);
    }
  }

  /** The state after the first i payouts of a plan: balances credited, score
      records written, the notifications `ns[..i]` of positive rewards pushed
      under consecutive keys. */
  ghost predicate PaidValues(users: map<UserId, UserRecord>, challengeScores: map<Key, map<UserId, Score>>,
                             nextKey: nat, notifications: map<UserId, map<Key, Notification>>,
                             challengeID: Key, scores: map<UserId, Score>, plan: seq<Payout>,
                             ns: seq<Notification>, i: nat,
                             users0: map<UserId, UserRecord>, scores0: map<Key, map<UserId, Score>>,
                             notes0: map<UserId, map<Key, Notification>>, key0: nat)
    requires i <= |plan| == |ns|
  {
    && users == CreditAll(users0, plan[..i])
    && challengeScores == scores0[challengeID := RecordRewards(scores, plan[..i])]
    && nextKey == key0 + CountPositive(plan[..i])
    && notifications == NotifyAll(notes0, key0, plan[..i], ns[..i])
  }

  ghost predicate PaidUpTo(db: Database, challengeID: Key, scores: map<UserId, Score>,
                           plan: seq<Payout>, ns: seq<Notification>, i: nat,
                           users0: map<UserId, UserRecord>, scores0: map<Key, map<UserId, Score>>,
                           notes0: map<UserId, map<Key, Notification>>, key0: nat)
    reads db
    requires i <= |plan| == |ns|
  {
    PaidValues(db.users, db.challengeScores, db.nextKey, db.notifications,
               challengeID, scores, plan, ns, i, users0, scores0, notes0, key0)
  }

  /** Paying entry i of the plan, as updateScoreAsync does, extends the state
      after i payouts to the state after i + 1. */
  lemma PaidStep(users: map<UserId, UserRecord>, challengeScores: map<Key, map<UserId, Score>>,
                 nextKey: nat, notifications: map<UserId, map<Key, Notification>>,
                 users': map<UserId, UserRecord>, challengeScores': map<Key, map<UserId, Score>>,
                 nextKey': nat, notifications': map<UserId, map<Key, Notification>>, p: Payout,
                 challengeID: Key, scores: map<UserId, Score>, plan: seq<Payout>,
                 ns: seq<Notification>, i: nat,
                 users0: map<UserId, UserRecord>, scores0: map<Key, map<UserId, Score>>,
                 notes0: map<UserId, map<Key, Notification>>, key0: nat)
    requires i < |plan| == |ns| && p == plan[i]
    requires PaidValues(users, challengeScores, nextKey, notifications,
                        challengeID, scores, plan, ns, i, users0, scores0, notes0, key0)
    requires users' == Credit(users, p.user, p.reward)
    requires challengeScores' == challengeScores[challengeID :=
               SetScoreCoins(ScoresOf(challengeScores, challengeID), p.user, p.reward)]
    requires p.reward > 0 ==> nextKey' == nextKey + 1 && notifications' == Push(notifications, p.user, nextKey, ns[i])
    requires p.reward <= 0 ==> nextKey' == nextKey && notifications' == notifications
    ensures PaidValues(users', challengeScores', nextKey', notifications',
                       challengeID, scores, plan, ns, i + 1, users0, scores0, notes0, key0)
  {
    PaidCreditStep(users, challengeScores, users', challengeScores', p, challengeID, scores, plan, i, users0, scores0);
    PaidNoteStep(nextKey, notifications, nextKey', notifications', p, plan, ns, i, notes0, key0);
  }

  /** The balances and score records part of `PaidStep`. */
  lemma PaidCreditStep(users: map<UserId, UserRecord>, challengeScores: map<Key, map<UserId, Score>>,
                       users': map<UserId, UserRecord>, challengeScores': map<Key, map<UserId, Score>>, p: Payout,
                       challengeID: Key, scores: map<UserId, Score>, plan: seq<Payout>, i: nat,
                       users0: map<UserId, UserRecord>, scores0: map<Key, map<UserId, Score>>)
    requires i < |plan| && p == plan[i]
    requires users == CreditAll(users0, plan[..i])
    requires challengeScores == scores0[challengeID := RecordRewards(scores, plan[..i])]
    requires users' == Credit(users, p.user, p.reward)
    requires challengeScores' == challengeScores[challengeID :=
               SetScoreCoins(ScoresOf(challengeScores, challengeID), p.user, p.reward)]
    ensures users' == CreditAll(users0, plan[..i + 1])
    ensures challengeScores' == scores0[challengeID := RecordRewards(scores, plan[..i + 1])]
  {
    CreditAllExtend(users0, plan, i);
    RecordRewardsExtend(scores, plan, i);
  }

  /** The key counter and notifications part of `PaidStep`. */
  lemma PaidNoteStep(nextKey: nat, notifications: map<UserId, map<Key, Notification>>,
                     nextKey': nat, notifications': map<UserId, map<Key, Notification>>, p: Payout,
                     plan: seq<Payout>, ns: seq<Notification>, i: nat,
                     notes0: map<UserId, map<Key, Notification>>, key0: nat)
    requires i < |plan| == |ns| && p == plan[i]
    requires nextKey == key0 + CountPositive(plan[..i])
    requires notifications == NotifyAll(notes0, key0, plan[..i], ns[..i])
    requires p.reward > 0 ==> nextKey' == nextKey + 1 && notifications' == Push(notifications, p.user, nextKey, ns[i])
    requires p.reward <= 0 ==> nextKey' == nextKey && notifications' == notifications
    ensures nextKey' == key0 + CountPositive(plan[..i + 1])
    ensures notifications' == NotifyAll(notes0, key0, plan[..i + 1], ns[..i + 1])
  {
    NotifyAllExtend(notes0, key0, plan, ns, i);
    NotifyAllStep(notes0, key0, plan, ns, i, p, nextKey, notifications, notifications');
  }

  /** One iteration of the forEach: pay the i-th visited score at rank n - i,
      which the plan's i-th entry describes. */
  method PayEntry(db: Database, engine: Engine, challengeID: Key, userID: UserId, value: real,
                  high: real, maxReward: int, now: int, i: nat, rank: int,
                  ghost plan: seq<Payout>, ghost ns: seq<Notification>, ghost scores: map<UserId, Score>,
                  ghost users0: map<UserId, UserRecord>, ghost scores0: map<Key, map<UserId, Score>>,
                  ghost notes0: map<UserId, map<Key, Notification>>, ghost key0: nat)
    requires high > 0.0 && i < |plan| == |ns|
    requires plan[i] == Payout(userID, Reward(value, high, maxReward), rank)
    requires ns[i] == RewardNotification(engine, plan[i], challengeID, now)
    requires PaidUpTo(db, challengeID, scores, plan, ns, i, users0, scores0, notes0, key0)
    modifies db`users, db`challengeScores, db`notifications, db`nextKey
    ensures PaidUpTo(db, challengeID, scores, plan, ns, i + 1, users0, scores0, notes0, key0)
  {
    ghost var users, challengeScores, nextKey, notifications := db.users, db.challengeScores, db.nextKey, db.notifications;
    var p := UpdateScore(db, engine, challengeID, userID, value, high, maxReward, rank, now);
    PaidStep(users, challengeScores, nextKey, notifications,
             db.users, db.challengeScores, db.nextKey, db.notifications, p,
             challengeID, scores, plan, ns, i, users0, scores0, notes0, key0);
  }

  /** The forEach of awardChallengeCoinsAsync: visit the scores in order with
      the rank counting down from their number, and pay each one. */
  method PayScores(db: Database, engine: Engine, challengeID: Key, order: seq<UserId>, scores: map<UserId, Score>,
                   goal: Goal, high: real, maxReward: int, now: int)
    requires forall i | 0 <= i < |order| :: order[i] in scores
    requires high > 0.0
    requires challengeID in db.challengeScores && db.challengeScores[challengeID] == scores
    requires db.Valid()
    modifies db`users, db`challengeScores, db`notifications, db`nextKey
    ensures db.Valid()
    ensures var plan := PlanAgainst(order, scores, goal, high, maxReward);
            && db.users == CreditAll(old(db.users), plan)
            && db.challengeScores == old(db.challengeScores)[challengeID := RecordRewards(scores, plan)]
            && db.nextKey == old(db.nextKey) + CountPositive(plan)
            && db.notifications == NotifyAll(old(db.notifications), old(db.nextKey), plan,
                                             RewardNotes(engine, plan, challengeID, now))
  {
    ghost var plan := PlanAgainst(order, scores, goal, high, maxReward);
    ghost var ns := RewardNotes(engine, plan, challengeID, now);
    ghost var users0, scores0, notes0, key0 := db.users, db.challengeScores, db.notifications, db.nextKey;
    assert plan[..0] == [] && ns[..0] == [];
    var rank := |order|;
    for i := 0 to |order|
      invariant rank == |order| - i
      invariant PaidUpTo(db, challengeID, scores, plan, ns, i, users0, scores0, notes0, key0)
    {
      PayEntry(db, engine, challengeID, order[i], ScoreValue(scores[order[i]], goal), high, maxReward, now,
               i, rank, plan, ns, scores, users0, scores0, notes0, key0);
      rank := rank - 1;
    }
    assert plan[..|order|] == plan && ns[..|order|] == ns;
    NotifyAllKeysBelow(notes0, key0, plan, ns);
    CreditAllNonNegative(users0, plan);
  }

  datatype AwardResult = UnknownChallenge | NoScores | CoinsAwarded

  /** A non-empty ascending view lists a non-empty score map, and conversely. */
  lemma ViewEmpty(order: seq<UserId>, scores: map<UserId, Score>, goal: Goal)
    requires AscendingView(order, scores, goal)
    ensures |order| == 0 <==> |scores| == 0
  {
    if |scores| > 0 {
      var u :| u in scores;
      assert u in order;
    }
    if |order| > 0 {
      assert order[0] in scores;
    }
  }

  /** Only the score list of `id` differs. */
  ghost predicate ScoresOnlyAt(s0: map<Key, map<UserId, Score>>, s1: map<Key, map<UserId, Score>>, id: Key)
  {
    forall k | k != id :: ScoresOf(s1, k) == ScoresOf(s0, k)
  }

  /** Writing the score list of `id` leaves every other as it was. */
  lemma ScoresOnlyAtWrite(s0: map<Key, map<UserId, Score>>, id: Key, v: map<UserId, Score>)
    ensures ScoresOnlyAt(s0, s0[id := v], id)
  {
  }

  /** `id` of path `settle` is marked completed, when it exists, and no other
      challenge of any path differs. */
  ghost predicate ChallengeMarked(c0: map<Namespace, map<Key, Challenge>>, c1: map<Namespace, map<Key, Challenge>>,
                                  settle: Namespace, id: Key)
  {
    && (forall ns | ns != settle :: ChallengesAt(c1, ns) == ChallengesAt(c0, ns))
    && ChallengesAt(c1, settle).Keys == ChallengesAt(c0, settle).Keys
    && (forall k | k in ChallengesAt(c0, settle) && k != id :: ChallengesAt(c1, settle)[k] == ChallengesAt(c0, settle)[k])
    && (id in ChallengesAt(c0, settle) ==> ChallengesAt(c1, settle)[id].completed)
  }

  /** `challengeRef.update({completed: true})` on an existing challenge. */
  method MarkCompleted(db: Database, ns: Namespace, id: Key)
    requires db.Valid() && id in ChallengesAt(db.challenges, ns)
    modifies db`challenges
    ensures db.Valid()
    ensures db.challenges == old(db.challenges)[ns :=
              ChallengesAt(old(db.challenges), ns)[id := ChallengesAt(old(db.challenges), ns)[id].(completed := true)]]
    ensures ChallengeMarked(old(db.challenges), db.challenges, ns, id)
  {
    var challenges := ChallengesAt(db.challenges, ns);
    db.challenges := db.challenges[ns := challenges[id := challenges[id].(completed := true)]];
  }

  /** awardChallengeCoinsAsync / awardProTournamentCoinsAsync. `order` is the
      answer of `orderByChild(key)` on the challenge's scores. An id missing
      from the settlement path changes nothing; a challenge without scores is
      only marked completed; otherwise every score is paid by `Plan` (balances,
      score records, notifications under fresh keys) and then the challenge is
      marked completed. */
  method AwardCoins(db: Database, engine: Engine, challengeID: Key, order: seq<UserId>, now: int)
    returns (r: AwardResult)
    requires db.Valid()
    requires challengeID in ChallengesAt(db.challenges, SettlePath(engine)) ==>
               AscendingView(order, ScoresOf(db.challengeScores, challengeID),
                             ChallengesAt(db.challenges, SettlePath(engine))[challengeID].goal)
    modifies db`users, db`challenges, db`challengeScores, db`notifications, db`nextKey
    ensures db.Valid()
    ensures ScoresOnlyAt(old(db.challengeScores), db.challengeScores, challengeID)
    ensures ChallengeMarked(old(db.challenges), db.challenges, SettlePath(engine), challengeID)
    ensures var before := ChallengesAt(old(db.challenges), SettlePath(engine));
            var scores := ScoresOf(old(db.challengeScores), challengeID);
            && (r == UnknownChallenge <==> challengeID !in before)
            && (r == NoScores <==> challengeID in before && |scores| == 0)
            && (r == UnknownChallenge ==>
                  && db.users == old(db.users) && db.challenges == old(db.challenges)
                  && db.challengeScores == old(db.challengeScores)
                  && db.notifications == old(db.notifications) && db.nextKey == old(db.nextKey))
            && (r != UnknownChallenge ==>
                  db.challenges == old(db.challenges)[SettlePath(engine) :=
                                     before[challengeID := before[challengeID].(completed := true)]])
            && (r == NoScores ==>
                  && db.users == old(db.users) && db.challengeScores == old(db.challengeScores)
                  && db.notifications == old(db.notifications) && db.nextKey == old(db.nextKey))
            && (r == CoinsAwarded ==>
                  var c := before[challengeID];
                  var plan := Plan(order, scores, c.goal, c.maxReward);
                  && db.users == CreditAll(old(db.users), plan)
                  && db.challengeScores == old(db.challengeScores)[challengeID := RecordRewards(scores, plan)]
                  && db.nextKey == old(db.nextKey) + CountPositive(plan)
                  && db.notifications == NotifyAll(old(db.notifications), old(db.nextKey), plan,
                                                   RewardNotes(engine, plan, challengeID, now)))
  {
    var ns := SettlePath(engine);
    var challenges := ChallengesAt(db.challenges, ns);
    if challengeID !in challenges {
      return UnknownChallenge;
    }
    var c := challenges[challengeID];
    var scores := ScoresOf(db.challengeScores, challengeID);
    ViewEmpty(order, scores, c.goal);
    if |order| == 0 {
      MarkCompleted(db, ns, challengeID);
      return NoScores;
    }
    SettleScores(db, engine, challengeID, order, now);
    r := CoinsAwarded;
  }

  /** The settlement of a challenge that has scores: every score is paid as
      `Plan` says, then the challenge is marked completed. */
  method SettleScores(db: Database, engine: Engine, challengeID: Key, order: seq<UserId>, now: int)
    requires db.Valid()
    requires challengeID in ChallengesAt(db.challenges, SettlePath(engine)) && |order| > 0
    requires AscendingView(order, ScoresOf(db.challengeScores, challengeID),
                           ChallengesAt(db.challenges, SettlePath(engine))[challengeID].goal)
    modifies db`users, db`challenges, db`challengeScores, db`notifications, db`nextKey
    ensures db.Valid()
    ensures ScoresOnlyAt(old(db.challengeScores), db.challengeScores, challengeID)
    ensures ChallengeMarked(old(db.challenges), db.challenges, SettlePath(engine), challengeID)
    ensures var before := ChallengesAt(old(db.challenges), SettlePath(engine));
            var c := before[challengeID];
            var scores := ScoresOf(old(db.challengeScores), challengeID);
            var plan := Plan(order, scores, c.goal, c.maxReward);
            && db.challenges == old(db.challenges)[SettlePath(engine) := before[challengeID := c.(completed := true)]]
            && db.users == CreditAll(old(db.users), plan)
            && db.challengeScores == old(db.challengeScores)[challengeID := RecordRewards(scores, plan)]
            && db.nextKey == old(db.nextKey) + CountPositive(plan)
            && db.notifications == NotifyAll(old(db.notifications), old(db.nextKey), plan,
                                             RewardNotes(engine, plan, challengeID, now))
  {
    var ns := SettlePath(engine);
    var c := ChallengesAt(db.challenges, ns)[challengeID];
    var scores := ScoresOf(db.challengeScores, challengeID);
    var high := ScanHighScore(Values(order, scores, c.goal));
    assert challengeID in db.challengeScores by {
      assert order[0] in scores;
    }
    PayScores(db, engine, challengeID, order, scores, c.goal, high, c.maxReward, now);
    ScoresOnlyAtWrite(old(db.challengeScores), challengeID, db.challengeScores[challengeID]);
    MarkCompleted(db, ns, challengeID);
  }

  // ---------------------------------------------------------------- the sweep

  /** After settling the keys `done` from path `settle`: only their score lists
      differ, each of them that exists is marked completed, and no other
      challenge of any path differs. */
  ghost predicate Swept(c0: map<Namespace, map<Key, Challenge>>, s0: map<Key, map<UserId, Score>>,
                        c1: map<Namespace, map<Key, Challenge>>, s1: map<Key, map<UserId, Score>>,
                        settle: Namespace, done: seq<Key>)
  {
    && (forall k | k !in done :: ScoresOf(s1, k) == ScoresOf(s0, k))
    && (forall ns | ns != settle :: ChallengesAt(c1, ns) == ChallengesAt(c0, ns))
    && ChallengesAt(c1, settle).Keys == ChallengesAt(c0, settle).Keys
    && (forall k | k in ChallengesAt(c0, settle) && k !in done :: ChallengesAt(c1, settle)[k] == ChallengesAt(c0, settle)[k])
    && (forall k | k in ChallengesAt(c0, settle) && k in done :: ChallengesAt(c1, settle)[k].completed)
  }

  /** Settling one more key extends what has been swept. */
  lemma SweptStep(c0: map<Namespace, map<Key, Challenge>>, s0: map<Key, map<UserId, Score>>,
                  c1: map<Namespace, map<Key, Challenge>>, s1: map<Key, map<UserId, Score>>,
                  c2: map<Namespace, map<Key, Challenge>>, s2: map<Key, map<UserId, Score>>,
                  settle: Namespace, done: seq<Key>, id: Key)
    requires Swept(c0, s0, c1, s1, settle, done)
    requires ScoresOnlyAt(s1, s2, id) && ChallengeMarked(c1, c2, settle, id)
    ensures Swept(c0, s0, c2, s2, settle, done + [id])
  {
  }

  /** One settlement of the sweep: award the coins of the next picked key,
      which no earlier settlement of the run has touched. */
  method SettleNext(db: Database, engine: Engine, picked: seq<Key>, j: nat, order: seq<UserId>, now: int,
                    ghost c0: map<Namespace, map<Key, Challenge>>, ghost s0: map<Key, map<UserId, Score>>)
    requires db.Valid() && j < |picked|
    requires forall a, b | 0 <= a < b < |picked| :: picked[a] < picked[b]
    requires Swept(c0, s0, db.challenges, db.challengeScores, SettlePath(engine), picked[..j])
    requires picked[j] in ChallengesAt(c0, SettlePath(engine)) ==>
               AscendingView(order, ScoresOf(s0, picked[j]), ChallengesAt(c0, SettlePath(engine))[picked[j]].goal)
    modifies db`users, db`challenges, db`challengeScores, db`notifications, db`nextKey
    ensures db.Valid()
    ensures Swept(c0, s0, db.challenges, db.challengeScores, SettlePath(engine), picked[..j + 1])
  {
    var id := picked[j];
    assert id !in picked[..j] by {
      forall i | 0 <= i < j ensures picked[i] != id {
        assert picked[i] < picked[j];
      }
    }
    ghost var c1, s1 := db.challenges, db.challengeScores;
    var _ := AwardCoins(db, engine, id, order, now);
    SweptStep(c0, s0, c1, s1, db.challenges, db.challengeScores, SettlePath(engine), picked[..j], id);
    assert picked[..j + 1] == picked[..j] + [id];
  }

  /** scoreCompletedChallengesAsync / scoreCompletedProTournamentsAsync: list the
      incomplete challenges of the sweep path, settle the first two expired
      ones from the settlement path, in listing order. `orders` holds the
      `orderByChild` answer for each challenge's scores. Only the settled
      challenges change; in particular the pro sweep, whose settlement path is
      not the path it lists, never marks the entries it lists. */
  method Sweep(db: Database, engine: Engine, listing: seq<Key>, orders: map<Key, seq<UserId>>, now: int)
    returns (picked: seq<Key>)
    requires db.Valid()
    requires IncompleteListing(listing, ChallengesAt(db.challenges, SweepPath(engine)))
    requires forall k | k in listing && k in ChallengesAt(db.challenges, SettlePath(engine)) ::
               k in orders && AscendingView(orders[k], ScoresOf(db.challengeScores, k),
                                            ChallengesAt(db.challenges, SettlePath(engine))[k].goal)
    modifies db`users, db`challenges, db`challengeScores, db`notifications, db`nextKey
    ensures db.Valid()
    ensures picked == Selected(listing, ChallengesAt(old(db.challenges), SweepPath(engine)), now)
    ensures Swept(old(db.challenges), old(db.challengeScores), db.challenges, db.challengeScores,
                  SettlePath(engine), picked)
  {
    picked := SelectExpired(listing, ChallengesAt(db.challenges, SweepPath(engine)), now);
    SelectionSound(listing, ChallengesAt(db.challenges, SweepPath(engine)), now);
    ghost var c0, s0 := db.challenges, db.challengeScores;
    assert picked[..0] == [];
    for j := 0 to |picked|
      invariant db.Valid()
      invariant Swept(c0, s0, db.challenges, db.challengeScores, SettlePath(engine), picked[..j])
    {
      assert picked[j] in listing;
      SettleNext(db, engine, picked, j, if picked[j] in orders then orders[picked[j]] else [], now, c0, s0);
    }
    assert picked[..|picked|] == picked;
  }

  /** An hourly sweep retires what it settles: no later listing of incomplete
      hourly challenges contains a settled key. */
  lemma HourlySweepRetires(c0: map<Namespace, map<Key, Challenge>>, s0: map<Key, map<UserId, Score>>,
                           c1: map<Namespace, map<Key, Challenge>>, s1: map<Key, map<UserId, Score>>,
                           picked: seq<Key>, next: seq<Key>)
    requires Swept(c0, s0, c1, s1, SettlePath(HourlyEngine), picked)
    requires forall k | k in picked :: k in ChallengesAt(c0, SweepPath(HourlyEngine))
    requires IncompleteListing(next, ChallengesAt(c1, SweepPath(HourlyEngine)))
    ensures forall k | k in picked :: k !in next
  {
    forall k, i | k in picked && 0 <= i < |next| ensures next[i] != k {
      assert ChallengesAt(c1, HourlyPath)[k].completed;
    }
  }

  /** A pro sweep leaves the path it lists as it was, so the next run with the
      same clock selects the same keys again. */
  lemma ProSweepRepeats(c0: map<Namespace, map<Key, Challenge>>, s0: map<Key, map<UserId, Score>>,
                        c1: map<Namespace, map<Key, Challenge>>, s1: map<Key, map<UserId, Score>>,
                        picked: seq<Key>, listing: seq<Key>, now: int)
    requires Swept(c0, s0, c1, s1, SettlePath(ProEngine), picked)
    requires IncompleteListing(listing, ChallengesAt(c0, SweepPath(ProEngine)))
    ensures IncompleteListing(listing, ChallengesAt(c1, SweepPath(ProEngine)))
    ensures Selected(listing, ChallengesAt(c1, SweepPath(ProEngine)), now)
            == Selected(listing, ChallengesAt(c0, SweepPath(ProEngine)), now)
  {
    ProPathsDiffer();
  }
}
