/** The settlement arithmetic shared by hourly challenges and pro tournaments
    (awardChallengeCoinsAsync / updateScoreAsync and their pro copies): the high
    score, the clamped-ratio reward, the rank each visited score receives, and
    what paying a whole plan does to balances, score records and notifications. */
module Ranking {
  import opened Common
  import opened Decimal
  import opened Store
  import opened Ledger
  import opened Notifications

  // ---------------------------------------------------------------- visiting order

  /** The value a score is ranked by under the challenge's goal. */
  function ScoreValue(s: Score, goal: Goal): real
  {
    GoalValue(goal, s.fishCaught, s.totalWeight)
  }

  /** `scoresRef.orderByChild(key)`: every score once, ascending by value
      (ties in any order). */
  ghost predicate AscendingView(order: seq<UserId>, scores: map<UserId, Score>, goal: Goal)
  {
    && (forall i | 0 <= i < |order| :: order[i] in scores)
    && (forall u | u in scores :: u in order)
    && (forall i, j | 0 <= i < j < |order| :: order[i] != order[j])
    && (forall i, j | 0 <= i < j < |order| :: ScoreValue(scores[order[i]], goal) <= ScoreValue(scores[order[j]], goal))
  }

  /** The values in visiting order. */
  function Values(order: seq<UserId>, scores: map<UserId, Score>, goal: Goal): (vs: seq<real>)
    requires forall i | 0 <= i < |order| :: order[i] in scores
    ensures |vs| == |order|
    ensures forall i | 0 <= i < |order| :: vs[i] == ScoreValue(scores[order[i]], goal)
  {
    seq(|order|, i requires 0 <= i < |order| => ScoreValue(scores[order[i]], goal))
  }

  // ---------------------------------------------------------------- high score

  /** The high score the scan finds: it starts at 1 and takes every larger value. */
  function HighScoreOf(values: seq<real>): (high: real)
    ensures high >= 1.0
    ensures forall i | 0 <= i < |values| :: values[i] <= high
    ensures high == 1.0 || exists i | 0 <= i < |values| :: values[i] == high
  {
    if |values| == 0 then 1.0
    else
      var before := HighScoreOf(values[..|values| - 1]);
      var last := values[|values| - 1];
      assert forall i | 0 <= i < |values| - 1 :: values[..|values| - 1][i] == values[i];
      if last > before then last else before
  }

  /** The scan of awardChallengeCoinsAsync over the visited values. */
  method ScanHighScore(values: seq<real>) returns (high: real)
    ensures high == HighScoreOf(values)
  {
    high := 1.0;
    for i := 0 to |values|
      invariant high == HighScoreOf(values[..i])
    {
      assert values[..i + 1][..i] == values[..i];
      if values[i] > high {
        high := values[i];
      }
    }
    assert values[..|values|] == values;
  }

  // ---------------------------------------------------------------- rewards

  /** value / highScore, with a negative ratio read as 0 and one above 1 as 1. */
  function Ratio(value: real, high: real): (ratio: real)
    requires high > 0.0
    ensures 0.0 <= ratio <= 1.0
  {
    var r := value / high;
    if r < 0.0 then 0.0 else if r > 1.0 then 1.0 else r
  }

  /** updateScoreAsync: Math.round(ratio * maxReward). A value of 0 or below
      earns nothing, and one at or above the high score earns exactly maxReward. */
  function Reward(value: real, high: real, maxReward: int): (n: int)
    requires high > 0.0
    ensures value <= 0.0 ==> n == 0
    ensures value >= high ==> n == maxReward
  {
    assert value <= 0.0 ==> value / high <= 0.0;
    assert value >= high ==> value / high >= 1.0;
    Round(Ratio(value, high) * maxReward as real)
  }

  lemma ScaledBelow(ratio: real, m: int)
    requires 0.0 <= ratio <= 1.0 && m >= 0
    ensures 0.0 <= ratio * m as real <= m as real
  {
    assert (1.0 - ratio) * m as real >= 0.0;
  }

  /** Every reward lies between 0 and maxReward. */
  lemma RewardBounds(value: real, high: real, maxReward: int)
    requires high > 0.0 && maxReward >= 0
    ensures 0 <= Reward(value, high, maxReward) <= maxReward
  {
    ScaledBelow(Ratio(value, high), maxReward);
  }

  /** A higher value never earns less. */
  lemma RewardMonotone(v1: real, v2: real, high: real, maxReward: int)
    requires high > 0.0 && maxReward >= 0 && v1 <= v2
    ensures Reward(v1, high, maxReward) <= Reward(v2, high, maxReward)
  {
    assert v1 / high <= v2 / high;
    var r1, r2 := Ratio(v1, high), Ratio(v2, high);
    assert r1 <= r2;
    assert (r2 - r1) * maxReward as real >= 0.0;
  }

  // ---------------------------------------------------------------- the payout plan

  /** What updateScoreAsync does for one visited score. */
  datatype Payout = Payout(user: UserId, reward: int, rank: int)

  /** The payouts in visiting order against a given high score: the rank starts
      at the number of scores and drops by one per visited score. */
  function PlanAgainst(order: seq<UserId>, scores: map<UserId, Score>, goal: Goal, high: real, maxReward: int)
    : (plan: seq<Payout>)
    requires forall i | 0 <= i < |order| :: order[i] in scores
    requires high > 0.0
    ensures |plan| == |order|
  {
    seq(|order|, i requires 0 <= i < |order| =>
      Payout(order[i], Reward(ScoreValue(scores[order[i]], goal), high, maxReward), |order| - i))
  }

  /** The payouts of a settlement: against the high score of the visited values. */
  function Plan(order: seq<UserId>, scores: map<UserId, Score>, goal: Goal, maxReward: int): (plan: seq<Payout>)
    requires forall i | 0 <= i < |order| :: order[i] in scores
    ensures |plan| == |order|
  {
    PlanAgainst(order, scores, goal, HighScoreOf(Values(order, scores, goal)), maxReward)
  }

  /** Each entry pays the visited user the reward of its value against the high
      score, with rank n - i; every reward lies in [0, maxReward] when maxReward
      is non-negative. */
  lemma PlanEntries(order: seq<UserId>, scores: map<UserId, Score>, goal: Goal, maxReward: int)
    requires forall i | 0 <= i < |order| :: order[i] in scores
    ensures var plan := Plan(order, scores, goal, maxReward);
            var high := HighScoreOf(Values(order, scores, goal));
            forall i | 0 <= i < |order| ::
              && plan[i].user == order[i]
              && plan[i].rank == |order| - i
              && plan[i].reward == Reward(ScoreValue(scores[order[i]], goal), high, maxReward)
              && (maxReward >= 0 ==> 0 <= plan[i].reward <= maxReward)
  {
    var high := HighScoreOf(Values(order, scores, goal));
    forall i | 0 <= i < |order| ensures maxReward >= 0 ==> 0 <= Plan(order, scores, goal, maxReward)[i].reward <= maxReward {
      if maxReward >= 0 {
        RewardBounds(ScoreValue(scores[order[i]], goal), high, maxReward);
      }
    }
  }


  /** The ranks are exactly 1..n, each once: n ranks, every one in [1, n],
      falling strictly as the visit proceeds. */
  lemma RanksArePermutation(order: seq<UserId>, scores: map<UserId, Score>, goal: Goal, maxReward: int)
    requires forall i | 0 <= i < |order| :: order[i] in scores
    ensures var plan := Plan(order, scores, goal, maxReward);
            && (forall i | 0 <= i < |plan| :: 1 <= plan[i].rank <= |plan|)
            && (forall i, j | 0 <= i < j < |plan| :: plan[i].rank > plan[j].rank)
  {
    PlanEntries(order, scores, goal, maxReward);
  }

  /** Over an ascending view, a strictly higher value gets a strictly smaller
      rank number: the last score visited, which holds the highest value, is
      ranked 1. */
  lemma HigherValueBetterRank(order: seq<UserId>, scores: map<UserId, Score>, goal: Goal, maxReward: int, i: int, j: int)
    requires AscendingView(order, scores, goal)
    requires 0 <= i < |order| && 0 <= j < |order|
    requires ScoreValue(scores[order[i]], goal) < ScoreValue(scores[order[j]], goal)
    ensures Plan(order, scores, goal, maxReward)[j].rank < Plan(order, scores, goal, maxReward)[i].rank
  {
    var high := HighScoreOf(Values(order, scores, goal));
    assert Plan(order, scores, goal, maxReward) == PlanAgainst(order, scores, goal, high, maxReward);
  }

  /** The last score of an ascending view holds the highest value. */
  lemma LastIsHighest(order: seq<UserId>, scores: map<UserId, Score>, goal: Goal)
    requires AscendingView(order, scores, goal) && |order| > 0
    ensures forall u | u in scores :: ScoreValue(scores[u], goal) <= ScoreValue(scores[order[|order| - 1]], goal)
    ensures forall v | v in Values(order, scores, goal) :: v <= ScoreValue(scores[order[|order| - 1]], goal)
  {
    var n := |order|;
    forall u | u in scores ensures ScoreValue(scores[u], goal) <= ScoreValue(scores[order[n - 1]], goal) {
      var k :| 0 <= k < n && order[k] == u;
      if k < n - 1 {
        assert ScoreValue(scores[order[k]], goal) <= ScoreValue(scores[order[n - 1]], goal);
      }
    }
  }

  /** The last visited score holds the highest value, is ranked 1, and earns
      the full maxReward when that value is at least 1. */
  lemma TopScorerRankedFirst(order: seq<UserId>, scores: map<UserId, Score>, goal: Goal, maxReward: int)
    requires AscendingView(order, scores, goal) && |order| > 0
    ensures var plan := Plan(order, scores, goal, maxReward);
            var top := ScoreValue(scores[order[|order| - 1]], goal);
            && (forall u | u in scores :: ScoreValue(scores[u], goal) <= top)
            && plan[|order| - 1].rank == 1
            && (top >= 1.0 ==> plan[|order| - 1].reward == maxReward)
  {
    var n := |order|;
    var vs := Values(order, scores, goal);
    var high := HighScoreOf(vs);
    var top := ScoreValue(scores[order[n - 1]], goal);
    PlanEntries(order, scores, goal, maxReward);
    LastIsHighest(order, scores, goal);
    if top >= 1.0 {
      assert high <= top by {
        if high != 1.0 {
          var k :| 0 <= k < n && vs[k] == high;
          assert vs[k] in vs;
        }
      }
    }
  }

  /** The users of a plan, each paid once. */
  ghost predicate DistinctUsers(plan: seq<Payout>)
  {
    forall i, j | 0 <= i < j < |plan| :: plan[i].user != plan[j].user
  }

  ghost predicate PaysUser(plan: seq<Payout>, u: UserId)
  {
    exists i | 0 <= i < |plan| :: plan[i].user == u
  }

  /** A plan pays a user when its prefix does or its last entry does. */
  lemma PaysUserSplit(plan: seq<Payout>)
    requires |plan| > 0
    ensures forall u :: PaysUser(plan, u) <==> PaysUser(plan[..|plan| - 1], u) || u == plan[|plan| - 1].user
  {
    var init := plan[..|plan| - 1];
    forall u ensures PaysUser(plan, u) <==> PaysUser(init, u) || u == plan[|plan| - 1].user {
      if PaysUser(plan, u) {
        var k :| 0 <= k < |plan| && plan[k].user == u;
        if k < |init| {
          assert init[k].user == u;
        }
      }
      if PaysUser(init, u) {
        var k :| 0 <= k < |init| && init[k].user == u;
        assert plan[k].user == u;
      }
      assert plan[|plan| - 1].user == plan[|plan| - 1].user;
    }
  }

  /** The prefix of a plan with distinct users has distinct users and does not
      pay the last entry's user. */
  lemma DistinctSplit(plan: seq<Payout>)
    requires |plan| > 0 && DistinctUsers(plan)
    ensures DistinctUsers(plan[..|plan| - 1])
    ensures !PaysUser(plan[..|plan| - 1], plan[|plan| - 1].user)
  {
    var init := plan[..|plan| - 1];
    forall i, j | 0 <= i < j < |init| ensures init[i].user != init[j].user {
      assert init[i] == plan[i] && init[j] == plan[j];
    }
    forall i | 0 <= i < |init| ensures init[i].user != plan[|plan| - 1].user {
      assert init[i] == plan[i];
    }
  }

  lemma PlanDistinct(order: seq<UserId>, scores: map<UserId, Score>, goal: Goal, maxReward: int)
    requires AscendingView(order, scores, goal)
    ensures DistinctUsers(Plan(order, scores, goal, maxReward))
    ensures forall u :: PaysUser(Plan(order, scores, goal, maxReward), u) <==> u in scores
  {
    var plan := Plan(order, scores, goal, maxReward);
    PlanEntries(order, scores, goal, maxReward);
    forall u | u in scores ensures PaysUser(plan, u) {
      var k :| 0 <= k < |order| && order[k] == u;
      assert plan[k].user == u;
    }
  }

  function TotalReward(plan: seq<Payout>): int
  {
    if |plan| == 0 then 0 else TotalReward(plan[..|plan| - 1]) + plan[|plan| - 1].reward
  }

  /** All rewards of a settlement add up to at most n * maxReward. */
  lemma {:induction false} TotalRewardBound(plan: seq<Payout>, maxReward: int)
    requires forall i | 0 <= i < |plan| :: 0 <= plan[i].reward <= maxReward
    ensures 0 <= TotalReward(plan) <= |plan| * maxReward
  {
    if |plan| > 0 {
      TotalRewardBound(plan[..|plan| - 1], maxReward);
    }
  }

  // ---------------------------------------------------------------- paying a plan

  /** The users after addCoinsAsync(user, reward) for each payout in turn. */
  function CreditAll(users: map<UserId, UserRecord>, plan: seq<Payout>): map<UserId, UserRecord>
  {
    if |plan| == 0 then users
    else Credit(CreditAll(users, plan[..|plan| - 1]), plan[|plan| - 1].user, plan[|plan| - 1].reward)
  }

  /** Crediting a plan adds exactly the paid users to the user records. */
  lemma {:induction false} CreditAllDomain(users: map<UserId, UserRecord>, plan: seq<Payout>)
    ensures forall u :: u in CreditAll(users, plan) <==> u in users || PaysUser(plan, u)
  {
    if |plan| > 0 {
      PaysUserSplit(plan);
      CreditAllDomain(users, plan[..|plan| - 1]);
    }
  }

  /** Crediting one more entry of a plan is one more addCoins. */
  lemma CreditAllExtend(users: map<UserId, UserRecord>, plan: seq<Payout>, i: int)
    requires 0 <= i < |plan|
    ensures CreditAll(users, plan[..i + 1]) == Credit(CreditAll(users, plan[..i]), plan[i].user, plan[i].reward)
  {
    assert plan[..i + 1][..i] == plan[..i];
  }

  /** A user the plan does not pay keeps their record. */
  lemma {:induction false} CreditAllUnpaid(users: map<UserId, UserRecord>, plan: seq<Payout>)
    ensures forall u | !PaysUser(plan, u) :: RecordOf(CreditAll(users, plan), u) == RecordOf(users, u)
  {
    if |plan| > 0 {
      PaysUserSplit(plan);
      CreditAllUnpaid(users, plan[..|plan| - 1]);
    }
  }

  /** No credit of a plan makes a balance negative. */
  lemma {:induction false} CreditAllNonNegative(users: map<UserId, UserRecord>, plan: seq<Payout>)
    requires BalancesNonNegative(users)
    ensures BalancesNonNegative(CreditAll(users, plan))
  {
    if |plan| > 0 {
      CreditAllNonNegative(users, plan[..|plan| - 1]);
      CreditKeepsBalancesNonNegative(CreditAll(users, plan[..|plan| - 1]), plan[|plan| - 1].user, plan[|plan| - 1].reward);
    }
  }

  /** With non-negative balances and rewards and each user paid once, every paid
      user's record gains exactly their reward (no clamp) and keeps its other
      fields. */
  lemma {:induction false} CreditAllEffect(users: map<UserId, UserRecord>, plan: seq<Payout>)
    requires BalancesNonNegative(users)
    requires DistinctUsers(plan)
    requires forall i | 0 <= i < |plan| :: plan[i].reward >= 0
    ensures forall i | 0 <= i < |plan| ::
              RecordOf(CreditAll(users, plan), plan[i].user)
              == RecordOf(users, plan[i].user).(coins := Some(Balance(users, plan[i].user) + plan[i].reward))
  {
    if |plan| > 0 {
      var init := plan[..|plan| - 1];
      var last := plan[|plan| - 1];
      DistinctSplit(plan);
      CreditAllEffect(users, init);
      CreditAllUnpaid(users, init);
      var mid := CreditAll(users, init);
      var after := CreditAll(users, plan);
      assert RecordOf(mid, last.user) == RecordOf(users, last.user);
      assert Balance(mid, last.user) == Balance(users, last.user) >= 0;
      forall i | 0 <= i < |plan|
        ensures RecordOf(after, plan[i].user)
                == RecordOf(users, plan[i].user).(coins := Some(Balance(users, plan[i].user) + plan[i].reward))
      {
        if i < |init| {
          assert init[i] == plan[i];
        }
      }
    }
  }

  /** `scoresRef.child(user).update({coins: reward})` on a stored score. */
  function SetScoreCoins(scores: map<UserId, Score>, u: UserId, reward: int): map<UserId, Score>
  {
    if u in scores then scores[u := scores[u].(coins := Some(reward))] else scores
  }

  /** The score records after each payout wrote its reward. */
  function RecordRewards(scores: map<UserId, Score>, plan: seq<Payout>): map<UserId, Score>
  {
    if |plan| == 0 then scores
    else SetScoreCoins(RecordRewards(scores, plan[..|plan| - 1]), plan[|plan| - 1].user, plan[|plan| - 1].reward)
  }

  /** Recording one more entry of a plan writes one more coins field. */
  lemma RecordRewardsExtend(scores: map<UserId, Score>, plan: seq<Payout>, i: int)
    requires 0 <= i < |plan|
    ensures RecordRewards(scores, plan[..i + 1]) == SetScoreCoins(RecordRewards(scores, plan[..i]), plan[i].user, plan[i].reward)
  {
    assert plan[..i + 1][..i] == plan[..i];
  }

  /** Each paid score's coins field equals the reward credited to its user;
      nothing else in the records changes. */
  lemma {:induction false} RecordRewardsEffect(scores: map<UserId, Score>, plan: seq<Payout>)
    requires DistinctUsers(plan)
    ensures var after := RecordRewards(scores, plan);
            && after.Keys == scores.Keys
            && (forall i | 0 <= i < |plan| && plan[i].user in scores ::
                  after[plan[i].user] == scores[plan[i].user].(coins := Some(plan[i].reward)))
            && (forall u | u in scores && !PaysUser(plan, u) :: after[u] == scores[u])
  {
    if |plan| > 0 {
      var init := plan[..|plan| - 1];
      var last := plan[|plan| - 1];
      DistinctSplit(plan);
      PaysUserSplit(plan);
      RecordRewardsEffect(scores, init);
      var after := RecordRewards(scores, plan);
      forall i | 0 <= i < |plan| && plan[i].user in scores
        ensures after[plan[i].user] == scores[plan[i].user].(coins := Some(plan[i].reward))
      {
        if i < |init| {
          assert init[i] == plan[i];
        }
      }
    }
  }

  /** A settlement leaves every score of the challenge with its coins set. */
  lemma EveryScorePaid(scores: map<UserId, Score>, plan: seq<Payout>)
    requires DistinctUsers(plan)
    requires forall u :: PaysUser(plan, u) <==> u in scores
    ensures forall u | u in RecordRewards(scores, plan) :: RecordRewards(scores, plan)[u].coins.Some?
  {
    RecordRewardsEffect(scores, plan);
    forall u | u in scores ensures RecordRewards(scores, plan)[u].coins.Some? {
      assert PaysUser(plan, u);
      var k :| 0 <= k < |plan| && plan[k].user == u;
    }
  }

  // ---------------------------------------------------------------- notifications

  /** Which engine settles: the notification text differs. */
  datatype Engine = HourlyEngine | ProEngine

  function RewardMessage(engine: Engine, reward: int, rank: int): string
  {
    "You received " + IntText(reward) + " coins for placing " + RankString(rank)
    + (if engine == HourlyEngine then " in a challenge." else " in a Pro Tournament.")
  }

  function RewardNotification(engine: Engine, p: Payout, challengeID: Key, now: int): Notification
  {
    NewNotification(RewardMessage(engine, p.reward, p.rank), "challengeResults", KeyData(challengeID), now)
  }

  /** The notification each payout would send, in plan order. */
  function RewardNotes(engine: Engine, plan: seq<Payout>, challengeID: Key, now: int): (ns: seq<Notification>)
    ensures |ns| == |plan|
  {
    seq(|plan|, i requires 0 <= i < |plan| => RewardNotification(engine, plan[i], challengeID, now))
  }

  function CountPositive(plan: seq<Payout>): nat
  {
    if |plan| == 0 then 0 else CountPositive(plan[..|plan| - 1]) + (if plan[|plan| - 1].reward > 0 then 1 else 0)
  }

  /** The notifications after each payout with a positive reward pushed its
      notification `ns[i]`; keys are handed out from `next` on. */
  function NotifyAll(notes: map<UserId, map<Key, Notification>>, next: Key, plan: seq<Payout>, ns: seq<Notification>)
    : map<UserId, map<Key, Notification>>
    requires |ns| == |plan|
  {
    if |plan| == 0 then notes
    else
      var init := plan[..|plan| - 1];
      var before := NotifyAll(notes, next, init, ns[..|plan| - 1]);
      var p := plan[|plan| - 1];
      if p.reward > 0 then Push(before, p.user, next + CountPositive(init), ns[|plan| - 1])
      else before
  }

  /** Paying one more entry of a plan pushes its notification, when its reward
      is positive, under the next key. */
  lemma NotifyAllExtend(notes: map<UserId, map<Key, Notification>>, next: Key,
                        plan: seq<Payout>, ns: seq<Notification>, i: int)
    requires |ns| == |plan| && 0 <= i < |plan|
    ensures CountPositive(plan[..i + 1]) == CountPositive(plan[..i]) + (if plan[i].reward > 0 then 1 else 0)
    ensures NotifyAll(notes, next, plan[..i + 1], ns[..i + 1]) ==
              if plan[i].reward > 0
              then Push(NotifyAll(notes, next, plan[..i], ns[..i]), plan[i].user, next + CountPositive(plan[..i]), ns[i])
              else NotifyAll(notes, next, plan[..i], ns[..i])
  {
    assert plan[..i + 1][..i] == plan[..i];
    assert ns[..i + 1][..i] == ns[..i];
  }

  /** The notifications after payout i follow from those before it: a push of
      `ns[i]` under the next key when its reward is positive, nothing otherwise. */
  lemma NotifyAllStep(notes: map<UserId, map<Key, Notification>>, next: Key, plan: seq<Payout>,
                      ns: seq<Notification>, i: int, p: Payout, key: Key,
                      before: map<UserId, map<Key, Notification>>, after: map<UserId, map<Key, Notification>>)
    requires |ns| == |plan| && 0 <= i < |plan| && p == plan[i]
    requires before == NotifyAll(notes, next, plan[..i], ns[..i])
    requires key == next + CountPositive(plan[..i])
    requires p.reward > 0 ==> after == Push(before, p.user, key, ns[i])
    requires p.reward <= 0 ==> after == before
    ensures after == NotifyAll(notes, next, plan[..i + 1], ns[..i + 1])
  {
    NotifyAllExtend(notes, next, plan, ns, i);
  }

  /** Every key handed out lies below `next` + the number of positive rewards. */
  lemma {:induction false} NotifyAllKeysBelow(notes: map<UserId, map<Key, Notification>>, next: Key,
                                              plan: seq<Payout>, ns: seq<Notification>)
    requires |ns| == |plan|
    requires AllKeysBelow(notes, next)
    ensures AllKeysBelow(NotifyAll(notes, next, plan, ns), next + CountPositive(plan))
  {
    if |plan| > 0 {
      var init := plan[..|plan| - 1];
      var p := plan[|plan| - 1];
      NotifyAllKeysBelow(notes, next, init, ns[..|plan| - 1]);
      var before := NotifyAll(notes, next, init, ns[..|plan| - 1]);
      if p.reward > 0 {
        PushKeepsKeysBelow(before, p.user, next + CountPositive(init), ns[|plan| - 1]);
      }
    }
  }

  /** The notifications of a user the plan does not pay stay as they were. */
  lemma {:induction false} NotifyAllUnpaid(notes: map<UserId, map<Key, Notification>>, next: Key,
                                           plan: seq<Payout>, ns: seq<Notification>)
    requires |ns| == |plan|
    ensures forall w | !PaysUser(plan, w) :: NotesOf(NotifyAll(notes, next, plan, ns), w) == NotesOf(notes, w)
  {
    if |plan| > 0 {
      var p := plan[|plan| - 1];
      PaysUserSplit(plan);
      NotifyAllUnpaid(notes, next, plan[..|plan| - 1], ns[..|plan| - 1]);
      var before := NotifyAll(notes, next, plan[..|plan| - 1], ns[..|plan| - 1]);
      forall w | w != p.user
        ensures NotesOf(Push(before, p.user, next + CountPositive(plan[..|plan| - 1]), ns[|plan| - 1]), w) == NotesOf(before, w)
      {
        NotesOfPush(before, p.user, next + CountPositive(plan[..|plan| - 1]), ns[|plan| - 1], w);
      }
    }
  }

  /** The paid user of entry i receives their one notification, under the key
      the counter had reached, exactly when the reward is positive. */
  lemma {:induction false} NotifyAllEffect(notes: map<UserId, map<Key, Notification>>, next: Key,
                                           plan: seq<Payout>, ns: seq<Notification>, i: int)
    requires |ns| == |plan| && 0 <= i < |plan|
    requires DistinctUsers(plan)
    ensures NotesOf(NotifyAll(notes, next, plan, ns), plan[i].user) ==
              if plan[i].reward > 0
              then NotesOf(notes, plan[i].user)[next + CountPositive(plan[..i]) := ns[i]]
              else NotesOf(notes, plan[i].user)
  {
    var init := plan[..|plan| - 1];
    if i < |init| {
      var p := plan[|plan| - 1];
      var before := NotifyAll(notes, next, init, ns[..|plan| - 1]);
      DistinctSplit(plan);
      NotesOfPush(before, p.user, next + CountPositive(init), ns[|plan| - 1], plan[i].user);
      NotifyAllEffect(notes, next, init, ns[..|plan| - 1], i);
      assert init[i] == plan[i] && init[..i] == plan[..i] && ns[..|plan| - 1][i] == ns[i];
      assert plan[i].user != p.user;
    } else {
      NotifyAllLast(notes, next, plan, ns);
      assert plan[..i] == init;
    }
  }

  /** The last entry's user: the earlier entries, paying other users, leave
      their notifications alone, so only the last push can touch them. */
  lemma NotifyAllLast(notes: map<UserId, map<Key, Notification>>, next: Key,
                      plan: seq<Payout>, ns: seq<Notification>)
    requires |ns| == |plan| > 0
    requires DistinctUsers(plan)
    ensures var n := |plan| - 1;
            NotesOf(NotifyAll(notes, next, plan, ns), plan[n].user) ==
              if plan[n].reward > 0
              then NotesOf(notes, plan[n].user)[next + CountPositive(plan[..n]) := ns[n]]
              else NotesOf(notes, plan[n].user)
  {
    var init := plan[..|plan| - 1];
    var p := plan[|plan| - 1];
    var before := NotifyAll(notes, next, init, ns[..|plan| - 1]);
    DistinctSplit(plan);
    NotifyAllUnpaid(notes, next, init, ns[..|plan| - 1]);
    NotesOfPush(before, p.user, next + CountPositive(init), ns[|plan| - 1], p.user);
  }
}
