/** adminFunctions.ts: the coin report over every user — highest balance and
    its holder, how many users hold more than 10,000 and more than 50,000
    coins, and the total. */
module Admin {
  import opened Common
  import opened Store
  import opened Ledger

  const Threshold10000: int := 10000
  const Threshold50000: int := 50000

  datatype Report = Report(total: int, highest: int, highestUser: UserId, over10000: nat, over50000: nat)

  /** `order` lists every user exactly once, as the snapshot's forEach visits them. */
  predicate Listing(users: map<UserId, UserRecord>, order: seq<UserId>)
  {
    && (forall i | 0 <= i < |order| :: order[i] in users)
    && (forall u | u in users :: u in order)
    && (forall i, j | 0 <= i < j < |order| :: order[i] != order[j])
  }

  /** The coins of the listed users, added up. */
  function CoinSum(users: map<UserId, UserRecord>, order: seq<UserId>): int
  {
    if |order| == 0 then 0 else CoinSum(users, order[..|order| - 1]) + Balance(users, order[|order| - 1])
  }

  /** How many of the listed users hold more than `threshold` coins. */
  function CountAbove(users: map<UserId, UserRecord>, order: seq<UserId>, threshold: int): nat
  {
    if |order| == 0 then 0
    else CountAbove(users, order[..|order| - 1], threshold) + (if Balance(users, order[|order| - 1]) > threshold then 1 else 0)
  }

  /** `highest` is the largest balance, at least 0, and `highestUser` the
      first listed user holding it; both keep their initial 0 and "" when no
      balance is positive. */
  ghost predicate HighestOf(users: map<UserId, UserRecord>, order: seq<UserId>, highest: int, highestUser: UserId)
  {
    && highest >= 0
    && (forall i | 0 <= i < |order| :: Balance(users, order[i]) <= highest)
    && (highest == 0 ==> highestUser == "")
    && (highest > 0 ==> exists i | 0 <= i < |order| ::
          && order[i] == highestUser && Balance(users, order[i]) == highest
          && forall j | 0 <= j < i :: Balance(users, order[j]) < highest)
  }

  /** getUserStatsAsync's loop over the users (an absent balance counts as 0:
      it is never above a threshold and adds nothing to the total). */
  method UserReport(users: map<UserId, UserRecord>, order: seq<UserId>) returns (rep: Report)
    requires Listing(users, order)
    ensures HighestOf(users, order, rep.highest, rep.highestUser)
    ensures forall u | u in users :: Balance(users, u) <= rep.highest
    ensures rep.total == CoinSum(users, order)
    ensures rep.over10000 == CountAbove(users, order, Threshold10000)
    ensures rep.over50000 == CountAbove(users, order, Threshold50000)
  {
    var total := 0;
    var highest := 0;
    var highestUser := "";
    var usersWith10000Coins := 0;
    var usersWith50000Coins := 0;
    for k := 0 to |order|
      invariant HighestOf(users, order[..k], highest, highestUser)
      invariant total == CoinSum(users, order[..k])
      invariant usersWith10000Coins == CountAbove(users, order[..k], Threshold10000)
      invariant usersWith50000Coins == CountAbove(users, order[..k], Threshold50000)
    {
      var coins := Balance(users, order[k]);
      SumsStep(users, order, k);
      HighestStep(users, order, k, highest, highestUser);
      if coins > highest {
        highest := coins;
        highestUser := order[k];
      }
      if coins > Threshold10000 {
        usersWith10000Coins := usersWith10000Coins + 1;
      }
      if coins > Threshold50000 {
        usersWith50000Coins := usersWith50000Coins + 1;
      }
      total := total + coins;
    }
    assert order[..|order|] == order;
    HighestCoversListing(users, order, highest, highestUser);
    rep := Report(total, highest, highestUser, usersWith10000Coins, usersWith50000Coins);
  }

  /** The total and both counts of the first k + 1 users extend those of the first k. */
  lemma SumsStep(users: map<UserId, UserRecord>, order: seq<UserId>, k: nat)
    requires k < |order|
    ensures var coins := Balance(users, order[k]);
            && CoinSum(users, order[..k + 1]) == CoinSum(users, order[..k]) + coins
            && CountAbove(users, order[..k + 1], Threshold10000)
                 == CountAbove(users, order[..k], Threshold10000) + (if coins > Threshold10000 then 1 else 0)
            && CountAbove(users, order[..k + 1], Threshold50000)
                 == CountAbove(users, order[..k], Threshold50000) + (if coins > Threshold50000 then 1 else 0)
  {
    assert order[..k + 1][..k] == order[..k];
  }

  /** Over a listing of every user, the running maximum bounds every balance. */
  lemma HighestCoversListing(users: map<UserId, UserRecord>, order: seq<UserId>, highest: int, highestUser: UserId)
    requires Listing(users, order)
    requires HighestOf(users, order, highest, highestUser)
    ensures forall u | u in users :: Balance(users, u) <= highest
  {
    forall u | u in users
      ensures Balance(users, u) <= highest
    {
      var i :| 0 <= i < |order| && order[i] == u;
    }
  }

  /** One more user: the running maximum and its first holder follow it. */
  lemma HighestStep(users: map<UserId, UserRecord>, order: seq<UserId>, k: nat, highest: int, highestUser: UserId)
    requires k < |order|
    requires HighestOf(users, order[..k], highest, highestUser)
    ensures var coins := Balance(users, order[k]);
            && (coins > highest ==> HighestOf(users, order[..k + 1], coins, order[k]))
            && (coins <= highest ==> HighestOf(users, order[..k + 1], highest, highestUser))
  {
    var front, next := order[..k], order[..k + 1];
    var coins := Balance(users, order[k]);
    assert forall i | 0 <= i < k :: front[i] == order[i] == next[i];
    assert next[k] == order[k];
    if coins > highest {
      assert forall j | 0 <= j < k :: Balance(users, next[j]) <= highest;
    } else if highest > 0 {
      var i :| 0 <= i < k && front[i] == highestUser && Balance(users, front[i]) == highest
               && forall j | 0 <= j < i :: Balance(users, front[j]) < highest;
      assert next[i] == highestUser;
    }
  }

  /** More than 50,000 is more than 10,000: the second count never exceeds the first. */
  lemma {:induction false} CountsNested(users: map<UserId, UserRecord>, order: seq<UserId>)
    ensures CountAbove(users, order, Threshold50000) <= CountAbove(users, order, Threshold10000) <= |order|
    decreases |order|
  {
    if |order| > 0 {
      CountsNested(users, order[..|order| - 1]);
    }
  }

  /** With no users the report is all zeros and names nobody. */
  lemma EmptyReport(users: map<UserId, UserRecord>, highest: int, highestUser: UserId)
    requires HighestOf(users, [], highest, highestUser)
    ensures highest == 0 && highestUser == ""
    ensures CoinSum(users, []) == 0 && CountAbove(users, [], Threshold10000) == 0
  {
  }

  /** With every balance non-negative the total bounds the highest balance. */
  lemma {:induction false} HighestWithinTotal(users: map<UserId, UserRecord>, order: seq<UserId>, i: nat)
    requires BalancesNonNegative(users)
    requires i < |order|
    ensures Balance(users, order[i]) <= CoinSum(users, order)
    decreases |order|
  {
    var n := |order| - 1;
    NonNegativeSum(users, order[..n]);
    if i < n {
      HighestWithinTotal(users, order[..n], i);
      assert order[..n][i] == order[i];
      assert Balance(users, order[n]) >= 0;
    }
  }

  lemma {:induction false} NonNegativeSum(users: map<UserId, UserRecord>, order: seq<UserId>)
    requires BalancesNonNegative(users)
    ensures CoinSum(users, order) >= 0
    decreases |order|
  {
    if |order| > 0 {
      NonNegativeSum(users, order[..|order| - 1]);
    }
  }
}
