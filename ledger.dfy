/** mainFunctions.ts: the coin ledger (addCoinsAsync), the ordinal rank label
    (getRankString) and the display-name lookup (getDisplayNameAsync). */
module Ledger {
  import opened Common
  import opened Decimal
  import opened Store

  // ---------------------------------------------------------------- rank labels

  function RankSuffix(lastDigit: int): string
  {
    if lastDigit == 3 then "rd"
    else if lastDigit == 2 then "nd"
    else if lastDigit == 1 then "st"
    else "th"
  }

  /** getRankString: the rank's decimal text and a suffix chosen by `rank % 10`. */
  function RankString(rank: int): (s: string)
    ensures |s| == |IntText(rank)| + 2 && s[..|IntText(rank)|] == IntText(rank)
    ensures s[|s| - 2..] in {"st", "nd", "rd", "th"}
  {
    IntText(rank) + RankSuffix(JsRem(rank, 10))
  }

  /** For a rank r >= 0 the label is r's decimal text and the suffix of r % 10. */
  lemma RankStringParts(rank: nat)
    ensures RankString(rank) == NatText(rank) + RankSuffix(rank % 10)
  {
  }

  /** For a rank r >= 0, the label is r's decimal text followed by a two-letter
      suffix, and the suffix is "st", "nd" or "rd" exactly when the text's last
      digit is 1, 2 or 3, and "th" otherwise. */
  lemma {:induction false} RankSuffixFollowsLastDigit(rank: nat)
    ensures var t := NatText(rank);
            var s := RankString(rank);
            && |s| == |t| + 2
            && s[..|t|] == t
            && (s[|t|..] == "st" <==> t[|t| - 1] == '1')
            && (s[|t|..] == "nd" <==> t[|t| - 1] == '2')
            && (s[|t|..] == "rd" <==> t[|t| - 1] == '3')
            && (s[|t|..] == "th" <==> t[|t| - 1] !in "123")
  {
    var t := NatText(rank);
    RankStringParts(rank);
    assert RankString(rank)[|t|..] == RankSuffix(rank % 10);
    SuffixOfDigit(rank % 10);
  }

  /** The suffix of a last digit d against the character that writes d. */
  lemma SuffixOfDigit(d: nat)
    requires d < 10
    ensures var c := DigitChar(d);
            && (RankSuffix(d) == "st" <==> c == '1')
            && (RankSuffix(d) == "nd" <==> c == '2')
            && (RankSuffix(d) == "rd" <==> c == '3')
            && (RankSuffix(d) == "th" <==> c !in "123")
  {
    assert DigitValue(DigitChar(d)) == d;
    assert DigitValue('1') == 1 && DigitValue('2') == 2 && DigitValue('3') == 3;
  }

  /** The first places and a round rank. */
  lemma SmallRanks()
    ensures RankString(1) == "1st" && RankString(2) == "2nd" && RankString(3) == "3rd"
    ensures RankString(4) == "4th" && RankString(10) == "10th"
  {
    assert IntText(10) == "10";
  }

  /** There is no exception for 11 to 13: the label follows the last digit only. */
  lemma TeenRanks()
    ensures RankString(11) == "11st" && RankString(12) == "12nd" && RankString(13) == "13rd"
    ensures RankString(21) == "21st"
  {
    assert IntText(11) == "11";
    assert IntText(12) == "12";
    assert IntText(13) == "13";
    assert IntText(21) == "21";
  }

  // ---------------------------------------------------------------- balances

  /** The record of a user, or the empty record a write under `users/<id>` starts from. */
  function RecordOf(users: map<UserId, UserRecord>, u: UserId): UserRecord
  {
    if u in users then users[u] else EmptyUser
  }

  /** The balance the code reads: a stored value, or 0 when the field is absent. */
  function Balance(users: map<UserId, UserRecord>, u: UserId): int
  {
    if u in users && users[u].coins.Some? then users[u].coins.value else 0
  }

  /** Write `v` to `users/<u>/coins`; nothing else changes. */
  function SetCoins(users: map<UserId, UserRecord>, u: UserId, v: int): (r: map<UserId, UserRecord>)
    ensures r.Keys == users.Keys + {u}
    ensures Balance(r, u) == v && r[u].coins == Some(v)
    ensures r[u].displayName == RecordOf(users, u).displayName
    ensures r[u].lootBoxes == RecordOf(users, u).lootBoxes
    ensures forall w | w in users && w != u :: r[w] == users[w]
  {
    users[u := RecordOf(users, u).(coins := Some(v))]
  }

  /** The value the addCoinsAsync transaction returns for a balance and a delta:
      their sum, or 0 when the sum is negative. */
  function ClampedSum(balance: int, delta: int): (r: int)
    ensures r >= 0 && r >= balance + delta
    ensures r == balance + delta || r == 0
  {
    var coins := balance + delta;
    if coins < 0 then 0 else coins
  }

  /** The users after addCoinsAsync(u, delta). */
  function Credit(users: map<UserId, UserRecord>, u: UserId, delta: int): (r: map<UserId, UserRecord>)
    ensures r.Keys == users.Keys + {u}
    ensures Balance(r, u) >= 0 && Balance(r, u) >= Balance(users, u) + delta
    ensures forall w | w in users && w != u :: r[w] == users[w]
  {
    SetCoins(users, u, ClampedSum(Balance(users, u), delta))
  }

  /** addCoins sets the balance to b + d when that is non-negative and to 0
      otherwise, and changes only the coins field of the given user. */
  lemma CreditEffect(users: map<UserId, UserRecord>, u: UserId, delta: int)
    ensures var r := Credit(users, u, delta);
            && r.Keys == users.Keys + {u}
            && (Balance(users, u) + delta >= 0 ==> Balance(r, u) == Balance(users, u) + delta)
            && (Balance(users, u) + delta < 0 ==> Balance(r, u) == 0)
            && r[u] == RecordOf(users, u).(coins := Some(Balance(r, u)))
            && (forall w | w in users && w != u :: r[w] == users[w])
  {
  }

  /** With a non-negative balance and delta, exactly the delta is added. */
  lemma CreditAddsExactly(users: map<UserId, UserRecord>, u: UserId, delta: int)
    requires Balance(users, u) >= 0 && delta >= 0
    ensures Balance(Credit(users, u, delta), u) == Balance(users, u) + delta
  {
  }

  /** No stored balance becomes negative. */
  lemma CreditKeepsBalancesNonNegative(users: map<UserId, UserRecord>, u: UserId, delta: int)
    requires BalancesNonNegative(users)
    ensures BalancesNonNegative(Credit(users, u, delta))
  {
  }

  /** Two credits that never dip below zero add up to one. */
  lemma CreditsCompose(users: map<UserId, UserRecord>, u: UserId, d1: int, d2: int)
    requires Balance(users, u) + d1 >= 0
    ensures Credit(Credit(users, u, d1), u, d2) == Credit(users, u, d1 + d2)
  {
    var once := Credit(users, u, d1);
    assert RecordOf(once, u) == RecordOf(users, u).(coins := Some(Balance(users, u) + d1));
  }

  /** addCoinsAsync: read the balance (0 when absent), add, clamp at 0, write back.
      It reports success whether or not it clamped. */
  method AddCoins(db: Database, userID: UserId, value: int) returns (ok: bool)
    modifies db`users
    ensures ok
    ensures db.users == Credit(old(db.users), userID, value)
    ensures old(db.Valid()) ==> db.Valid()
  {
    if BalancesNonNegative(db.users) {
      CreditKeepsBalancesNonNegative(db.users, userID, value);
    }
    var coins := Balance(db.users, userID);
    coins := coins + value;
    if coins < 0 {
      coins := 0;
    }
    db.users := SetCoins(db.users, userID, coins);
    ok := true;
  }

  // ---------------------------------------------------------------- display names

  /** getDisplayNameAsync: the stored displayName, or "Player" when there is none. */
  function DisplayName(users: map<UserId, UserRecord>, u: UserId): (name: string)
    ensures u in users && users[u].displayName.Some? ==> name == users[u].displayName.value
    ensures !(u in users && users[u].displayName.Some?) ==> name == "Player"
  {
    match RecordOf(users, u).displayName
    case Some(n) => n
    case None => "Player"
  }

  /** Writing a balance, directly or through addCoins, never changes the name a
      user is shown under. */
  lemma CoinsKeepDisplayNames(users: map<UserId, UserRecord>, u: UserId, v: int, delta: int, w: UserId)
    ensures DisplayName(SetCoins(users, u, v), w) == DisplayName(users, w)
    ensures DisplayName(Credit(users, u, delta), w) == DisplayName(users, w)
  {
  }
}
