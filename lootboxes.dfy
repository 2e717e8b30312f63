/** lootboxFunctions.ts: buying a loot box for coins and opening one, which
    unlocks a random catalogue item the user does not own yet. */
module LootBoxes {
  import opened Common
  import opened Store
  import opened Ledger

  const LootBoxPrice: int := 100

  /** A stored count, 0 when the field is absent. */
  function CountOf(field: Option<int>): int
  {
    if field.Some? then field.value else 0
  }

  // ---------------------------------------------------------------- the options list

  /** The catalogue's item keys, category after category. */
  function Flatten(catalog: seq<seq<ItemId>>): seq<ItemId>
  {
    if |catalog| == 0 then [] else Flatten(catalog[..|catalog| - 1]) + catalog[|catalog| - 1]
  }

  /** The keys of `items` not in `owned`, in their order. */
  function Unowned(items: seq<ItemId>, owned: set<ItemId>): seq<ItemId>
  {
    if |items| == 0 then []
    else Unowned(items[..|items| - 1], owned) + (if items[|items| - 1] in owned then [] else [items[|items| - 1]])
  }

  lemma {:induction false} UnownedAppend(a: seq<ItemId>, b: seq<ItemId>, owned: set<ItemId>)
    ensures Unowned(a + b, owned) == Unowned(a, owned) + Unowned(b, owned)
    decreases |b|
  {
    if |b| > 0 {
      var b' := b[..|b| - 1];
      assert (a + b)[..|a + b| - 1] == a + b';
      UnownedAppend(a, b', owned);
    } else {
      assert a + b == a;
    }
  }

  /** An item is an option exactly when it is in the catalogue and not owned. */
  lemma {:induction false} UnownedMembers(items: seq<ItemId>, owned: set<ItemId>, x: ItemId)
    ensures x in Unowned(items, owned) <==> x in items && x !in owned
    decreases |items|
  {
    if |items| > 0 {
      var front := items[..|items| - 1];
      UnownedMembers(front, owned, x);
      assert items == front + [items[|items| - 1]];
    }
  }

  /** An item is in the flattened catalogue exactly when some category lists it. */
  lemma {:induction false} FlattenMembers(catalog: seq<seq<ItemId>>, x: ItemId)
    ensures x in Flatten(catalog) <==> exists i | 0 <= i < |catalog| :: x in catalog[i]
    decreases |catalog|
  {
    if |catalog| > 0 {
      var front := catalog[..|catalog| - 1];
      FlattenMembers(front, x);
      if x in Flatten(catalog) && x !in catalog[|catalog| - 1] {
        var i :| 0 <= i < |front| && x in front[i];
        assert catalog[i] == front[i];
      }
      if exists i | 0 <= i < |catalog| :: x in catalog[i] {
        var i :| 0 <= i < |catalog| && x in catalog[i];
        if i < |front| {
          assert front[i] == catalog[i];
        }
      }
    }
  }

  /** The nested forEach over categories and items that collects the keys
      the user does not own. */
  method BuildOptions(catalog: seq<seq<ItemId>>, owned: set<ItemId>) returns (options: seq<ItemId>)
    ensures options == Unowned(Flatten(catalog), owned)
  {
    options := [];
    for i := 0 to |catalog|
      invariant options == Unowned(Flatten(catalog[..i]), owned)
    {
      var category := catalog[i];
      for j := 0 to |category|
        invariant options == Unowned(Flatten(catalog[..i]), owned) + Unowned(category[..j], owned)
      {
        if category[j] !in owned {
          options := options + [category[j]];
        }
        assert category[..j + 1][..j] == category[..j];
      }
      assert category[..|category|] == category;
      assert catalog[..i + 1][..i] == catalog[..i];
      UnownedAppend(Flatten(catalog[..i]), category, owned);
    }
    assert catalog[..|catalog|] == catalog;
  }

  /** Nothing can be offered exactly when the user owns every catalogue item. */
  lemma OptionsEmptyIffAllOwned(catalog: seq<seq<ItemId>>, owned: set<ItemId>)
    ensures |Unowned(Flatten(catalog), owned)| == 0 <==>
              forall i, x | 0 <= i < |catalog| && x in catalog[i] :: x in owned
  {
    var options := Unowned(Flatten(catalog), owned);
    if |options| == 0 {
      forall i, x | 0 <= i < |catalog| && x in catalog[i]
        ensures x in owned
      {
        FlattenMembers(catalog, x);
        UnownedMembers(Flatten(catalog), owned, x);
      }
    } else {
      var x := options[0];
      UnownedMembers(Flatten(catalog), owned, x);
      FlattenMembers(catalog, x);
    }
  }

  // ---------------------------------------------------------------- opening

  function OwnedBy(unlocks: map<UserId, map<ItemId, bool>>, u: UserId): map<ItemId, bool>
  {
    if u in unlocks then unlocks[u] else map[]
  }

  datatype OpenResult = NoSuchUser | NoLootBoxes | OwnsAllGear | Opened(item: ItemId, lootBoxes: int)

  /** openLootBoxAsync. An unknown user, a count (0 when absent) of at most 0,
      and a user who owns every catalogue item are refused in that order and
      change nothing. Otherwise the item at index floor(r * |options|) of the
      unowned items is unlocked, not equipped, and the count drops by one. */
  method OpenLootBox(db: Database, userID: UserId, r: real) returns (res: OpenResult)
    requires 0.0 <= r < 1.0
    requires db.Valid()
    modifies db`users, db`unlocks
    ensures db.Valid()
    ensures res == NoSuchUser <==> userID !in old(db.users)
    ensures res == NoLootBoxes <==> userID in old(db.users) && CountOf(old(db.users)[userID].lootBoxes) <= 0
    ensures res == OwnsAllGear <==>
              && userID in old(db.users) && CountOf(old(db.users)[userID].lootBoxes) > 0
              && forall i, x | 0 <= i < |db.itemCatalog| && x in db.itemCatalog[i] :: x in OwnedBy(old(db.unlocks), userID)
    ensures !res.Opened? ==> db.users == old(db.users) && db.unlocks == old(db.unlocks)
    ensures res.Opened? ==>
              var rec := old(db.users)[userID];
              var owned := OwnedBy(old(db.unlocks), userID);
              && res.item !in owned
              && (exists i | 0 <= i < |db.itemCatalog| :: res.item in db.itemCatalog[i])
              && |Unowned(Flatten(db.itemCatalog), owned.Keys)| > 0
              && res.item == Unowned(Flatten(db.itemCatalog), owned.Keys)[
                               RandomIndex(r, |Unowned(Flatten(db.itemCatalog), owned.Keys)|)]
              && res.lootBoxes == CountOf(rec.lootBoxes) - 1 >= 0
              && db.unlocks == old(db.unlocks)[userID := owned[res.item := false]]
              && db.users == old(db.users)[userID := rec.(lootBoxes := Some(res.lootBoxes))]
  {
    if userID !in db.users {
      return NoSuchUser;
    }
    var count := CountOf(db.users[userID].lootBoxes);
    if count <= 0 {
      return NoLootBoxes;
    }
    var owned := OwnedBy(db.unlocks, userID);
    var options := BuildOptions(db.itemCatalog, owned.Keys);
    OptionsEmptyIffAllOwned(db.itemCatalog, owned.Keys);
    if |options| == 0 {
      return OwnsAllGear;
    }
    var newItem := options[RandomIndex(r, |options|)];
    UnownedMembers(Flatten(db.itemCatalog), owned.Keys, newItem);
    FlattenMembers(db.itemCatalog, newItem);
    count := count - 1;
    db.unlocks := db.unlocks[userID := owned[newItem := false]];
    db.users := db.users[userID := db.users[userID].(lootBoxes := Some(count))];
    res := Opened(newItem, count);
  }

  /** Opening unlocks one more item each time until the user owns the whole
      catalogue: the new owned set is the old one plus an item it lacked. */
  lemma OpenGrowsOwned(owned: map<ItemId, bool>, item: ItemId)
    requires item !in owned
    ensures owned[item := false].Keys == owned.Keys + {item}
    ensures |owned[item := false].Keys| == |owned.Keys| + 1
  {
  }

  // ---------------------------------------------------------------- buying

  datatype BuyResult = UnknownBuyer | TooFewCoins | Bought(lootBoxes: int, coins: int)

  /** buyLootBoxAsync. An unknown user, and a balance (0 when absent) below the
      price, are refused and change nothing. Otherwise the price is taken, one
      box added, and both new values returned and written. */
  method BuyLootBox(db: Database, userID: UserId) returns (res: BuyResult)
    requires db.Valid()
    modifies db`users
    ensures db.Valid()
    ensures res == UnknownBuyer <==> userID !in old(db.users)
    ensures res == TooFewCoins <==> userID in old(db.users) && Balance(old(db.users), userID) < LootBoxPrice
    ensures !res.Bought? ==> db.users == old(db.users)
    ensures res.Bought? ==>
              var rec := old(db.users)[userID];
              && res.coins == Balance(old(db.users), userID) - LootBoxPrice >= 0
              && res.lootBoxes == CountOf(rec.lootBoxes) + 1
              && db.users == old(db.users)[userID := rec.(lootBoxes := Some(res.lootBoxes), coins := Some(res.coins))]
  {
    if userID !in db.users {
      return UnknownBuyer;
    }
    var rec := db.users[userID];
    var count := CountOf(rec.lootBoxes);
    var coins := CountOf(rec.coins);
    if coins < LootBoxPrice {
      return TooFewCoins;
    }
    coins := coins - LootBoxPrice;
    count := count + 1;
    db.users := db.users[userID := rec.(lootBoxes := Some(count), coins := Some(coins))];
    res := Bought(count, coins);
  }

  /** buyLootBoxAsync followed by openLootBoxAsync for the same user. When both
      succeed the balance is down by the price, the box count is back where it
      was, the display name is untouched, and the owned items gain exactly the
      opened one, which the user did not own before. When the purchase succeeds
      but every item is owned, the coins are spent and the box is kept. */
  method BuyThenOpen(db: Database, userID: UserId, r: real) returns (bought: BuyResult, opening: OpenResult)
    requires 0.0 <= r < 1.0
    requires db.Valid()
    modifies db`users, db`unlocks
    ensures db.Valid()
    ensures bought.Bought? <==> userID in old(db.users) && Balance(old(db.users), userID) >= LootBoxPrice
    ensures bought.Bought? ==> opening != NoSuchUser && userID in db.users
    ensures bought.Bought? && CountOf(old(db.users)[userID].lootBoxes) >= 0 ==>
              opening.Opened? || opening == OwnsAllGear
    ensures opening.Opened? ==> exists i | 0 <= i < |db.itemCatalog| :: opening.item in db.itemCatalog[i]
    ensures bought.Bought? && opening.Opened? ==>
              && Balance(db.users, userID) == Balance(old(db.users), userID) - LootBoxPrice
              && CountOf(db.users[userID].lootBoxes) == CountOf(old(db.users)[userID].lootBoxes)
              && db.users[userID].displayName == old(db.users)[userID].displayName
              && opening.item !in OwnedBy(old(db.unlocks), userID)
              && OwnedBy(db.unlocks, userID).Keys == OwnedBy(old(db.unlocks), userID).Keys + {opening.item}
    ensures bought.Bought? && opening == OwnsAllGear ==>
              && Balance(db.users, userID) == Balance(old(db.users), userID) - LootBoxPrice
              && CountOf(db.users[userID].lootBoxes) == CountOf(old(db.users)[userID].lootBoxes) + 1
              && db.unlocks == old(db.unlocks)
  {
    bought := BuyLootBox(db, userID);
    opening := OpenLootBox(db, userID, r);
    if bought.Bought? && opening.Opened? {
      OpenGrowsOwned(OwnedBy(old(db.unlocks), userID), opening.item);
    }
  }
}
