/** statsFunctions.ts: folding one fishing round (the casts and the fish
    caught) into a user's cumulative statistics. */
module Stats {
  import opened Common
  import opened Store

  const NoCatch := CaughtFish("", 0.0)

  // ---------------------------------------------------------------- reference definitions

  /** The ounces of a round's fish, added up. */
  function OunceSum(fish: seq<CaughtFish>): real
  {
    if |fish| == 0 then 0.0 else OunceSum(fish[..|fish| - 1]) + fish[|fish| - 1].ounces
  }

  /** The record kept as biggest catch after `fish`, starting from `start`:
      a fish replaces it only when strictly heavier. */
  function Biggest(start: CaughtFish, fish: seq<CaughtFish>): CaughtFish
  {
    if |fish| == 0 then start
    else
      var b := Biggest(start, fish[..|fish| - 1]);
      if fish[|fish| - 1].ounces > b.ounces then fish[|fish| - 1] else b
  }

  /** The per-name tally after one more fish. */
  function AddCatch(byFish: map<string, FishStats>, f: CaughtFish): map<string, FishStats>
  {
    if f.name in byFish then
      byFish[f.name := FishStats(byFish[f.name].totalCaught + 1, byFish[f.name].totalOunces + f.ounces)]
    else byFish[f.name := FishStats(1, f.ounces)]
  }

  /** The per-name tally after every fish of the round, in order. */
  function Tally(byFish: map<string, FishStats>, fish: seq<CaughtFish>): map<string, FishStats>
  {
    if |fish| == 0 then byFish else AddCatch(Tally(byFish, fish[..|fish| - 1]), fish[|fish| - 1])
  }

  /** How many of the fish carry `name`. */
  function CountNamed(fish: seq<CaughtFish>, name: string): nat
  {
    if |fish| == 0 then 0 else (if fish[0].name == name then 1 else 0) + CountNamed(fish[1..], name)
  }

  /** The ounces of the fish that carry `name`. */
  function OuncesNamed(fish: seq<CaughtFish>, name: string): real
  {
    if |fish| == 0 then 0.0 else (if fish[0].name == name then fish[0].ounces else 0.0) + OuncesNamed(fish[1..], name)
  }

  /** The statistics saveStatsAsync writes, from the stored ones (if any), the
      round's casts and its fish. Prior totals go through parseInt, so the
      stored ounces lose their fraction. */
  function Summarize(prior: Option<UserStats>, casts: int, fish: seq<CaughtFish>): (st: UserStats)
    ensures forall j | 0 <= j < |fish| :: fish[j].ounces <= st.biggestCatch.ounces
    ensures prior.Some? ==> st.biggestCatch.ounces >= prior.value.biggestCatch.ounces
    ensures st.totalCatches == |fish| + (if prior.Some? then prior.value.totalCatches else 0)
  {
    BiggestIsEarliestHeaviest(if prior.Some? then prior.value.biggestCatch else NoCatch, fish);
    match prior
    case None =>
      UserStats(Biggest(NoCatch, fish), casts, |fish|, OunceSum(fish), Tally(map[], fish))
    case Some(p) =>
      UserStats(Biggest(p.biggestCatch, fish), casts + p.totalCasts, p.totalCatches + |fish|,
                Truncate(p.totalOunces) as real + OunceSum(fish), Tally(p.catchesByFish, fish))
  }

  // ---------------------------------------------------------------- the method

  /** saveStatsAsync: read the stored statistics, fold the round's fish into
      the totals, the biggest catch and the per-name tallies one by one, and
      write the result. */
  method SaveStats(db: Database, userID: UserId, casts: int, fishCaught: seq<CaughtFish>)
    modifies db`userStats
    ensures db.userStats == old(db.userStats)[userID :=
              Summarize(if userID in old(db.userStats) then Some(old(db.userStats)[userID]) else None, casts, fishCaught)]
  {
    var biggestCatch := NoCatch;
    var catchesByFish: map<string, FishStats> := map[];
    var totalCasts := casts;
    var totalCatches := 0;
    var totalOunces := 0.0;
    if userID in db.userStats {
      var stored := db.userStats[userID];
      totalCasts := totalCasts + stored.totalCasts;
      totalCatches := stored.totalCatches;
      totalOunces := Truncate(stored.totalOunces) as real;
      biggestCatch := stored.biggestCatch;
      catchesByFish := stored.catchesByFish;
    }
    ghost var catches0, ounces0, biggest0, byFish0 := totalCatches, totalOunces, biggestCatch, catchesByFish;
    for i := 0 to |fishCaught|
      invariant totalCatches == catches0 + i
      invariant totalOunces == ounces0 + OunceSum(fishCaught[..i])
      invariant biggestCatch == Biggest(biggest0, fishCaught[..i])
      invariant catchesByFish == Tally(byFish0, fishCaught[..i])
    {
      var element := fishCaught[i];
      assert fishCaught[..i + 1][..i] == fishCaught[..i];
      totalCatches := totalCatches + 1;
      totalOunces := totalOunces + element.ounces;
      if element.ounces > biggestCatch.ounces {
        biggestCatch := element;
      }
      if element.name in catchesByFish {
        var existing := catchesByFish[element.name];
        existing := FishStats(existing.totalCaught + 1, existing.totalOunces + element.ounces);
        catchesByFish := catchesByFish[element.name := existing];
      } else {
        catchesByFish := catchesByFish[element.name := FishStats(1, element.ounces)];
      }
    }
    assert fishCaught[..|fishCaught|] == fishCaught;
    db.userStats := db.userStats[userID := UserStats(biggestCatch, totalCasts, totalCatches, totalOunces, catchesByFish)];
  }

  // ---------------------------------------------------------------- what the fold means

  /** The biggest catch is the start or one of the fish, weighs at least as
      much as every one of them, and when it is a fish of the round, every
      earlier fish and the start were strictly lighter: on a tie the earliest
      record stays. */
  lemma {:induction false} BiggestIsEarliestHeaviest(start: CaughtFish, fish: seq<CaughtFish>)
    ensures var b := Biggest(start, fish);
            && b.ounces >= start.ounces
            && (forall j | 0 <= j < |fish| :: fish[j].ounces <= b.ounces)
            && (b == start || exists i | 0 <= i < |fish| :: b == fish[i])
            && (b != start ==> exists i | 0 <= i < |fish| ::
                  && b == fish[i] && start.ounces < b.ounces
                  && forall j | 0 <= j < i :: fish[j].ounces < b.ounces)
    decreases |fish|
  {
    if |fish| > 0 {
      var n := |fish| - 1;
      var front := fish[..n];
      BiggestIsEarliestHeaviest(start, front);
      var prev := Biggest(start, front);
      assert forall j | 0 <= j < n :: front[j] == fish[j];
      if fish[n].ounces > prev.ounces {
        assert fish[n] == Biggest(start, fish);
      } else if prev != start {
        var i :| 0 <= i < n && prev == front[i] && start.ounces < prev.ounces
                 && forall j | 0 <= j < i :: front[j].ounces < prev.ounces;
        assert prev == fish[i];
      }
    }
  }

  lemma {:induction false} OunceSumAppend(a: seq<CaughtFish>, b: seq<CaughtFish>)
    ensures OunceSum(a + b) == OunceSum(a) + OunceSum(b)
    decreases |b|
  {
    if |b| == 0 {
      assert a + b == a;
    } else {
      assert (a + b)[..|a + b| - 1] == a + b[..|b| - 1];
      OunceSumAppend(a, b[..|b| - 1]);
    }
  }

  lemma {:induction false} BiggestAppend(start: CaughtFish, a: seq<CaughtFish>, b: seq<CaughtFish>)
    ensures Biggest(start, a + b) == Biggest(Biggest(start, a), b)
    decreases |b|
  {
    if |b| == 0 {
      assert a + b == a;
    } else {
      assert (a + b)[..|a + b| - 1] == a + b[..|b| - 1];
      BiggestAppend(start, a, b[..|b| - 1]);
    }
  }

  lemma {:induction false} TallyAppend(byFish: map<string, FishStats>, a: seq<CaughtFish>, b: seq<CaughtFish>)
    ensures Tally(byFish, a + b) == Tally(Tally(byFish, a), b)
    decreases |b|
  {
    if |b| == 0 {
      assert a + b == a;
    } else {
      assert (a + b)[..|a + b| - 1] == a + b[..|b| - 1];
      TallyAppend(byFish, a, b[..|b| - 1]);
    }
  }

  lemma {:induction false} NamedAppend(a: seq<CaughtFish>, f: CaughtFish, name: string)
    ensures CountNamed(a + [f], name) == CountNamed(a, name) + (if f.name == name then 1 else 0)
    ensures OuncesNamed(a + [f], name) == OuncesNamed(a, name) + (if f.name == name then f.ounces else 0.0)
    decreases |a|
  {
    if |a| == 0 {
      assert (a + [f])[1..] == [];
    } else {
      assert (a + [f])[1..] == a[1..] + [f];
      NamedAppend(a[1..], f, name);
    }
  }

  /** Each name caught this round gains its count and its ounces; a name not
      caught keeps its record, or stays absent. */
  lemma {:induction false} TallyCountsEachName(byFish: map<string, FishStats>, fish: seq<CaughtFish>, name: string)
    ensures var t := Tally(byFish, fish);
            && (name in t <==> name in byFish || CountNamed(fish, name) > 0)
            && (CountNamed(fish, name) == 0 && name in byFish ==> t[name] == byFish[name])
            && (CountNamed(fish, name) > 0 ==>
                  && t[name].totalCaught == (if name in byFish then byFish[name].totalCaught else 0) + CountNamed(fish, name)
                  && t[name].totalOunces == (if name in byFish then byFish[name].totalOunces else 0.0) + OuncesNamed(fish, name))
    decreases |fish|
  {
    if |fish| > 0 {
      var n := |fish| - 1;
      var front := fish[..n];
      TallyCountsEachName(byFish, front, name);
      assert fish == front + [fish[n]];
      NamedAppend(front, fish[n], name);
      var before := Tally(byFish, front);
      if fish[n].name == name && CountNamed(front, name) == 0 {
        assert OuncesNamed(front, name) == 0.0 by { NoneNamedNoOunces(front, name); }
        assert name in before <==> name in byFish;
      }
    }
  }

  lemma {:induction false} NoneNamedNoOunces(fish: seq<CaughtFish>, name: string)
    requires CountNamed(fish, name) == 0
    ensures OuncesNamed(fish, name) == 0.0
    decreases |fish|
  {
    if |fish| > 0 {
      NoneNamedNoOunces(fish[1..], name);
    }
  }

  /** Two rounds saved one after the other give the statistics of one round
      with both casts and both lists of fish, except for the ounces: the
      fraction of the first round's total is dropped when it is read back. */
  lemma TwoRounds(prior: Option<UserStats>, c1: int, f1: seq<CaughtFish>, c2: int, f2: seq<CaughtFish>)
    ensures var twice := Summarize(Some(Summarize(prior, c1, f1)), c2, f2);
            var once := Summarize(prior, c1 + c2, f1 + f2);
            && twice.totalCasts == once.totalCasts
            && twice.totalCatches == once.totalCatches
            && twice.biggestCatch == once.biggestCatch
            && twice.catchesByFish == once.catchesByFish
            && twice.totalOunces == Truncate(Summarize(prior, c1, f1).totalOunces) as real + OunceSum(f2)
  {
    var start := if prior.Some? then prior.value.biggestCatch else NoCatch;
    var byFish := if prior.Some? then prior.value.catchesByFish else map[];
    BiggestAppend(start, f1, f2);
    TallyAppend(byFish, f1, f2);
  }

  /** Whole ounces round-trip: when the first round's total is a whole
      number, the two rounds also agree on the ounces. */
  lemma TwoRoundsWholeOunces(prior: Option<UserStats>, c1: int, f1: seq<CaughtFish>, c2: int, f2: seq<CaughtFish>)
    requires Summarize(prior, c1, f1).totalOunces == Truncate(Summarize(prior, c1, f1).totalOunces) as real
    ensures Summarize(Some(Summarize(prior, c1, f1)), c2, f2).totalOunces == Summarize(prior, c1 + c2, f1 + f2).totalOunces
  {
    OunceSumAppend(f1, f2);
  }

  /** The fraction is lost: one round of 0.5 oz then an empty round reports 0. */
  lemma FractionLost()
    ensures Summarize(Some(Summarize(None, 1, [CaughtFish("Bass", 0.5)])), 1, []).totalOunces == 0.0
    ensures Summarize(None, 1, [CaughtFish("Bass", 0.5)]).totalOunces == 0.5
  {
    var one := [CaughtFish("Bass", 0.5)];
    assert one[..0] == [];
    assert OunceSum(one) == 0.5;
  }
}
