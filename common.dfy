/** Value types shared by every handler, and the JavaScript number semantics
    the handlers rely on (Math.round, Math.floor(Math.random() * k), the
    truncating `%` and parseInt on a stored number). */
module Common {

  datatype Option<+T> = None | Some(value: T)

  /** Identifier of a user: the key of `users/<id>` and the uid of the caller. */
  type UserId = string

  /** A key generated by `push()` (Realtime Database) or `add()` (Firestore).
      Generated keys sort in creation order; here they are drawn from a counter. */
  type Key = nat

  /** Key of an item of the loot catalogue. */
  type ItemId = string

  /** The metric a challenge ranks by; the code stores "Fish" or "Weight" and
      treats every value other than "Fish" as Weight. */
  datatype Goal = Fish | Weight

  /** The value a score is ranked by: fishCaught for Fish, totalWeight otherwise. */
  function GoalValue(goal: Goal, fishCaught: int, totalWeight: real): real
  {
    if goal == Fish then fishCaught as real else totalWeight
  }

  /** Math.round: the nearest integer, halves rounded up. */
  function Round(x: real): (r: int)
    ensures r as real <= x + 0.5 < r as real + 1.0
  {
    (x + 0.5).Floor
  }

  /** `a % b` in JavaScript: the remainder takes the sign of the dividend. */
  function JsRem(a: int, b: int): (r: int)
    requires b > 0
    ensures a >= 0 ==> 0 <= r < b && r == a % b
    ensures a < 0 ==> -b < r <= 0
  {
    if a >= 0 then a % b else -((-a) % b)
  }

  /** parseInt applied to a stored number: its integer part, truncated toward zero. */
  function Truncate(x: real): (r: int)
    ensures x >= 0.0 ==> r as real <= x < r as real + 1.0
    ensures x < 0.0 ==> r as real - 1.0 < x <= r as real
  {
    if x >= 0.0 then x.Floor else -((-x).Floor)
  }

  /** Math.floor(Math.random() * k) for a draw r of Math.random(), which lies in [0, 1). */
  function RandomIndex(r: real, k: nat): (i: nat)
    requires 0.0 <= r < 1.0
    ensures k > 0 ==> i < k
    ensures k == 0 ==> i == 0
  {
    ProductBelow(r, k);
    (r * k as real).Floor
  }

  /** The location a new challenge is given: a key drawn from the first ten
      location keys; absent when there is no location at all. */
  function PickLocation(locations: seq<string>, r: real): (loc: Option<string>)
    requires 0.0 <= r < 1.0
    ensures |locations| == 0 <==> loc == None
    ensures |locations| > 0 ==> exists i | 0 <= i < |locations| && i < 10 :: loc == Some(locations[i])
  {
    var maxIndex := if |locations| < 10 then |locations| else 10;
    var index := RandomIndex(r, maxIndex);
    if index < |locations| then Some(locations[index]) else None
  }

  /** The goal a new challenge is given: one of the two the code offers, Fish
      for a draw below one half and Weight otherwise. */
  function PickGoal(r: real): (g: Goal)
    requires 0.0 <= r < 1.0
    ensures g == Fish <==> r < 0.5
    ensures g == Weight <==> r >= 0.5
  {
    if RandomIndex(r, 2) == 0 then Fish else Weight
  }

  lemma ProductBelow(r: real, k: nat)
    requires 0.0 <= r < 1.0
    ensures 0.0 <= r * k as real
    ensures k > 0 ==> r * k as real < k as real
  {
    if k > 0 {
      assert (k as real) * (1.0 - r) > 0.0;
    }
  }
}
