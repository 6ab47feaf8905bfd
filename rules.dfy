/**
 * The stamina-and-shop version's pure rules: the stamina tick with its exhaustion
 * hysteresis, the tiered jump cost, the growth-based movement scaling, the best-time
 * record and the normalisation of the stored best-times list.
 */
module Rules {
  import opened Numbers
  import opened Wrappers
  import opened Layout

  const MaxJumps: int := 2
  const StaminaMax: real := 100.0
  const JumpBaseCost: real := 10.0
  const DrainRate: real := 12.0
  const RecoverRate: real := 10.0
  const ExhaustedRecoverRate: real := 18.0
  const PickupStamina: real := 25.0

  /** The stamina bar and the exhausted flag. */
  datatype Vitals = Vitals(stamina: real, exhausted: bool)

  predicate InRange(stamina: real)
  {
    0.0 <= stamina <= StaminaMax
  }

  /**
   * updateStamina's stamina part. Stamina drains at 12/s while a direction is held, the
   * player is not exhausted and no no-drain boost runs; otherwise it recovers at 10/s, or
   * 18/s while exhausted. Exhaustion sets at 0 and clears only at the full bar.
   */
  function StaminaTick(v: Vitals, moving: bool, noDrain: bool, deltaMs: real): (r: Vitals)
    ensures InRange(v.stamina) && deltaMs >= 0.0 ==> InRange(r.stamina)
    ensures r.exhausted <==> (if v.exhausted then r.stamina < StaminaMax else r.stamina <= 0.0)
    ensures v.exhausted && v.stamina <= StaminaMax && deltaMs >= 0.0 ==> r.stamina >= v.stamina
    ensures v.stamina <= StaminaMax && deltaMs >= 0.0 && r.stamina < v.stamina ==> !v.exhausted && moving && !noDrain
    ensures deltaMs > 0.0 && v.stamina > 0.0 && !v.exhausted && moving && !noDrain ==> r.stamina < v.stamina
    ensures deltaMs > 0.0 && v.stamina < StaminaMax && (v.exhausted || !moving || noDrain) ==> r.stamina > v.stamina
    ensures InRange(v.stamina) && deltaMs >= 0.0 ==>
      v.stamina - DrainRate * deltaMs / 1000.0 <= r.stamina <=
      v.stamina + (if v.exhausted then ExhaustedRecoverRate else RecoverRate) * deltaMs / 1000.0
  {
    var delta := deltaMs / 1000.0;
    var stamina :=
      if !v.exhausted && moving && !noDrain then RealMax(0.0, v.stamina - DrainRate * delta)
      else
        var rate := if v.exhausted then ExhaustedRecoverRate else RecoverRate;
        RealMin(StaminaMax, v.stamina + rate * delta);
    var exhausted := v.exhausted || stamina <= 0.0;
    var exhausted' := if exhausted && stamina >= StaminaMax then false else exhausted;
    Vitals(stamina, exhausted')
  }

  /** The bar after k cracker pickups, each adding 25 capped at the maximum. */
  function Refill(stamina: real, k: nat): (r: real)
    ensures InRange(stamina) ==> InRange(r)
    ensures stamina <= StaminaMax ==> stamina <= r
  {
    if k == 0 then stamina else RealMin(StaminaMax, Refill(stamina, k - 1) + PickupStamina)
  }

  /** Capping after every pickup is the same as capping once: min(100, stamina + 25k) from a bar within range. */
  lemma {:induction false} RefillCapsOnce(stamina: real, k: nat)
    requires stamina <= StaminaMax
    ensures Refill(stamina, k) == RealMin(StaminaMax, stamina + PickupStamina * k as real)
  {
    if k > 0 {
      RefillCapsOnce(stamina, k - 1);
    }
  }

  /** A run of stamina ticks, each given as (moving, noDrain, deltaMs). */
  function StaminaRun(v: Vitals, ticks: seq<(bool, bool, real)>): Vitals
  {
    if ticks == [] then v
    else
      var t := ticks[|ticks| - 1];
      StaminaTick(StaminaRun(v, ticks[..|ticks| - 1]), t.0, t.1, t.2)
  }

  /** Over any run of non-negative frame deltas the bar stays within [0, StaminaMax]. */
  lemma {:induction false} StaminaRunInRange(v: Vitals, ticks: seq<(bool, bool, real)>)
    requires InRange(v.stamina)
    requires forall k :: 0 <= k < |ticks| ==> ticks[k].2 >= 0.0
    ensures InRange(StaminaRun(v, ticks).stamina)
  {
    if ticks != [] {
      StaminaRunInRange(v, ticks[..|ticks| - 1]);
    }
  }

  /**
   * Hysteresis over a run: a player who starts exhausted and ends the run rested
   * reached the full bar on the tick that cleared the flag.
   */
  lemma {:induction false} ExhaustionClearsOnlyAtFull(v: Vitals, ticks: seq<(bool, bool, real)>)
    requires v.exhausted && !StaminaRun(v, ticks).exhausted
    ensures exists k :: (0 < k <= |ticks| && StaminaRun(v, ticks[..k - 1]).exhausted &&
      !StaminaRun(v, ticks[..k]).exhausted && StaminaRun(v, ticks[..k]).stamina >= StaminaMax)
  {
    var n := |ticks|;
    assert ticks[..n] == ticks;
    if StaminaRun(v, ticks[..n - 1]).exhausted {
    } else {
      ExhaustionClearsOnlyAtFull(v, ticks[..n - 1]);
      var k :| 0 < k <= n - 1 && StaminaRun(v, ticks[..n - 1][..k - 1]).exhausted &&
        !StaminaRun(v, ticks[..n - 1][..k]).exhausted && StaminaRun(v, ticks[..n - 1][..k]).stamina >= StaminaMax;
      assert ticks[..n - 1][..k - 1] == ticks[..k - 1];
      assert ticks[..n - 1][..k] == ticks[..k];
    }
  }

  /** The state tryJump reads and writes. */
  datatype Jumper = Jumper(vy: real, onGround: bool, jumpsRemaining: int, stamina: real, exhausted: bool)

  /** 10 for the first jump of a sequence, 20 once a jump has been spent. */
  function JumpCost(jumpsRemaining: int): (c: real)
    ensures c == (if jumpsRemaining < MaxJumps then 2.0 * JumpBaseCost else JumpBaseCost)
  {
    var jumpIndex := MaxJumps - jumpsRemaining + 1;
    if jumpIndex >= 2 then JumpBaseCost * 2.0 else JumpBaseCost
  }

  /** The guards of tryJump. */
  predicate CanJump(j: Jumper, noDrain: bool)
  {
    !j.exhausted && j.jumpsRemaining > 0 && (noDrain || j.stamina >= JumpCost(j.jumpsRemaining))
  }

  /** tryJump over a value. */
  function Jump(j: Jumper, jumpPower: real, noDrain: bool): (r: Jumper)
    ensures !CanJump(j, noDrain) ==> r == j
    ensures CanJump(j, noDrain) ==>
      r.vy == -jumpPower && !r.onGround && r.jumpsRemaining == j.jumpsRemaining - 1 &&
      r.stamina == (if noDrain then j.stamina else j.stamina - JumpCost(j.jumpsRemaining))
    ensures r.exhausted <==> j.exhausted || (CanJump(j, noDrain) && !noDrain && r.stamina <= 0.0)
    ensures InRange(j.stamina) && 0 <= j.jumpsRemaining <= MaxJumps ==>
      InRange(r.stamina) && 0 <= r.jumpsRemaining <= MaxJumps
  {
    if j.exhausted || j.jumpsRemaining <= 0 then j
    else
      var cost := JumpCost(j.jumpsRemaining);
      if !noDrain && j.stamina < cost then j
      else
        var stamina := if noDrain then j.stamina else RealMax(0.0, j.stamina - cost);
        var r := j.(vy := -jumpPower, onGround := false, jumpsRemaining := j.jumpsRemaining - 1, stamina := stamina);
        if !noDrain && stamina <= 0.0 then r.(exhausted := true) else r
  }

  /** A jump attempt with 5 stamina and no boost fails and changes nothing. */
  lemma TooTiredToJump(vy: real, onGround: bool)
    ensures var j := Jumper(vy, onGround, MaxJumps, 5.0, false); Jump(j, 12.0, false) == j
  {
  }

  /** From a full bar, a jump and a double jump cost 10 + 20 and leave the player rested with no jumps left. */
  lemma DoubleJumpFromFullBar(jumpPower: real)
    ensures var r := Jump(Jump(Jumper(0.0, true, MaxJumps, StaminaMax, false), jumpPower, false), jumpPower, false);
      r.stamina == 70.0 && r.jumpsRemaining == 0 && !r.exhausted
  {
  }

  /** The jump budget: without a landing in between, no more than MaxJumps attempts succeed. */
  lemma {:induction false} AtMostMaxJumps(j: Jumper, jumpPower: real, noDrain: seq<bool>)
    requires 0 <= j.jumpsRemaining <= MaxJumps
    ensures Successes(j, jumpPower, noDrain) <= j.jumpsRemaining
    decreases |noDrain|
  {
    if noDrain != [] {
      var next := Jump(j, jumpPower, noDrain[0]);
      AtMostMaxJumps(next, jumpPower, noDrain[1..]);
    }
  }

  /** How many of a series of jump attempts succeed (one no-drain flag per attempt). */
  function Successes(j: Jumper, jumpPower: real, noDrain: seq<bool>): nat
    decreases |noDrain|
  {
    if noDrain == [] then 0
    else
      (if CanJump(j, noDrain[0]) then 1 else 0) + Successes(Jump(j, jumpPower, noDrain[0]), jumpPower, noDrain[1..])
  }

  /** Belly growth: 1 + (min(level, 9) - 1) * 0.16. */
  function Growth(level: int): (g: real)
    ensures 1 <= level ==> 1.0 <= g <= 2.28
  {
    1.0 + (IntMin(level, TotalLevels as int) - 1) as real * 0.16
  }

  /** The speed multiplier: 1.1 under a speed boost, else shrinking with growth down to 0.55. */
  function SpeedScale(level: int, boosted: bool): (s: real)
    ensures 1 <= level ==> 0.55 <= s <= 1.1
    ensures boosted ==> s == 1.1
  {
    if boosted then 1.1 else RealMax(0.55, 1.1 - (Growth(level) - 1.0) * 0.55)
  }

  /** The jump multiplier: shrinking with growth down to 0.72. */
  function JumpScale(level: int): (s: real)
    ensures 1 <= level ==> 0.72 <= s <= 1.0
  {
    RealMax(0.72, 1.0 - (Growth(level) - 1.0) * 0.55)
  }

  /** Higher levels never make the character faster or springier; a boost never slows it. */
  lemma HeavierIsSlower(l1: int, l2: int)
    requires 1 <= l1 <= l2
    ensures Growth(l1) <= Growth(l2)
    ensures SpeedScale(l2, false) <= SpeedScale(l1, false) <= SpeedScale(l1, true)
    ensures JumpScale(l2) <= JumpScale(l1)
  {
  }

  /** The truthiness test `!previous`: a missing entry and a stored 0 both count as absent. */
  predicate Falsy(previous: Option<real>)
  {
    previous.None? || previous.value == 0.0
  }

  /** The best-time entry after a level clear with the given elapsed time. */
  function RecordBest(previous: Option<real>, elapsedMs: real): (r: Option<real>)
    ensures r == previous || r == Some(elapsedMs)
    ensures r != previous ==> Falsy(previous) || elapsedMs < previous.value
    ensures Falsy(previous) || elapsedMs < previous.value ==> r == Some(elapsedMs)
    ensures r.Some?
    ensures previous.Some? && previous.value > 0.0 ==> r.value <= previous.value
  {
    if Falsy(previous) || elapsedMs < previous.value then Some(elapsedMs) else previous
  }

  /** One entry of the stored best-times record after JSON.parse. */
  datatype StoredValue = StoredNumber(v: real) | StoredNonFinite | StoredNull | StoredOther

  /** The stored record: absent, not parseable, parsed but not an array, or an array. */
  datatype StoredRecord = Missing | Unparseable | NotAnArray | Entries(values: seq<StoredValue>)

  /**
   * loadBestTimes' normalisation: always TotalLevels entries; entry i is the i-th stored
   * value when that is a finite number, and absent otherwise.
   */
  function LoadBestTimes(stored: StoredRecord): (r: seq<Option<real>>)
    ensures |r| == TotalLevels
    ensures !stored.Entries? ==> forall i :: 0 <= i < |r| ==> r[i].None?
    ensures forall i :: 0 <= i < |r| && r[i].Some? ==>
      stored.Entries? && i < |stored.values| && stored.values[i] == StoredNumber(r[i].value)
    ensures forall i :: 0 <= i < TotalLevels && stored.Entries? && i < |stored.values| && stored.values[i].StoredNumber? ==>
      r[i] == Some(stored.values[i].v)
  {
    seq(TotalLevels, i requires 0 <= i < TotalLevels =>
      if stored.Entries? && i < |stored.values| && stored.values[i].StoredNumber? then Some(stored.values[i].v) else None)
  }

  /** saveBestTimes' JSON array, as JSON.parse reads it back. */
  function SavedRecord(bestTimes: seq<Option<real>>): StoredRecord
  {
    Entries(seq(|bestTimes|, i requires 0 <= i < |bestTimes| =>
      if bestTimes[i].Some? then StoredNumber(bestTimes[i].value) else StoredNull))
  }

  /** Saving and then loading gives back the same best times. */
  lemma LoadAfterSave(bestTimes: seq<Option<real>>)
    requires |bestTimes| == TotalLevels
    ensures LoadBestTimes(SavedRecord(bestTimes)) == bestTimes
  {
  }
}
