/**
 * The stamina-and-shop version (v1/game.js): the `player` and `game` objects as classes
 * whose methods update them in place, as the source's top-level functions do. The clock
 * (performance.now()), the animation-frame timestamp and the canvas size are parameters;
 * the held arrow keys are the `controls` field, set by the input handlers.
 */
module GameV1 {
  import opened Numbers
  import opened Wrappers
  import opened Geometry
  import opened Layout
  import opened Physics
  import opened Pickup
  import opened Rules

  const BaseSpeed: real := 0.85
  const BaseJumpPower: real := 12.0
  const TransitionTicks: int := 60
  const ShopReward: int := 100
  const StaminaPillPrice: int := 50
  const SpeedPillPrice: int := 125
  const NoStaminaPillPrice: int := 150
  const BoostMs: real := 5000.0
  const MaxFrameMs: real := 64.0

  /** Which screen is showing: the start menu or the game itself. */
  datatype Screen = Menu | Playing

  /** Pill counts. */
  datatype Inventory = Inventory(stamina: int, speed: int, nostamina: int)

  /** What the shop's message line says after a purchase attempt. */
  datatype PurchaseOutcome = Added | NotEnoughCoins | UnknownItem

  /** The price of a shop item, by the name the shop buttons carry. */
  function Price(item: string): (p: Option<int>)
    ensures p.Some? <==> item == "stamina" || item == "speed" || item == "nostamina"
    ensures p.Some? ==> p.value >= StaminaPillPrice
  {
    if item == "stamina" then Some(StaminaPillPrice)
    else if item == "speed" then Some(SpeedPillPrice)
    else if item == "nostamina" then Some(NoStaminaPillPrice)
    else None
  }

  /** The inventory with one more of the named pill. */
  function Stock(inv: Inventory, item: string): (r: Inventory)
    requires Price(item).Some?
    ensures r.stamina + r.speed + r.nostamina == inv.stamina + inv.speed + inv.nostamina + 1
    ensures r.stamina >= inv.stamina && r.speed >= inv.speed && r.nostamina >= inv.nostamina
    ensures r.stamina == inv.stamina + (if item == "stamina" then 1 else 0)
    ensures r.speed == inv.speed + (if item == "speed" then 1 else 0)
    ensures r.nostamina == inv.nostamina + (if item == "nostamina" then 1 else 0)
  {
    if item == "stamina" then inv.(stamina := inv.stamina + 1)
    else if item == "speed" then inv.(speed := inv.speed + 1)
    else inv.(nostamina := inv.nostamina + 1)
  }

  /** The clamped frame delta of gameLoop; the first frame (no previous timestamp) counts 0. */
  function FrameDelta(lastFrameMs: real, time: real): (d: real)
    requires lastFrameMs == 0.0 || lastFrameMs <= time
    ensures 0.0 <= d <= MaxFrameMs
    ensures lastFrameMs == 0.0 ==> d == 0.0
    ensures lastFrameMs != 0.0 && time - lastFrameMs <= MaxFrameMs ==> d == time - lastFrameMs
    ensures lastFrameMs != 0.0 && time - lastFrameMs >= MaxFrameMs ==> d == MaxFrameMs
  {
    var last := if lastFrameMs == 0.0 then time else lastFrameMs;
    RealMin(MaxFrameMs, time - last)
  }

  /**
   * The horizontal speed a frame hands to the physics step: updateStamina stops an
   * exhausted player and handleInput then leaves it alone; otherwise each held arrow
   * subtracts or adds the current speed.
   */
  function Steer(vx: real, exhausted: bool, controls: Controls, speed: real): (r: real)
    ensures exhausted ==> r == 0.0
    ensures !exhausted && controls.left == controls.right ==> r == vx
    ensures !exhausted && controls.right && !controls.left ==> r == vx + speed
    ensures !exhausted && controls.left && !controls.right ==> r == vx - speed
  {
    if exhausted then 0.0
    else vx - (if controls.left then speed else 0.0) + (if controls.right then speed else 0.0)
  }

  /** The facing after handleInput: an exhausted player keeps it; otherwise the right arrow wins over the left. */
  function Face(facing: int, exhausted: bool, controls: Controls): (r: int)
    ensures exhausted || (!controls.left && !controls.right) ==> r == facing
    ensures !exhausted && controls.right ==> r == 1
    ensures !exhausted && controls.left && !controls.right ==> r == -1
  {
    if exhausted then facing
    else if controls.right then 1
    else if controls.left then -1
    else facing
  }

  /** The part of the game one frame's simulation steps read and write. */
  datatype SimState = SimState(body: Body, vitals: Rules.Vitals, jumpsRemaining: int, facing: int,
                               crackers: seq<Cracker>, crackersCollected: int)

  /**
   * One frame outside the shop, over values: updateStamina, handleInput, applyPhysics and
   * collectCrackers in the order gameLoop calls them.
   */
  function SimulateFrame(s: SimState, controls: Controls, speed: real, noDrain: bool, delta: real,
                         platforms: seq<Rect>, width: real, height: real): SimState
  {
    var vit := StaminaTick(s.vitals, controls.left || controls.right, noDrain, delta);
    var body := Step(s.body.(vx := Steer(s.body.vx, vit.exhausted, controls, speed)), platforms, width, height);
    var picked := CountFresh(Physics.Box(body), s.crackers);
    SimState(body, Rules.Vitals(Refill(vit.stamina, picked), vit.exhausted),
             if body.onGround then MaxJumps else s.jumpsRemaining,
             Face(s.facing, vit.exhausted, controls),
             Sweep(Physics.Box(body), s.crackers), s.crackersCollected + picked)
  }

  /** SimulateFrame, step by step: the result after the stamina tick, the steering, the physics tick and the pickups. */
  lemma SimulateFrameIs(s: SimState, controls: Controls, speed: real, noDrain: bool, delta: real,
                        platforms: seq<Rect>, width: real, height: real,
                        vit: Rules.Vitals, steered: Body, moved: Body, r: SimState)
    requires vit == StaminaTick(s.vitals, controls.left || controls.right, noDrain, delta)
    requires steered == s.body.(vx := Steer(s.body.vx, vit.exhausted, controls, speed))
    requires moved == Step(steered, platforms, width, height)
    requires r.body == moved && r.vitals.exhausted == vit.exhausted
    requires r.vitals.stamina == Refill(vit.stamina, CountFresh(Physics.Box(moved), s.crackers))
    requires r.jumpsRemaining == if moved.onGround then MaxJumps else s.jumpsRemaining
    requires r.facing == Face(s.facing, vit.exhausted, controls)
    requires r.crackers == Sweep(Physics.Box(moved), s.crackers)
    requires r.crackersCollected == s.crackersCollected + CountFresh(Physics.Box(moved), s.crackers)
    ensures r == SimulateFrame(s, controls, speed, noDrain, delta, platforms, width, height)
  {
  }

  /**
   * What a frame keeps: a bar in range stays in range, a jump budget in range stays in range,
   * the counter stays equal to the flagged crackers and never decreases, and the crackers'
   * boxes do not move.
   */
  lemma SimulateFrameKeeps(s: SimState, controls: Controls, speed: real, noDrain: bool, delta: real,
                           platforms: seq<Rect>, width: real, height: real)
    requires InRange(s.vitals.stamina) && 0 <= s.jumpsRemaining <= MaxJumps && delta >= 0.0
    requires s.crackersCollected == CountCollected(s.crackers)
    ensures var r := SimulateFrame(s, controls, speed, noDrain, delta, platforms, width, height);
      && InRange(r.vitals.stamina) && 0 <= r.jumpsRemaining <= MaxJumps
      && r.crackersCollected == CountCollected(r.crackers) && r.crackersCollected >= s.crackersCollected
      && |r.crackers| == |s.crackers|
      && (forall k :: 0 <= k < |r.crackers| ==> r.crackers[k].box == s.crackers[k].box)
      && (r.vitals.exhausted ==> r.body.vx == 0.0)
  {
    var r := SimulateFrame(s, controls, speed, noDrain, delta, platforms, width, height);
    SweepCounts(Physics.Box(r.body), s.crackers);
    forall k | 0 <= k < |r.crackers|
      ensures r.crackers[k].box == s.crackers[k].box
    {
      SweepMarksOverlapping(Physics.Box(r.body), s.crackers, k);
    }
  }

  /** The part of the game the end of a frame updates: the transition countdown, the reward, the best times and the shop. */
  datatype LedgerState = LedgerState(transitionTimer: int, rewardPending: bool, bestTimes: seq<Option<real>>,
                                     coins: int, inShop: bool, controls: Controls)

  /**
   * The end of a frame, over values: when the pickups have just cleared the level (no
   * transition running, outside the shop), collectCrackers starts the transition, owes the
   * reward and records the best time; then nextLevelIfReady counts down and, on reaching 0
   * on the game screen, opens the shop, pays the reward and releases the keys.
   */
  function CountdownFrame(l: LedgerState, cleared: bool, playing: bool, level: int, elapsedMs: real): (r: LedgerState)
    requires 1 <= level <= |l.bestTimes|
    requires cleared ==> l.transitionTimer <= 0 && !l.inShop
    ensures r.transitionTimer == if cleared then TransitionTicks - 1
                                 else if l.transitionTimer > 0 then l.transitionTimer - 1 else l.transitionTimer
    ensures var opens := l.transitionTimer == 1 && playing && !l.inShop;
      && r.inShop == (l.inShop || opens)
      && r.coins == l.coins + (if opens && l.rewardPending then ShopReward else 0)
      && r.rewardPending == (!opens && (l.rewardPending || cleared))
      && r.controls == (if opens then Released else l.controls)
    ensures r.bestTimes == if cleared then l.bestTimes[level - 1 := RecordBest(l.bestTimes[level - 1], elapsedMs)]
                           else l.bestTimes
  {
    var timer := if cleared then TransitionTicks else l.transitionTimer;
    var pending := l.rewardPending || cleared;
    var times := if cleared then l.bestTimes[level - 1 := RecordBest(l.bestTimes[level - 1], elapsedMs)] else l.bestTimes;
    if timer <= 0 then
      l.(rewardPending := pending, bestTimes := times)
    else
      var opens := timer - 1 == 0 && playing && !l.inShop;
      LedgerState(timer - 1, pending && !opens, times, l.coins + (if opens && pending then ShopReward else 0),
                  l.inShop || opens, if opens then Released else l.controls)
  }

  class Player {
    var x: real
    var y: real
    var vx: real
    var vy: real
    var speed: real
    var jumpPower: real
    var onGround: bool
    var facing: int
    var jumpsRemaining: int
    var stamina: real
    var exhausted: bool

    constructor ()
      ensures x == SpawnX && y == 100.0 && vx == 0.0 && vy == 0.0
      ensures speed == BaseSpeed && jumpPower == BaseJumpPower
      ensures !onGround && facing == 1 && jumpsRemaining == MaxJumps
      ensures stamina == StaminaMax && !exhausted
    {
      x, y, vx, vy := SpawnX, 100.0, 0.0, 0.0;
      speed, jumpPower := BaseSpeed, BaseJumpPower;
      onGround, facing := false, 1;
      jumpsRemaining, stamina, exhausted := MaxJumps, StaminaMax, false;
    }

    /** The part of the player a physics tick reads and writes. */
    function AsBody(): Physics.Body
      reads this`x, this`y, this`vx, this`vy, this`onGround
    {
      Physics.Body(x, y, vx, vy, onGround)
    }

    /** The part of the player a jump reads and writes. */
    function AsJumper(): Jumper
      reads this`vy, this`onGround, this`jumpsRemaining, this`stamina, this`exhausted
    {
      Jumper(vy, onGround, jumpsRemaining, stamina, exhausted)
    }

    function Vitals(): Rules.Vitals
      reads this`stamina, this`exhausted
    {
      Rules.Vitals(stamina, exhausted)
    }

    /** The player's rectangle. */
    function Box(): Rect
      reads this`x, this`y
    {
      Rect(x, y, PlayerW, PlayerH)
    }
  }

  class Game {
    const player: Player
    const width: real
    const height: real

    var level: int
    var crackersCollected: int
    var crackersTarget: int
    var completed: bool
    var transitionTimer: int
    var levelStartMs: real
    var levelElapsedMs: real
    var lastFrameMs: real
    var bestTimes: seq<Option<real>>
    var coins: int
    var inShop: bool
    var rewardPending: bool
    var speedBoostUntil: real
    var noStaminaUntil: real
    var screen: Screen
    var inventory: Inventory
    var controls: Controls
    var platforms: seq<Rect>
    var crackers: seq<Cracker>

    /** The part of the state one frame's simulation steps read and write. */
    function Sim(): SimState
      reads player`x, player`y, player`vx, player`vy, player`onGround, player`stamina, player`exhausted
      reads player`jumpsRemaining, player`facing, this`crackers, this`crackersCollected
    {
      SimState(player.AsBody(), player.Vitals(), player.jumpsRemaining, player.facing, crackers, crackersCollected)
    }

    /** The part of the state the end of a frame updates. */
    function Ledger(): LedgerState
      reads this`transitionTimer, this`rewardPending, this`bestTimes, this`coins, this`inShop, this`controls
    {
      LedgerState(transitionTimer, rewardPending, bestTimes, coins, inShop, controls)
    }

    /** What the session keeps across levels: level in 1..9, finished only at the last, nine best-time slots, no debts. */
    ghost predicate SessionValid()
      reads this`level, this`completed, this`bestTimes, this`transitionTimer, this`coins, this`inventory
    {
      && 1 <= level <= TotalLevels
      && (completed ==> level == TotalLevels)
      && |bestTimes| == TotalLevels
      && transitionTimer >= 0
      && coins >= 0
      && inventory.stamina >= 0 && inventory.speed >= 0 && inventory.nostamina >= 0
    }

    /**
     * What createLevel establishes and every tick keeps: the fixed layout, a target equal to
     * the number of crackers and a count equal to the crackers flagged collected.
     */
    ghost predicate LevelValid()
      reads this`platforms, this`crackers, this`crackersTarget, this`crackersCollected
    {
      && platforms == Platforms(width, height)
      && |crackers| == crackersTarget
      && crackersCollected == CountCollected(crackers)
    }

    /** The player's stamina and jump budget are in range. */
    ghost predicate PlayerValid()
      reads player`stamina, player`jumpsRemaining
    {
      InRange(player.stamina) && 0 <= player.jumpsRemaining <= MaxJumps
    }

    ghost predicate Valid()
      reads this`level, this`completed, this`bestTimes, this`transitionTimer, this`coins, this`inventory
      reads this`platforms, this`crackers, this`crackersTarget, this`crackersCollected
      reads player`stamina, player`jumpsRemaining
    {
      SessionValid() && LevelValid() && PlayerValid()
    }

    /** The state createLevel(level) leaves behind. */
    ghost predicate LevelStarted(level: nat)
      reads this`platforms, this`crackersTarget, this`crackersCollected, this`crackers
      reads this`levelStartMs, this`levelElapsedMs
      reads player`x, player`y, player`vx, player`vy, player`jumpsRemaining, player`stamina, player`exhausted
    {
      && platforms == Platforms(width, height)
      && crackersTarget == Needed(level) && crackersCollected == 0
      && crackers == LevelCrackers(platforms, level)
      && player.x == SpawnX && player.y == SpawnY && player.vx == 0.0 && player.vy == 0.0
      && player.jumpsRemaining == MaxJumps && player.stamina == StaminaMax && !player.exhausted
      && levelStartMs == 0.0 && levelElapsedMs == 0.0
    }

    /** The speeds updateHUD derives from the level and the speed boost. */
    ghost predicate Scaled(now: real)
      reads this`level, this`speedBoostUntil, player`speed, player`jumpPower
    {
      && player.speed == BaseSpeed * SpeedScale(level, now < speedBoostUntil)
      && player.jumpPower == BaseJumpPower * JumpScale(level)
    }

    /**
     * The state page start-up and resetGameState leave: level 1 freshly built, nothing
     * finished, earned or bought, no boost running and the speeds scaled for level 1.
     */
    ghost predicate NewRun(now: real)
      reads this`level, this`completed, this`transitionTimer, this`coins, this`inShop, this`rewardPending
      reads this`inventory, this`speedBoostUntil, this`noStaminaUntil
      reads this`platforms, this`crackersTarget, this`crackersCollected, this`crackers
      reads this`levelStartMs, this`levelElapsedMs
      reads player`x, player`y, player`vx, player`vy, player`jumpsRemaining, player`stamina, player`exhausted
      reads player`speed, player`jumpPower
    {
      && level == 1 && !completed && transitionTimer == 0
      && coins == 0 && !inShop && !rewardPending && inventory == Inventory(0, 0, 0)
      && speedBoostUntil == 0.0 && noStaminaUntil == 0.0
      && LevelStarted(1) && Scaled(now)
    }

    /** Nothing but the frame timestamp changed. */
    twostate predicate OnlyClockMoved()
      reads this, player
    {
      && unchanged(player)
      && level == old(level) && crackersCollected == old(crackersCollected)
      && crackersTarget == old(crackersTarget) && completed == old(completed)
      && transitionTimer == old(transitionTimer) && levelStartMs == old(levelStartMs)
      && levelElapsedMs == old(levelElapsedMs) && bestTimes == old(bestTimes)
      && coins == old(coins) && inShop == old(inShop) && rewardPending == old(rewardPending)
      && speedBoostUntil == old(speedBoostUntil) && noStaminaUntil == old(noStaminaUntil)
      && screen == old(screen) && inventory == old(inventory) && controls == old(controls)
      && platforms == old(platforms) && crackers == old(crackers)
    }

    /** Page start-up: the initial objects, loadBestTimes, createLevel(1), updateHUD, the menu screen. */
    constructor (width: real, height: real, stored: StoredRecord, now: real)
      ensures Valid() && fresh(player)
      ensures this.width == width && this.height == height
      ensures NewRun(now) && lastFrameMs == 0.0
      ensures screen == Menu && controls == Released
      ensures bestTimes == LoadBestTimes(stored)
    {
      this.width := width;
      this.height := height;
      player := new Player();
      level := 1;
      crackersCollected, crackersTarget := 0, 0;
      completed := false;
      transitionTimer := 0;
      levelStartMs, levelElapsedMs, lastFrameMs := 0.0, 0.0, 0.0;
      coins := 0;
      inShop, rewardPending := false, false;
      speedBoostUntil, noStaminaUntil := 0.0, 0.0;
      screen := Menu;
      inventory := Inventory(0, 0, 0);
      controls := Released;
      platforms, crackers := [], [];
      bestTimes := LoadBestTimes(stored);
      new;
      StartRun(now);
    }

    /** crackersTargetSafe: the target is at least 1 and the count restarts. */
    method CrackersTargetSafe(value: int)
      modifies this`crackersTarget, this`crackersCollected
      ensures crackersTarget == IntMax(1, value) && crackersTarget >= 1
      ensures crackersCollected == 0
    {
      crackersTarget := IntMax(1, value);
      crackersCollected := 0;
    }

    /** createLevel: rebuild the platforms and crackers and put the player back at the spawn point, rested. */
    method CreateLevel(level: nat)
      requires 1 <= level
      modifies this`platforms, this`crackers, this`crackersTarget, this`crackersCollected
      modifies this`levelStartMs, this`levelElapsedMs
      modifies player`x, player`y, player`vx, player`vy, player`jumpsRemaining, player`exhausted, player`stamina
      ensures LevelStarted(level) && LevelValid() && PlayerValid()
      ensures crackersTarget == IntMax(1, 3 + level)
    {
      platforms := Platforms(width, height);
      var needed := 3 + level;
      CrackersTargetSafe(needed);
      crackers := BuildCrackers(platforms, level);
      FreshLevelUncounted(platforms, level);

      player.x, player.y := SpawnX, SpawnY;
      player.vx, player.vy := 0.0, 0.0;
      player.jumpsRemaining := MaxJumps;
      player.exhausted := false;
      player.stamina := StaminaMax;

      levelStartMs := 0.0;
      levelElapsedMs := 0.0;
    }

    /** updateHUD's model part: the movement speeds scaled by growth and the speed boost. */
    method UpdateHUD(now: real)
      requires Valid()
      modifies player`speed, player`jumpPower
      ensures Valid()
      ensures Scaled(now)
      ensures 1 <= level ==> BaseSpeed * 0.55 <= player.speed <= BaseSpeed * 1.1
      ensures 1 <= level ==> BaseJumpPower * 0.72 <= player.jumpPower <= BaseJumpPower
    {
      var speedBoostActive := now < speedBoostUntil;
      player.speed := BaseSpeed * SpeedScale(level, speedBoostActive);
      player.jumpPower := BaseJumpPower * JumpScale(level);
    }

    /** tryJump: a jump costs 10 (first) or 20 (double) stamina unless the no-drain boost runs. */
    method TryJump(now: real)
      requires PlayerValid()
      modifies player`vy, player`onGround, player`jumpsRemaining, player`stamina, player`exhausted
      ensures PlayerValid()
      ensures player.AsJumper() == Jump(old(player.AsJumper()), player.jumpPower, now < noStaminaUntil)
      ensures old(player.exhausted || player.jumpsRemaining <= 0) ==> unchanged(player)
    {
      if player.exhausted {
        return;
      }
      if player.jumpsRemaining <= 0 {
        return;
      }
      var noDrainActive := now < noStaminaUntil;
      var cost := JumpCost(player.jumpsRemaining);
      if !noDrainActive {
        if player.stamina < cost {
          return;
        }
        player.stamina := RealMax(0.0, player.stamina - cost);
      }
      player.vy := -player.jumpPower;
      player.onGround := false;
      player.jumpsRemaining := player.jumpsRemaining - 1;
      if !noDrainActive && player.stamina <= 0.0 {
        player.exhausted := true;
      }
    }

    /** handleInput: held arrows push the player sideways, unless exhausted. */
    method HandleInput()
      modifies player`vx, player`facing
      ensures old(player.exhausted) ==> unchanged(player)
      ensures !player.exhausted ==>
        player.vx == old(player.vx) - (if controls.left then player.speed else 0.0)
                                    + (if controls.right then player.speed else 0.0)
      ensures !player.exhausted ==>
        player.facing == (if controls.right then 1 else if controls.left then -1 else old(player.facing))
    {
      if player.exhausted {
        return;
      }
      if controls.left {
        player.vx := player.vx - player.speed;
        player.facing := -1;
      }
      if controls.right {
        player.vx := player.vx + player.speed;
        player.facing := 1;
      }
    }

    /** updateStamina: drain or recover, then the exhaustion hysteresis; an exhausted player stops. */
    method UpdateStamina(deltaMs: real, now: real)
      requires PlayerValid() && deltaMs >= 0.0
      modifies player`stamina, player`exhausted, player`vx
      ensures PlayerValid()
      ensures player.Vitals() == StaminaTick(old(player.Vitals()), controls.left || controls.right, now < noStaminaUntil, deltaMs)
      ensures player.vx == if player.exhausted then 0.0 else old(player.vx)
    {
      var delta := deltaMs / 1000.0;
      var moving := controls.left || controls.right;
      var noDrainActive := now < noStaminaUntil;

      if !player.exhausted && moving && !noDrainActive {
        player.stamina := RealMax(0.0, player.stamina - DrainRate * delta);
      } else {
        var rate := if player.exhausted then ExhaustedRecoverRate else RecoverRate;
        player.stamina := RealMin(StaminaMax, player.stamina + rate * delta);
      }

      if !player.exhausted && player.stamina <= 0.0 {
        player.exhausted := true;
      }
      if player.exhausted && player.stamina >= StaminaMax {
        player.exhausted := false;
      }
      if player.exhausted {
        player.vx := 0.0;
      }
    }

    /** applyPhysics: one physics tick; any landing refills the jump budget. */
    method ApplyPhysics()
      requires PlayerValid()
      modifies player`x, player`y, player`vx, player`vy, player`onGround, player`jumpsRemaining
      ensures PlayerValid()
      ensures player.AsBody() == Step(old(player.AsBody()), platforms, width, height)
      ensures player.jumpsRemaining == if player.onGround then MaxJumps else old(player.jumpsRemaining)
    {
      Move();
      LandOnPlatforms();
      if player.y > height + FallMargin {
        player.x := SpawnX;
        player.y := SpawnY;
        player.vx := 0.0;
        player.vy := 0.0;
      }
    }

    /** applyPhysics, first part: gravity, friction, the speed clamp, the walls, the vertical move. */
    method Move()
      modifies player`x, player`y, player`vx, player`vy, player`onGround
      ensures player.AsBody() == Integrate(old(player.AsBody()), width)
    {
      player.vy := player.vy + Gravity;
      player.vx := player.vx * Friction;
      player.vx := RealMax(-MaxHorizontalSpeed, RealMin(MaxHorizontalSpeed, player.vx));

      player.x := player.x + player.vx;
      if player.x < 0.0 {
        player.x := 0.0;
        player.vx := 0.0;
      }
      if player.x + PlayerW > width {
        player.x := width - PlayerW;
        player.vx := 0.0;
      }

      player.y := player.y + player.vy;
      player.onGround := false;
    }

    /** applyPhysics, the platform loop: land on every platform hit from above, in list order. */
    method LandOnPlatforms()
      requires !player.onGround
      modifies player`y, player`vy, player`onGround, player`jumpsRemaining
      ensures player.AsBody() == LandAll(old(player.AsBody()), platforms)
      ensures player.jumpsRemaining == if player.onGround then MaxJumps else old(player.jumpsRemaining)
    {
      ghost var moved := player.AsBody();
      var i := 0;
      while i < |platforms|
        invariant 0 <= i <= |platforms|
        invariant player.AsBody() == LandAll(moved, platforms[..i])
        invariant player.jumpsRemaining == if player.onGround then MaxJumps else old(player.jumpsRemaining)
      {
        var p := platforms[i];
        var wasAbove := player.y + PlayerH - player.vy <= p.y;
        var overlaps := Overlaps(player.Box(), p);
        if overlaps && player.vy >= 0.0 && wasAbove {
          player.y := p.y - PlayerH;
          player.vy := 0.0;
          player.onGround := true;
          player.jumpsRemaining := MaxJumps;
        }
        assert platforms[..i + 1][..i] == platforms[..i];
        i := i + 1;
      }
      assert platforms[..i] == platforms;
    }

    /**
     * collectCrackers: pick up every uncollected cracker the player overlaps, +25 stamina
     * each (capped); once the target is met with no transition running, start the 60-tick
     * transition, owe the shop reward and record the best time.
     */
    method CollectCrackers()
      requires Valid()
      modifies this`crackers, this`crackersCollected, this`transitionTimer, this`rewardPending, this`bestTimes
      modifies player`stamina
      ensures Valid()
      ensures crackers == Sweep(player.Box(), old(crackers))
      ensures crackersCollected == old(crackersCollected) + CountFresh(player.Box(), old(crackers))
      ensures player.stamina == Refill(old(player.stamina), CountFresh(player.Box(), old(crackers)))
      ensures var cleared := crackersCollected >= crackersTarget && old(transitionTimer) <= 0;
        && transitionTimer == (if cleared then TransitionTicks else old(transitionTimer))
        && rewardPending == (cleared || old(rewardPending))
        && bestTimes == (if cleared then old(bestTimes)[level - 1 := RecordBest(old(bestTimes)[level - 1], levelElapsedMs)]
                         else old(bestTimes))
    {
      PickUp();
      if crackersCollected >= crackersTarget && transitionTimer <= 0 {
        transitionTimer := TransitionTicks;
        rewardPending := true;
        var idx := level - 1;
        var previous := bestTimes[idx];
        if Falsy(previous) || levelElapsedMs < previous.value {
          bestTimes := bestTimes[idx := Some(levelElapsedMs)];
        }
      }
    }

    /** collectCrackers, the loop over the crackers. */
    method PickUp()
      requires PlayerValid()
      modifies this`crackers, this`crackersCollected, player`stamina
      ensures PlayerValid()
      ensures crackers == Sweep(player.Box(), old(crackers))
      ensures crackersCollected == old(crackersCollected) + CountFresh(player.Box(), old(crackers))
      ensures player.stamina == Refill(old(player.stamina), CountFresh(player.Box(), old(crackers)))
      ensures CountCollected(crackers) == CountCollected(old(crackers)) + CountFresh(player.Box(), old(crackers))
    {
      var box := player.Box();
      var cs, n, stamina := crackers, crackersCollected, player.stamina;
      ghost var cs0, n0, s0 := cs, n, stamina;
      var i := 0;
      while i < |cs|
        invariant 0 <= i <= |cs| == |cs0|
        invariant forall k :: 0 <= k < |cs| ==> cs[k] == if k < i then Pick(box, cs0[k]) else cs0[k]
        invariant n == n0 + CountFresh(box, cs0[..i])
        invariant stamina == Refill(s0, CountFresh(box, cs0[..i]))
      {
        CountFreshSnoc(box, cs0, i);
        if !cs[i].collected {
          var collision := Overlaps(box, cs[i].box);
          if collision {
            cs := cs[i := cs[i].(collected := true)];
            n := n + 1;
            stamina := RealMin(StaminaMax, stamina + PickupStamina);
          }
        }
        i := i + 1;
      }
      assert cs0[..i] == cs0;
      assert cs == Sweep(box, cs0);
      SweepCounts(box, cs0);
      crackers, crackersCollected, player.stamina := cs, n, stamina;
    }

    /** openShop's state part: on the game screen and not already shopping, pay any pending reward and open. */
    method OpenShop()
      modifies this`coins, this`rewardPending, this`inShop, this`controls
      ensures old(screen != Playing || inShop) ==> unchanged(this)
      ensures old(screen == Playing && !inShop) ==>
        && coins == old(coins) + (if old(rewardPending) then ShopReward else 0)
        && !rewardPending && inShop && controls == Released
    {
      if screen != Playing {
        return;
      }
      if inShop {
        return;
      }
      if rewardPending {
        coins := coins + ShopReward;
        rewardPending := false;
      }
      inShop := true;
      controls := Released;
    }

    /** closeShop's state part. */
    method CloseShop()
      modifies this`inShop
      ensures !inShop
    {
      inShop := false;
    }

    /** tryPurchase: buy one pill if the coins cover its price; otherwise change nothing. */
    method TryPurchase(item: string, now: real) returns (outcome: PurchaseOutcome)
      requires Valid()
      modifies this`coins, this`inventory, player`speed, player`jumpPower
      ensures Valid()
      ensures outcome == (if Price(item).None? then UnknownItem
                          else if old(coins) < Price(item).value then NotEnoughCoins
                          else Added)
      ensures outcome != Added ==> coins == old(coins) && inventory == old(inventory)
      ensures outcome == Added ==> coins == old(coins) - Price(item).value && inventory == Stock(old(inventory), item)
      ensures outcome == NotEnoughCoins ==> unchanged(player)
      ensures outcome != NotEnoughCoins ==> Scaled(now)
    {
      outcome := UnknownItem;
      if item == "stamina" {
        if coins < StaminaPillPrice {
          return NotEnoughCoins;
        }
        coins := coins - StaminaPillPrice;
        inventory := inventory.(stamina := inventory.stamina + 1);
        outcome := Added;
      }
      if item == "speed" {
        if coins < SpeedPillPrice {
          return NotEnoughCoins;
        }
        coins := coins - SpeedPillPrice;
        inventory := inventory.(speed := inventory.speed + 1);
        outcome := Added;
      }
      if item == "nostamina" {
        if coins < NoStaminaPillPrice {
          return NotEnoughCoins;
        }
        coins := coins - NoStaminaPillPrice;
        inventory := inventory.(nostamina := inventory.nostamina + 1);
        outcome := Added;
      }
      UpdateHUD(now);
    }

    /** useStaminaPill: spend one pill for a full, rested bar. */
    method UseStaminaPill()
      requires SessionValid()
      modifies this`inventory, player`stamina, player`exhausted
      requires PlayerValid()
      ensures SessionValid() && PlayerValid()
      ensures old(inventory.stamina) <= 0 ==> unchanged(this) && unchanged(player)
      ensures old(inventory.stamina) > 0 ==>
        && inventory == old(inventory).(stamina := old(inventory.stamina) - 1)
        && player.stamina == StaminaMax && !player.exhausted
    {
      if inventory.stamina <= 0 {
        return;
      }
      inventory := inventory.(stamina := inventory.stamina - 1);
      player.stamina := StaminaMax;
      player.exhausted := false;
    }

    /** useSpeedPill: spend one pill for five seconds of full speed. */
    method UseSpeedPill(now: real)
      requires SessionValid()
      modifies this`inventory, this`speedBoostUntil
      ensures SessionValid()
      ensures old(inventory.speed) <= 0 ==> unchanged(this)
      ensures old(inventory.speed) > 0 ==>
        inventory == old(inventory).(speed := old(inventory.speed) - 1) && speedBoostUntil == now + BoostMs
    {
      if inventory.speed <= 0 {
        return;
      }
      inventory := inventory.(speed := inventory.speed - 1);
      speedBoostUntil := now + BoostMs;
    }

    /** useNoStaminaPill: spend one pill for five seconds without stamina costs. */
    method UseNoStaminaPill(now: real)
      requires SessionValid()
      modifies this`inventory, this`noStaminaUntil
      ensures SessionValid()
      ensures old(inventory.nostamina) <= 0 ==> unchanged(this)
      ensures old(inventory.nostamina) > 0 ==>
        inventory == old(inventory).(nostamina := old(inventory.nostamina) - 1) && noStaminaUntil == now + BoostMs
    {
      if inventory.nostamina <= 0 {
        return;
      }
      inventory := inventory.(nostamina := inventory.nostamina - 1);
      noStaminaUntil := now + BoostMs;
    }

    /** advanceLevel: finish the game after the last level, otherwise build the next one. */
    method AdvanceLevel(now: real)
      requires Valid()
      modifies this`completed, this`level, this`platforms, this`crackers, this`crackersTarget, this`crackersCollected
      modifies this`levelStartMs, this`levelElapsedMs
      modifies player`x, player`y, player`vx, player`vy, player`jumpsRemaining, player`exhausted, player`stamina
      modifies player`speed, player`jumpPower
      ensures Valid()
      ensures old(level) >= TotalLevels ==>
        completed && level == old(level) && crackers == old(crackers) && unchanged(player)
      ensures old(level) >= TotalLevels ==> levelStartMs == old(levelStartMs) && levelElapsedMs == old(levelElapsedMs)
      ensures old(level) < TotalLevels ==>
        level == old(level) + 1 && completed == old(completed) && LevelStarted(level) && Scaled(now)
    {
      if level >= TotalLevels {
        completed := true;
        return;
      }
      level := level + 1;
      CreateLevel(level);
      UpdateHUD(now);
    }

    /** The shop's next-level button: close the shop, then finish or advance. */
    method ShopNext(now: real)
      requires Valid()
      modifies this`inShop, this`completed, this`level, this`platforms, this`crackers, this`crackersTarget
      modifies this`crackersCollected, this`levelStartMs, this`levelElapsedMs
      modifies player`x, player`y, player`vx, player`vy, player`jumpsRemaining, player`exhausted, player`stamina
      modifies player`speed, player`jumpPower
      ensures Valid() && !inShop
      ensures old(level) >= TotalLevels ==> completed && level == old(level) && crackers == old(crackers) && unchanged(player)
      ensures old(level) >= TotalLevels ==> levelStartMs == old(levelStartMs) && levelElapsedMs == old(levelElapsedMs)
      ensures old(level) < TotalLevels ==>
        level == old(level) + 1 && completed == old(completed) && LevelStarted(level) && Scaled(now)
    {
      CloseShop();
      if level >= TotalLevels {
        completed := true;
        return;
      }
      AdvanceLevel(now);
    }

    /** resetGameState: a new run from level 1 with an empty purse; best times are kept. */
    method ResetGameState(now: real)
      requires Valid()
      modifies this`level, this`crackersCollected, this`crackersTarget, this`completed, this`transitionTimer
      modifies this`levelStartMs, this`levelElapsedMs, this`coins, this`inShop, this`rewardPending
      modifies this`speedBoostUntil, this`noStaminaUntil, this`inventory, this`platforms, this`crackers
      modifies player`x, player`y, player`vx, player`vy, player`jumpsRemaining, player`exhausted, player`stamina
      modifies player`speed, player`jumpPower
      ensures Valid() && NewRun(now)
    {
      ClearProgress();
      ClearPurse();
      CloseShop();
      StartRun(now);
    }

    /** The end of page start-up and of resetGameState: createLevel(1), then updateHUD, on a cleared session. */
    method StartRun(now: real)
      requires SessionValid()
      requires level == 1 && !completed && transitionTimer == 0
      requires coins == 0 && !inShop && !rewardPending && inventory == Inventory(0, 0, 0)
      requires speedBoostUntil == 0.0 && noStaminaUntil == 0.0
      modifies this`platforms, this`crackers, this`crackersTarget, this`crackersCollected
      modifies this`levelStartMs, this`levelElapsedMs
      modifies player`x, player`y, player`vx, player`vy, player`jumpsRemaining, player`exhausted, player`stamina
      modifies player`speed, player`jumpPower
      ensures Valid() && NewRun(now)
    {
      CreateLevel(level);
      UpdateHUD(now);
    }

    /** resetGameState's assignments to the progress: level 1, no crackers, no transition, clock at 0. */
    method ClearProgress()
      requires SessionValid()
      modifies this`level, this`crackersCollected, this`crackersTarget, this`completed, this`transitionTimer
      modifies this`levelStartMs, this`levelElapsedMs
      ensures SessionValid()
      ensures level == 1 && !completed && transitionTimer == 0
      ensures crackersCollected == 0 && crackersTarget == 0 && levelStartMs == 0.0 && levelElapsedMs == 0.0
    {
      level := 1;
      crackersCollected := 0;
      crackersTarget := 0;
      completed := false;
      transitionTimer := 0;
      levelStartMs := 0.0;
      levelElapsedMs := 0.0;
    }

    /** resetGameState's assignments to the economy: no coins, no pills, no boosts, shop closed. */
    method ClearPurse()
      requires SessionValid()
      modifies this`coins, this`inShop, this`rewardPending, this`speedBoostUntil, this`noStaminaUntil, this`inventory
      ensures SessionValid()
      ensures coins == 0 && !inShop && !rewardPending && inventory == Inventory(0, 0, 0)
      ensures speedBoostUntil == 0.0 && noStaminaUntil == 0.0
    {
      coins := 0;
      inShop := false;
      rewardPending := false;
      speedBoostUntil := 0.0;
      noStaminaUntil := 0.0;
      inventory := Inventory(0, 0, 0);
    }

    /** nextLevelIfReady: count the transition down; when it reaches 0, open the shop. */
    method NextLevelIfReady()
      requires Valid()
      modifies this`transitionTimer, this`coins, this`rewardPending, this`inShop, this`controls
      ensures Valid()
      ensures old(transitionTimer) <= 0 ==> unchanged(this)
      ensures old(transitionTimer) > 0 ==> transitionTimer == old(transitionTimer) - 1
      ensures var opens := old(transitionTimer) == 1 && screen == Playing && !old(inShop);
        && inShop == (old(inShop) || opens)
        && coins == old(coins) + (if opens && old(rewardPending) then ShopReward else 0)
        && rewardPending == (old(rewardPending) && !opens)
        && controls == (if opens then Released else old(controls))
    {
      if transitionTimer <= 0 {
        return;
      }
      transitionTimer := transitionTimer - 1;
      if transitionTimer == 0 {
        OpenShop();
      }
    }

    /**
     * The body of gameLoop for a frame stamped `time`: the clamped delta, then, while the
     * game runs on the game screen, elapsed time (outside transitions and the shop),
     * stamina, input, physics and pickups (outside the shop), the transition countdown
     * and the speed scaling.
     */
    method Tick(time: real, now: real)
      requires Valid()
      requires lastFrameMs == 0.0 || lastFrameMs <= time
      modifies this`lastFrameMs, this`levelStartMs, this`levelElapsedMs, this`crackers, this`crackersCollected
      modifies this`transitionTimer, this`rewardPending, this`bestTimes, this`coins, this`inShop, this`controls
      modifies player`x, player`y, player`vx, player`vy, player`onGround, player`jumpsRemaining
      modifies player`stamina, player`exhausted, player`facing, player`speed, player`jumpPower
      ensures Valid()
      ensures lastFrameMs == time
      ensures old(completed || screen != Playing) ==> OnlyClockMoved()
      ensures old(!completed && screen == Playing) ==>
        && levelStartMs == (if old(levelStartMs) == 0.0 then time else old(levelStartMs))
        && levelElapsedMs == old(levelElapsedMs) +
             (if old(transitionTimer <= 0 && !inShop) then FrameDelta(old(lastFrameMs), time) else 0.0)
        && Scaled(now)
      ensures old(!completed && screen == Playing && !inShop) ==>
        Sim() == SimulateFrame(old(Sim()), old(controls), old(player.speed), now < noStaminaUntil,
                               FrameDelta(old(lastFrameMs), time), platforms, width, height)
      ensures old(completed || screen != Playing || inShop) ==> Sim() == old(Sim())
      ensures old(!completed && screen == Playing) ==>
        Ledger() == CountdownFrame(old(Ledger()), old(!inShop && transitionTimer <= 0) && crackersCollected >= crackersTarget,
                                   true, level, levelElapsedMs)
      ensures old(!completed && screen == Playing && !inShop) ==> (player.exhausted ==> player.vx == 0.0)
      ensures levelElapsedMs >= old(levelElapsedMs)
      ensures crackersCollected >= old(crackersCollected) && coins >= old(coins)
    {
      if !completed && screen == Playing {
        PlayFrame(time, now);
      } else {
        var _ := StampFrame(time);
      }
    }

    /** gameLoop's frame clock: the first frame counts from itself, and the delta is clamped to 64 ms. */
    method StampFrame(time: real) returns (delta: real)
      requires lastFrameMs == 0.0 || lastFrameMs <= time
      modifies this`lastFrameMs
      ensures lastFrameMs == time
      ensures delta == FrameDelta(old(lastFrameMs), time)
    {
      if lastFrameMs == 0.0 {
        lastFrameMs := time;
      }
      delta := RealMin(MaxFrameMs, time - lastFrameMs);
      lastFrameMs := time;
    }

    /**
     * gameLoop on the game screen of a running game: the frame clock, the level clock, the
     * simulation outside the shop, the countdown, the scaling.
     */
    method PlayFrame(time: real, now: real)
      requires Valid()
      requires lastFrameMs == 0.0 || lastFrameMs <= time
      modifies this`lastFrameMs, this`levelStartMs, this`levelElapsedMs, this`crackers, this`crackersCollected
      modifies this`transitionTimer, this`rewardPending, this`bestTimes, this`coins, this`inShop, this`controls
      modifies player`x, player`y, player`vx, player`vy, player`onGround, player`jumpsRemaining
      modifies player`stamina, player`exhausted, player`facing, player`speed, player`jumpPower
      ensures Valid()
      ensures lastFrameMs == time
      ensures && levelStartMs == (if old(levelStartMs) == 0.0 then time else old(levelStartMs))
              && levelElapsedMs == old(levelElapsedMs) +
                   (if old(transitionTimer <= 0 && !inShop) then FrameDelta(old(lastFrameMs), time) else 0.0)
              && Scaled(now)
      ensures old(!inShop) ==>
        Sim() == SimulateFrame(old(Sim()), old(controls), old(player.speed), now < noStaminaUntil,
                               FrameDelta(old(lastFrameMs), time), platforms, width, height)
      ensures old(inShop) ==> Sim() == old(Sim())
      ensures Ledger() == CountdownFrame(old(Ledger()), old(!inShop && transitionTimer <= 0) && crackersCollected >= crackersTarget,
                                         screen == Playing, level, levelElapsedMs)
      ensures old(!inShop) ==> (player.exhausted ==> player.vx == 0.0)
      ensures levelElapsedMs >= old(levelElapsedMs)
      ensures crackersCollected >= old(crackersCollected) && coins >= old(coins)
    {
      var delta := FrameClocks(time);
      FrameRest(delta, now);
    }

    /**
     * The clocks of a live frame: the frame stamp, then the level clock, which
     * starts on the first live frame and runs outside transitions and the shop.
     */
    method FrameClocks(time: real) returns (delta: real)
      requires lastFrameMs == 0.0 || lastFrameMs <= time
      modifies this`lastFrameMs, this`levelStartMs, this`levelElapsedMs
      ensures lastFrameMs == time && delta == FrameDelta(old(lastFrameMs), time)
      ensures levelStartMs == if old(levelStartMs) == 0.0 then time else old(levelStartMs)
      ensures levelElapsedMs == old(levelElapsedMs) + (if transitionTimer <= 0 && !inShop then delta else 0.0)
    {
      delta := StampFrame(time);
      if levelStartMs == 0.0 {
        levelStartMs := time;
      }
      if transitionTimer <= 0 && !inShop {
        levelElapsedMs := levelElapsedMs + delta;
      }
    }

    /** A live frame after its clocks: the simulation outside the shop, the countdown, then the scaling. */
    method FrameRest(delta: real, now: real)
      requires Valid() && delta >= 0.0
      modifies this`crackers, this`crackersCollected, this`transitionTimer
      modifies this`rewardPending, this`bestTimes, this`coins, this`inShop, this`controls
      modifies player`x, player`y, player`vx, player`vy, player`onGround, player`jumpsRemaining
      modifies player`stamina, player`exhausted, player`facing, player`speed, player`jumpPower
      ensures Valid() && Scaled(now)
      ensures old(!inShop) ==> (player.exhausted ==> player.vx == 0.0)
      ensures crackersCollected >= old(crackersCollected) && coins >= old(coins)
      ensures old(!inShop) ==>
        Sim() == SimulateFrame(old(Sim()), old(controls), old(player.speed), now < noStaminaUntil, delta, platforms, width, height)
      ensures old(inShop) ==> Sim() == old(Sim())
      ensures Ledger() == CountdownFrame(old(Ledger()), old(!inShop && transitionTimer <= 0) && crackersCollected >= crackersTarget,
                                         screen == Playing, level, levelElapsedMs)
    {
      Advance(delta, now);
      ghost var s1, l1 := Sim(), Ledger();
      UpdateHUD(now);
      assert Sim() == s1 && Ledger() == l1;
    }

    /** A frame after the level clock: the simulation outside the shop, then the transition countdown. */
    method Advance(delta: real, now: real)
      requires Valid() && delta >= 0.0
      modifies this`crackers, this`crackersCollected, this`transitionTimer
      modifies this`rewardPending, this`bestTimes, this`coins, this`inShop, this`controls
      modifies player`x, player`y, player`vx, player`vy, player`onGround, player`jumpsRemaining
      modifies player`stamina, player`exhausted, player`facing
      ensures Valid()
      ensures old(!inShop) ==> (player.exhausted ==> player.vx == 0.0)
      ensures crackersCollected >= old(crackersCollected)
      ensures old(!inShop) ==>
        Sim() == SimulateFrame(old(Sim()), old(controls), player.speed, now < noStaminaUntil, delta, platforms, width, height)
      ensures old(inShop) ==> Sim() == old(Sim())
      ensures Ledger() == CountdownFrame(old(Ledger()), old(!inShop && transitionTimer <= 0) && crackersCollected >= crackersTarget,
                                         screen == Playing, level, levelElapsedMs)
    {
      if !inShop {
        Simulate(delta, now);
      }
      ghost var s1 := Sim();
      NextLevelIfReady();
      assert Sim() == s1;
    }

    /** The simulation steps of a frame outside the shop: stamina, input, physics, pickups. */
    method Simulate(delta: real, now: real)
      requires Valid() && delta >= 0.0
      modifies this`crackers, this`crackersCollected, this`transitionTimer, this`rewardPending, this`bestTimes
      modifies player`x, player`y, player`vx, player`vy, player`onGround, player`jumpsRemaining
      modifies player`stamina, player`exhausted, player`facing
      ensures Valid()
      ensures player.exhausted ==> player.vx == 0.0
      ensures crackersCollected >= old(crackersCollected)
      ensures Sim() == SimulateFrame(old(Sim()), controls, player.speed, now < noStaminaUntil, delta, platforms, width, height)
      ensures var cleared := crackersCollected >= crackersTarget && old(transitionTimer) <= 0;
        && transitionTimer == (if cleared then TransitionTicks else old(transitionTimer))
        && rewardPending == (cleared || old(rewardPending))
        && bestTimes == (if cleared then old(bestTimes)[level - 1 := RecordBest(old(bestTimes)[level - 1], levelElapsedMs)]
                         else old(bestTimes))
    {
      ghost var s0 := Sim();
      SteerPlayer(delta, now);
      ghost var vit := player.Vitals();
      ghost var steered := player.AsBody();
      ApplyPhysics();
      ghost var moved := player.AsBody();
      CollectCrackers();
      SimulateFrameIs(s0, controls, player.speed, now < noStaminaUntil, delta, platforms, width, height,
                      vit, steered, moved, Sim());
    }

    /** A frame's updateStamina followed by handleInput: the bar ticks, then the player steers. */
    method SteerPlayer(delta: real, now: real)
      requires PlayerValid() && delta >= 0.0
      modifies player`stamina, player`exhausted, player`vx, player`facing
      ensures PlayerValid()
      ensures player.Vitals() == StaminaTick(old(player.Vitals()), controls.left || controls.right, now < noStaminaUntil, delta)
      ensures player.vx == Steer(old(player.vx), player.exhausted, controls, player.speed)
      ensures player.facing == Face(old(player.facing), player.exhausted, controls)
    {
      UpdateStamina(delta, now);
      HandleInput();
    }
  }
}
