/**
 * The first version (v0/game.js): no stamina, no shop. The player jumps only from the
 * ground, and a cleared level hands over to the next one on its own after a 75-tick
 * transition. The `player` and `game` objects are classes updated in place; the canvas
 * size is fixed at construction and the held arrow keys are the `controls` field.
 */
module GameV0 {
  import opened Numbers
  import opened Geometry
  import opened Layout
  import opened Physics
  import opened Pickup

  const TransitionTicks: int := 75
  /** v0 never rescales the player: these are the fixed speed and jump power. */
  const Speed: real := 0.85
  const JumpPower: real := 12.0

  /** handleInput on the body: held arrows push sideways; the up arrow jumps, but only from the ground. */
  function Input(b: Body, controls: Controls): (r: Body)
    ensures r.x == b.x && r.y == b.y
    ensures controls.left == controls.right ==> r.vx == b.vx
    ensures controls.right && !controls.left ==> r.vx == b.vx + Speed
    ensures controls.left && !controls.right ==> r.vx == b.vx - Speed
    ensures controls.up && b.onGround ==> r.vy == -JumpPower && !r.onGround
    ensures !(controls.up && b.onGround) ==> r.vy == b.vy && r.onGround == b.onGround
  {
    var vx := b.vx - (if controls.left then Speed else 0.0) + (if controls.right then Speed else 0.0);
    if controls.up && b.onGround then b.(vx := vx, vy := -JumpPower, onGround := false)
    else b.(vx := vx)
  }

  class Player {
    var x: real
    var y: real
    var vx: real
    var vy: real
    var onGround: bool
    var facing: int

    constructor ()
      ensures x == SpawnX && y == 100.0 && vx == 0.0 && vy == 0.0
      ensures !onGround && facing == 1
    {
      x, y, vx, vy := SpawnX, 100.0, 0.0, 0.0;
      onGround, facing := false, 1;
    }

    /** The part of the player a physics tick reads and writes. */
    function AsBody(): Physics.Body
      reads this`x, this`y, this`vx, this`vy, this`onGround
    {
      Physics.Body(x, y, vx, vy, onGround)
    }

    /** The player's rectangle. */
    function Box(): Rect
      reads this`x, this`y
    {
      Rect(x, y, PlayerW, PlayerH)
    }
  }

  class Game {
    const player: Player
    const width: real
    const height: real

    var level: int
    var crackersCollected: int
    var crackersTarget: int
    var completed: bool
    var transitionTimer: int
    var controls: Controls
    var platforms: seq<Rect>
    var crackers: seq<Cracker>

    /**
     * The invariant of the running game: level in 1..9 and finished only at the last,
     * the fixed layout, a target equal to the number of crackers and a count equal to
     * the crackers flagged collected.
     */
    ghost predicate Valid()
      reads this`level, this`completed, this`transitionTimer, this`platforms, this`crackers
      reads this`crackersTarget, this`crackersCollected
    {
      && 1 <= level <= TotalLevels
      && (completed ==> level == TotalLevels)
      && transitionTimer >= 0
      && platforms == Platforms(width, height)
      && |crackers| == crackersTarget
      && crackersCollected == CountCollected(crackers)
    }

    /** The state createLevel(level) leaves behind. */
    ghost predicate LevelStarted(level: nat)
      reads this`platforms, this`crackersTarget, this`crackersCollected, this`crackers
      reads player`x, player`y, player`vx, player`vy
    {
      && platforms == Platforms(width, height)
      && crackersTarget == Needed(level) && crackersCollected == 0
      && crackers == LevelCrackers(platforms, level)
      && player.x == SpawnX && player.y == SpawnY && player.vx == 0.0 && player.vy == 0.0
    }

    /** Page start-up: the initial objects and createLevel(1). */
    constructor (width: real, height: real)
      ensures Valid() && fresh(player)
      ensures this.width == width && this.height == height
      ensures level == 1 && !completed && transitionTimer == 0 && controls == Released
      ensures LevelStarted(1)
      ensures !player.onGround && player.facing == 1
    {
      this.width := width;
      this.height := height;
      player := new Player();
      level := 1;
      crackersCollected, crackersTarget := 0, 0;
      completed := false;
      transitionTimer := 0;
      controls := Released;
      platforms, crackers := [], [];
      new;
      CreateLevel(level);
    }

    /** crackersTargetSafe: the target is at least 1 and the count restarts. */
    method CrackersTargetSafe(value: int)
      modifies this`crackersTarget, this`crackersCollected
      ensures crackersTarget == IntMax(1, value) && crackersTarget >= 1
      ensures crackersCollected == 0
    {
      crackersTarget := IntMax(1, value);
      crackersCollected := 0;
    }

    /** createLevel: rebuild the platforms and crackers and put the player back at the spawn point. */
    method CreateLevel(level: nat)
      requires 1 <= level
      modifies this`platforms, this`crackers, this`crackersTarget, this`crackersCollected
      modifies player`x, player`y, player`vx, player`vy
      ensures LevelStarted(level)
      ensures crackersTarget == IntMax(1, 3 + level)
      ensures |crackers| == crackersTarget && crackersCollected == CountCollected(crackers)
    {
      platforms := Platforms(width, height);
      var needed := 3 + level;
      CrackersTargetSafe(needed);
      crackers := BuildCrackers(platforms, level);
      FreshLevelUncounted(platforms, level);

      player.x, player.y := SpawnX, SpawnY;
      player.vx, player.vy := 0.0, 0.0;
    }

    /** handleInput: held arrows push the player sideways; the up arrow jumps, but only from the ground. */
    method HandleInput()
      modifies player`vx, player`facing, player`vy, player`onGround
      ensures player.AsBody() == Input(old(player.AsBody()), controls)
      ensures player.facing == (if controls.right then 1 else if controls.left then -1 else old(player.facing))
    {
      if controls.left {
        player.vx := player.vx - Speed;
        player.facing := -1;
      }
      if controls.right {
        player.vx := player.vx + Speed;
        player.facing := 1;
      }
      if controls.up && player.onGround {
        player.vy := -JumpPower;
        player.onGround := false;
      }
    }

    /** applyPhysics: one physics tick (v0 has no jump budget to refill). */
    method ApplyPhysics()
      modifies player`x, player`y, player`vx, player`vy, player`onGround
      ensures player.AsBody() == Step(old(player.AsBody()), platforms, width, height)
    {
      Move();
      LandOnPlatforms();
      if player.y > height + FallMargin {
        player.x := SpawnX;
        player.y := SpawnY;
        player.vx := 0.0;
        player.vy := 0.0;
      }
    }

    /** applyPhysics, first part: gravity, friction, the speed clamp, the walls, the vertical move. */
    method Move()
      modifies player`x, player`y, player`vx, player`vy, player`onGround
      ensures player.AsBody() == Integrate(old(player.AsBody()), width)
    {
      player.vy := player.vy + Gravity;
      player.vx := player.vx * Friction;
      player.vx := RealMax(-MaxHorizontalSpeed, RealMin(MaxHorizontalSpeed, player.vx));

      player.x := player.x + player.vx;
      if player.x < 0.0 {
        player.x := 0.0;
        player.vx := 0.0;
      }
      if player.x + PlayerW > width {
        player.x := width - PlayerW;
        player.vx := 0.0;
      }

      player.y := player.y + player.vy;
      player.onGround := false;
    }

    /** applyPhysics, the platform loop: land on every platform hit from above, in list order. */
    method LandOnPlatforms()
      modifies player`y, player`vy, player`onGround
      ensures player.AsBody() == LandAll(old(player.AsBody()), platforms)
    {
      ghost var moved := player.AsBody();
      var i := 0;
      while i < |platforms|
        invariant 0 <= i <= |platforms|
        invariant player.AsBody() == LandAll(moved, platforms[..i])
      {
        var p := platforms[i];
        var wasAbove := player.y + PlayerH - player.vy <= p.y;
        var overlaps := Overlaps(player.Box(), p);
        if overlaps && player.vy >= 0.0 && wasAbove {
          player.y := p.y - PlayerH;
          player.vy := 0.0;
          player.onGround := true;
        }
        assert platforms[..i + 1][..i] == platforms[..i];
        i := i + 1;
      }
      assert platforms[..i] == platforms;
    }

    /**
     * collectCrackers: pick up every uncollected cracker the player overlaps; once the
     * target is met with no transition running, start the 75-tick transition.
     */
    method CollectCrackers()
      requires Valid()
      modifies this`crackers, this`crackersCollected, this`transitionTimer
      ensures Valid()
      ensures crackers == Sweep(player.Box(), old(crackers))
      ensures crackersCollected == old(crackersCollected) + CountFresh(player.Box(), old(crackers))
      ensures transitionTimer ==
        if crackersCollected >= crackersTarget && old(transitionTimer) <= 0 then TransitionTicks else old(transitionTimer)
    {
      PickUp();
      if crackersCollected >= crackersTarget && transitionTimer <= 0 {
        transitionTimer := TransitionTicks;
      }
    }

    /** collectCrackers, the loop over the crackers. */
    method PickUp()
      modifies this`crackers, this`crackersCollected
      ensures crackers == Sweep(player.Box(), old(crackers))
      ensures crackersCollected == old(crackersCollected) + CountFresh(player.Box(), old(crackers))
      ensures CountCollected(crackers) == CountCollected(old(crackers)) + CountFresh(player.Box(), old(crackers))
    {
      var box := player.Box();
      var cs, n := crackers, crackersCollected;
      ghost var cs0, n0 := cs, n;
      var i := 0;
      while i < |cs|
        invariant 0 <= i <= |cs| == |cs0|
        invariant forall k :: 0 <= k < |cs| ==> cs[k] == if k < i then Pick(box, cs0[k]) else cs0[k]
        invariant n == n0 + CountFresh(box, cs0[..i])
      {
        CountFreshSnoc(box, cs0, i);
        if !cs[i].collected {
          var collision := Overlaps(box, cs[i].box);
          if collision {
            cs := cs[i := cs[i].(collected := true)];
            n := n + 1;
          }
        }
        i := i + 1;
      }
      assert cs0[..i] == cs0;
      assert cs == Sweep(box, cs0);
      SweepCounts(box, cs0);
      crackers, crackersCollected := cs, n;
    }

    /**
     * nextLevelIfReady: count the transition down; when it reaches 0, finish the game
     * after the last level, otherwise move on to the next level.
     */
    method NextLevelIfReady()
      requires Valid()
      modifies this`transitionTimer, this`completed, this`level
      modifies this`platforms, this`crackers, this`crackersTarget, this`crackersCollected
      modifies player`x, player`y, player`vx, player`vy
      ensures Valid()
      ensures old(transitionTimer) <= 0 ==> unchanged(this) && unchanged(player)
      ensures old(transitionTimer) > 0 ==> transitionTimer == old(transitionTimer) - 1
      ensures old(transitionTimer) != 1 ==> level == old(level) && completed == old(completed) && crackers == old(crackers)
      ensures old(transitionTimer) != 1 ==> unchanged(player)
      ensures old(transitionTimer) == 1 && old(level) >= TotalLevels ==>
        completed && level == old(level) && crackers == old(crackers) && unchanged(player)
      ensures old(transitionTimer) == 1 && old(level) < TotalLevels ==>
        level == old(level) + 1 && completed == old(completed) && LevelStarted(level)
    {
      if transitionTimer <= 0 {
        return;
      }
      transitionTimer := transitionTimer - 1;

      if transitionTimer == 0 {
        if level >= TotalLevels {
          completed := true;
          return;
        }
        level := level + 1;
        CreateLevel(level);
      }
    }

    /**
     * The body of gameLoop: nothing moves once the game is finished; otherwise input,
     * physics, pickups and the countdown, which on reaching 0 starts the next level or
     * finishes the game.
     */
    method Tick()
      requires Valid()
      modifies this`transitionTimer, this`completed, this`level
      modifies this`platforms, this`crackers, this`crackersTarget, this`crackersCollected
      modifies player`x, player`y, player`vx, player`vy, player`onGround, player`facing
      ensures Valid()
      ensures old(completed) ==> unchanged(this) && unchanged(player)
      ensures old(!completed) ==>
        player.facing == (if old(controls).right then 1 else if old(controls).left then -1 else old(player.facing))
      ensures old(!completed) && !old(transitionTimer == 1 && level < TotalLevels) ==>
        && player.AsBody() == Step(Input(old(player.AsBody()), old(controls)), platforms, width, height)
        && crackers == Sweep(player.Box(), old(crackers))
        && crackersCollected == old(crackersCollected) + CountFresh(player.Box(), old(crackers))
        && level == old(level)
      ensures old(!completed) ==>
        transitionTimer ==
          if old(transitionTimer) <= 0 && crackersCollected >= crackersTarget then TransitionTicks - 1
          else IntMax(0, old(transitionTimer) - 1)
      ensures old(!completed && transitionTimer == 1 && level < TotalLevels) ==>
        && level == old(level) + 1 && !completed && LevelStarted(level)
        && player.onGround == Step(Input(old(player.AsBody()), old(controls)), old(platforms), width, height).onGround
      ensures completed == (old(completed) || (old(transitionTimer) == 1 && old(level) >= TotalLevels))
      ensures old(level) <= level <= old(level) + 1
    {
      if !completed {
        HandleInput();
        ApplyPhysics();
        CollectCrackers();
        NextLevelIfReady();
      }
    }
  }
}
