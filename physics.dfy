/**
 * applyPhysics, identical in both versions apart from v1's jump refill: one tick of
 * gravity, friction, the speed clamp, the wall clamp, one-sided landing on platforms
 * and the fall-out-of-the-world respawn. Written here over a value; the versions'
 * Player classes do the same steps in place and are proved equal to Step.
 */
module Physics {
  import opened Geometry
  import opened Numbers

  const Gravity: real := 0.55
  const Friction: real := 0.82
  const MaxHorizontalSpeed: real := 7.0
  const PlayerW: real := 30.0
  const PlayerH: real := 64.0
  const SpawnX: real := 90.0
  const SpawnY: real := 90.0
  /** How far below the world's bottom edge the player may fall before respawning. */
  const FallMargin: real := 120.0

  /** The held arrow keys. */
  datatype Controls = Controls(left: bool, right: bool, up: bool)

  const Released := Controls(false, false, false)

  /** The part of the player that a physics tick reads and writes. */
  datatype Body = Body(x: real, y: real, vx: real, vy: real, onGround: bool)

  /** The player's rectangle (30 by 64). */
  function Box(b: Body): Rect
  {
    Rect(b.x, b.y, PlayerW, PlayerH)
  }

  /** Math.max(-7, Math.min(7, v)). */
  function ClampSpeed(v: real): (r: real)
    ensures -MaxHorizontalSpeed <= r <= MaxHorizontalSpeed
    ensures -MaxHorizontalSpeed <= v <= MaxHorizontalSpeed ==> r == v
  {
    RealMax(-MaxHorizontalSpeed, RealMin(MaxHorizontalSpeed, v))
  }

  /** Steps 1-5: gravity, friction, clamp, horizontal move with wall stops, vertical move. */
  function Integrate(b: Body, width: real): (r: Body)
    ensures -MaxHorizontalSpeed <= r.vx <= MaxHorizontalSpeed
    ensures width >= PlayerW ==> 0.0 <= r.x <= width - PlayerW
    ensures r.vy == b.vy + Gravity && r.y == b.y + r.vy && !r.onGround
    ensures var v := ClampSpeed(b.vx * Friction);
      0.0 <= b.x + v && b.x + v + PlayerW <= width ==> r.vx == v && r.x == b.x + v
    ensures var v := ClampSpeed(b.vx * Friction);
      b.x + v < 0.0 && PlayerW <= width ==> r.x == 0.0 && r.vx == 0.0
    ensures var v := ClampSpeed(b.vx * Friction);
      0.0 <= b.x + v && b.x + v + PlayerW > width ==> r.x == width - PlayerW && r.vx == 0.0
    ensures r.vx != 0.0 ==> r.x == b.x + r.vx
  {
    var vy := b.vy + Gravity;
    var vx := ClampSpeed(b.vx * Friction);
    var x := b.x + vx;
    var x1, vx1 := if x < 0.0 then 0.0 else x, if x < 0.0 then 0.0 else vx;
    var x2, vx2 := if x1 + PlayerW > width then width - PlayerW else x1,
                   if x1 + PlayerW > width then 0.0 else vx1;
    Body(x2, b.y + vy, vx2, vy, false)
  }

  /**
   * The landing test for one platform: overlapping, not moving up, and the player's bottom
   * edge was at or above the platform's top before this tick's vertical move.
   */
  predicate Lands(b: Body, p: Rect)
  {
    var wasAbove := b.y + PlayerH - b.vy <= p.y;
    Overlaps(Box(b), p) && b.vy >= 0.0 && wasAbove
  }

  /** One iteration of the platform loop. */
  function LandOn(b: Body, p: Rect): (r: Body)
  {
    if Lands(b, p) then b.(y := p.y - PlayerH, vy := 0.0, onGround := true) else b
  }

  /** The platform loop over ps, in list order (a later landing overrides an earlier one). */
  function LandAll(b: Body, ps: seq<Rect>): Body
  {
    if ps == [] then b else LandOn(LandAll(b, ps[..|ps| - 1]), ps[|ps| - 1])
  }

  /** The body just before platform k of ps is tested. */
  function Before(b: Body, ps: seq<Rect>, k: nat): Body
    requires k <= |ps|
  {
    LandAll(b, ps[..k])
  }

  /** Falling below height + 120 puts the player back at the spawn point, at rest. */
  function Respawn(b: Body, height: real): Body
  {
    if b.y > height + FallMargin then b.(x := SpawnX, y := SpawnY, vx := 0.0, vy := 0.0) else b
  }

  /** True when this tick ends with the player fallen out of the world. */
  predicate Falls(b: Body, ps: seq<Rect>, width: real, height: real)
  {
    LandAll(Integrate(b, width), ps).y > height + FallMargin
  }

  /** One whole physics tick. */
  function Step(b: Body, ps: seq<Rect>, width: real, height: real): (r: Body)
    ensures -MaxHorizontalSpeed <= r.vx <= MaxHorizontalSpeed
    ensures Falls(b, ps, width, height) ==> r.x == SpawnX && r.y == SpawnY && r.vx == 0.0 && r.vy == 0.0
    ensures !Falls(b, ps, width, height) && width >= PlayerW ==> 0.0 <= r.x <= width - PlayerW
    ensures r.onGround == LandAll(Integrate(b, width), ps).onGround
    ensures !Falls(b, ps, width, height) ==> r == LandAll(Integrate(b, width), ps)
    ensures b.vx == 0.0 ==> r.vx == 0.0
  {
    var moved := Integrate(b, width);
    LandAllKeepsHorizontal(moved, ps);
    Respawn(LandAll(moved, ps), height)
  }

  /** Landing never touches the horizontal position or speed. */
  lemma {:induction false} LandAllKeepsHorizontal(b: Body, ps: seq<Rect>)
    ensures LandAll(b, ps).x == b.x && LandAll(b, ps).vx == b.vx
  {
    if ps != [] {
      LandAllKeepsHorizontal(b, ps[..|ps| - 1]);
    }
  }

  /** If no platform from index k on lands the player, the loop's result is fixed after k platforms. */
  lemma {:induction false} NoLaterLanding(b: Body, ps: seq<Rect>, k: nat)
    requires k <= |ps|
    requires forall j :: k <= j < |ps| ==> !Lands(Before(b, ps, j), ps[j])
    ensures LandAll(b, ps) == Before(b, ps, k)
  {
    if k < |ps| {
      var n := |ps| - 1;
      var init := ps[..n];
      assert init[..k] == ps[..k];
      forall j | k <= j < |init|
        ensures !Lands(Before(b, init, j), init[j])
      {
        assert init[..j] == ps[..j];
      }
      NoLaterLanding(b, init, k);
      assert !Lands(Before(b, ps, n), ps[n]);
    } else {
      assert ps[..k] == ps;
    }
  }

  /**
   * The last platform that satisfies the landing test wins: the player ends on its top,
   * at rest and grounded.
   */
  lemma LastLandingWins(b: Body, ps: seq<Rect>, k: nat)
    requires k < |ps|
    requires Lands(Before(b, ps, k), ps[k])
    requires forall j :: k < j < |ps| ==> !Lands(Before(b, ps, j), ps[j])
    ensures LandAll(b, ps).y == ps[k].y - PlayerH
    ensures LandAll(b, ps).vy == 0.0 && LandAll(b, ps).onGround
  {
    NoLaterLanding(b, ps, k + 1);
    assert ps[..k + 1][..k] == ps[..k];
  }

  /** If no platform lands the player, the loop leaves the body as it was. */
  lemma NoLandingLeavesBody(b: Body, ps: seq<Rect>)
    requires forall j :: 0 <= j < |ps| ==> !Lands(Before(b, ps, j), ps[j])
    ensures LandAll(b, ps) == b
  {
    NoLaterLanding(b, ps, 0);
  }

  /** A body that the loop grounds was landed by some platform. */
  lemma {:induction false} GroundedMeansLanded(b: Body, ps: seq<Rect>)
    requires !b.onGround && LandAll(b, ps).onGround
    ensures exists k :: 0 <= k < |ps| && Lands(Before(b, ps, k), ps[k])
  {
    var n := |ps| - 1;
    if Lands(Before(b, ps, n), ps[n]) {
    } else {
      assert LandAll(b, ps) == LandAll(b, ps[..n]);
      GroundedMeansLanded(b, ps[..n]);
      var k :| 0 <= k < n && Lands(Before(b, ps[..n], k), ps[..n][k]);
      assert ps[..n][..k] == ps[..k];
    }
  }

  /**
   * A player at rest on platform k stays exactly where it is on the next tick, provided no
   * other platform overlaps the player at its resting height or one gravity step lower.
   */
  lemma RestingStaysPut(b: Body, ps: seq<Rect>, width: real, height: real, k: nat)
    requires k < |ps| && ps[k].h > 0.0
    requires b.vx == 0.0 && b.vy == 0.0 && b.y == ps[k].y - PlayerH
    requires 0.0 <= b.x && b.x + PlayerW <= width
    requires b.x < ps[k].x + ps[k].w && b.x + PlayerW > ps[k].x
    requires b.y <= height + FallMargin
    requires forall j :: 0 <= j < |ps| && j != k ==>
      !Overlaps(Box(b), ps[j]) && !Overlaps(Box(b.(y := b.y + Gravity)), ps[j])
    ensures Step(b, ps, width, height) == b.(onGround := true)
  {
    var moved := Integrate(b, width);
    assert moved == b.(y := b.y + Gravity, vy := Gravity, onGround := false);
    UntouchedBefore(moved, ps, k);
    assert Before(moved, ps, k) == moved;
    assert Lands(moved, ps[k]);
    var rest := LandOn(moved, ps[k]);
    assert rest == b.(onGround := true);
    assert ps[..k + 1][..k] == ps[..k];
    assert Before(moved, ps, k + 1) == rest;
    forall j | k + 1 <= j < |ps|
      ensures !Lands(Before(moved, ps, j), ps[j])
    {
      RestAfter(moved, ps, k, j, rest);
    }
    NoLaterLanding(moved, ps, k + 1);
  }

  /** Helper of RestingStaysPut: platforms that do not overlap the body leave it as it was. */
  lemma {:induction false} UntouchedBefore(moved: Body, ps: seq<Rect>, k: nat)
    requires k <= |ps|
    requires forall i :: 0 <= i < k ==> !Overlaps(Box(moved), ps[i])
    ensures Before(moved, ps, k) == moved
  {
    if k > 0 {
      UntouchedBefore(moved, ps, k - 1);
      assert ps[..k][..k - 1] == ps[..k - 1];
    }
  }

  /** Helper of RestingStaysPut: after platform k the body stays at rest on top of it. */
  lemma {:induction false} RestAfter(moved: Body, ps: seq<Rect>, k: nat, j: nat, rest: Body)
    requires k < j < |ps|
    requires Before(moved, ps, k + 1) == rest
    requires forall i :: k < i < |ps| ==> !Overlaps(Box(rest), ps[i])
    ensures Before(moved, ps, j) == rest && !Lands(Before(moved, ps, j), ps[j])
    decreases j
  {
    if j > k + 1 {
      RestAfter(moved, ps, k, j - 1, rest);
      assert ps[..j][..j - 1] == ps[..j - 1];
    }
  }
}
