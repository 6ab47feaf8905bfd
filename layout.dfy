/**
 * createLevel's deterministic part, identical in both versions: the fixed six-platform
 * layout and the modular formula that places the level's crackers on it.
 */
module Layout {
  import opened Geometry
  import opened Numbers

  /** The number of levels in a run. */
  const TotalLevels: nat := 9
  const PlatformCount: nat := 6
  const CrackerSize: real := 16.0

  /** A collectible: its box and whether it has been picked up (the bob phase is visual only). */
  datatype Cracker = Cracker(box: Rect, collected: bool)

  /** The platform list: the ground first, spanning the world's width, then five floating ones. */
  function Platforms(width: real, height: real): (ps: seq<Rect>)
    ensures |ps| == PlatformCount
    ensures ps[0].x == 0.0 && ps[0].w == width && ps[0].y + ps[0].h == height
  {
    var midY := height - 150.0;
    var highY := height - 250.0;
    var topY := height - 340.0;
    [ Rect(0.0, height - 52.0, width, 52.0),
      Rect(80.0, midY, 160.0, 20.0),
      Rect(300.0, highY, 180.0, 20.0),
      Rect(560.0, topY, 180.0, 20.0),
      Rect(770.0, highY - 10.0, 130.0, 20.0),
      Rect(500.0, midY + 45.0, 120.0, 20.0) ]
  }

  /** Number of crackers a level asks for. */
  function Needed(level: nat): nat
  {
    3 + level
  }

  /**
   * Index of the platform that carries cracker i: 1 + ((i + level) mod 5), never the ground.
   * Both operands are non-negative, so JavaScript's % and Dafny's % agree.
   */
  function CrackerPlatform(level: nat, i: nat): (j: nat)
    ensures 1 <= j < PlatformCount
  {
    1 + (i + level) % (PlatformCount - 1)
  }

  /**
   * max(30, w - 40), the modulus of the horizontal scatter. The layout's widths are whole
   * numbers, so the floor is exact and this is the integer the source computes.
   */
  function Spread(w: real): (s: int)
    ensures s >= 30
  {
    IntMax(30, (w - 40.0).Floor)
  }

  /** Cracker i of a level, placed on its platform by the modular formula. */
  function PlaceCracker(ps: seq<Rect>, level: nat, i: nat): (c: Cracker)
    requires |ps| == PlatformCount
    ensures !c.collected && c.box.w == CrackerSize && c.box.h == CrackerSize
    ensures var p := ps[CrackerPlatform(level, i)];
      c.box.y == p.y - 22.0 &&
      p.x + 20.0 <= c.box.x < p.x + 20.0 + Spread(p.w) as real
  {
    var p := ps[CrackerPlatform(level, i)];
    var offset := (i * 67 + level * 29) % Spread(p.w);
    Cracker(Rect(p.x + 20.0 + offset as real, p.y - 22.0, CrackerSize, CrackerSize), false)
  }

  /** The whole cracker list of a level, in the order createLevel pushes it. */
  function LevelCrackers(ps: seq<Rect>, level: nat): (cs: seq<Cracker>)
    requires |ps| == PlatformCount
    ensures |cs| == Needed(level)
  {
    seq(Needed(level), i requires 0 <= i < Needed(level) => PlaceCracker(ps, level, i))
  }

  /** Every floating platform is 20 high, at least 70 wide and entirely above the ground's top edge. */
  lemma FloatingPlatforms(width: real, height: real, k: nat)
    requires 1 <= k < PlatformCount
    ensures var ps := Platforms(width, height);
      ps[k].h == 20.0 && ps[k].w >= 70.0 && ps[k].y + ps[k].h <= ps[0].y
  {
  }

  /**
   * createLevel's cracker loop: for i from 0 below 3 + level, push cracker i onto the
   * platform 1 + (i + level) mod (platform count - 1), scattered by the modular formula.
   */
  method BuildCrackers(platforms: seq<Rect>, level: nat) returns (crackers: seq<Cracker>)
    requires |platforms| == PlatformCount
    ensures crackers == LevelCrackers(platforms, level)
  {
    var needed := 3 + level;
    crackers := [];
    var i := 0;
    while i < needed
      invariant 0 <= i <= needed
      invariant crackers == LevelCrackers(platforms, level)[..i]
    {
      var p := platforms[1 + (i + level) % (|platforms| - 1)];
      var x := p.x + 20.0 + ((i * 67 + level * 29) % Spread(p.w)) as real;
      ghost var all := LevelCrackers(platforms, level);
      assert all[i] == PlaceCracker(platforms, level, i) == Cracker(Rect(x, p.y - 22.0, CrackerSize, CrackerSize), false);
      crackers := crackers + [Cracker(Rect(x, p.y - 22.0, CrackerSize, CrackerSize), false)];
      assert all[..i + 1] == all[..i] + [all[i]];
      i := i + 1;
    }
    assert crackers == LevelCrackers(platforms, level);
  }

  /** A cracker hovers 6 units above its platform: the player can never collect it by standing inside the platform. */
  lemma CrackerClearsItsPlatform(ps: seq<Rect>, level: nat, i: nat)
    requires |ps| == PlatformCount
    ensures !Overlaps(PlaceCracker(ps, level, i).box, ps[CrackerPlatform(level, i)])
  {
  }

  /** From level 2 on (at least five crackers) every floating platform carries a cracker. */
  lemma EveryPlatformStocked(level: nat, j: nat)
    requires level >= 2 && 1 <= j < PlatformCount
    ensures exists i :: 0 <= i < Needed(level) && CrackerPlatform(level, i) == j
  {
    var r := level % 5;
    var i := if j - 1 >= r then j - 1 - r else j + 4 - r;
    assert i + level == (j - 1) + 5 * (level / 5 + (if j - 1 >= r then 0 else 1));
    ShiftByFives(j - 1, level / 5 + (if j - 1 >= r then 0 else 1));
    assert CrackerPlatform(level, i) == j;
  }

  /** Adding a multiple of 5 does not change a residue below 5. */
  lemma ShiftByFives(k: int, q: int)
    requires 0 <= k < 5
    ensures (k + 5 * q) % 5 == k
  {
    var n := k + 5 * q;
    assert n == 5 * (n / 5) + n % 5;
    assert 5 * (q - n / 5) == n % 5 - k;
  }
}
