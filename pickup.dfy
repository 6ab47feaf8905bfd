/**
 * collectCrackers' sweep, common to both versions: every uncollected cracker that overlaps
 * the player is flagged as collected and counted once; collected ones are skipped.
 */
module Pickup {
  import opened Geometry
  import opened Layout

  /** The cracker is still out and the player's box touches it. */
  predicate Fresh(player: Rect, c: Cracker)
  {
    !c.collected && Overlaps(player, c.box)
  }

  /** One iteration of the sweep. */
  function Pick(player: Rect, c: Cracker): Cracker
  {
    if Fresh(player, c) then c.(collected := true) else c
  }

  /** The crackers after one sweep, in list order. */
  function Sweep(player: Rect, cs: seq<Cracker>): (r: seq<Cracker>)
    ensures |r| == |cs|
  {
    seq(|cs|, k requires 0 <= k < |cs| => Pick(player, cs[k]))
  }

  /** The sweep keeps every cracker's box and flags exactly those that were collected or overlap the player. */
  lemma SweepMarksOverlapping(player: Rect, cs: seq<Cracker>, k: nat)
    requires k < |cs|
    ensures Sweep(player, cs)[k].box == cs[k].box
    ensures Sweep(player, cs)[k].collected <==> cs[k].collected || Overlaps(player, cs[k].box)
  {
  }

  /** How many crackers a sweep picks up. */
  function CountFresh(player: Rect, cs: seq<Cracker>): nat
  {
    if cs == [] then 0
    else CountFresh(player, cs[..|cs| - 1]) + (if Fresh(player, cs[|cs| - 1]) then 1 else 0)
  }

  /** How many crackers carry the collected flag. */
  function CountCollected(cs: seq<Cracker>): (n: nat)
    ensures n <= |cs|
  {
    if cs == [] then 0
    else CountCollected(cs[..|cs| - 1]) + (if cs[|cs| - 1].collected then 1 else 0)
  }

  /** Extending a prefix by one cracker adds that cracker's pickup to the count. */
  lemma CountFreshSnoc(player: Rect, cs: seq<Cracker>, i: nat)
    requires i < |cs|
    ensures CountFresh(player, cs[..i + 1]) == CountFresh(player, cs[..i]) + (if Fresh(player, cs[i]) then 1 else 0)
  {
    assert cs[..i + 1][..i] == cs[..i];
  }

  /** The sweep raises the collected count by exactly the number of crackers it picks up. */
  lemma {:induction false} SweepCounts(player: Rect, cs: seq<Cracker>)
    ensures CountCollected(Sweep(player, cs)) == CountCollected(cs) + CountFresh(player, cs)
  {
    if cs != [] {
      var n := |cs| - 1;
      SweepCounts(player, cs[..n]);
      var r := Sweep(player, cs);
      assert r[..n] == Sweep(player, cs[..n]);
    }
  }

  /** A second sweep from the same position finds nothing new: collected crackers are never re-counted. */
  lemma {:induction false} SweepIdempotent(player: Rect, cs: seq<Cracker>)
    ensures CountFresh(player, Sweep(player, cs)) == 0
    ensures Sweep(player, Sweep(player, cs)) == Sweep(player, cs)
  {
    if cs != [] {
      var n := |cs| - 1;
      var r := Sweep(player, cs);
      assert r[..n] == Sweep(player, cs[..n]);
      SweepIdempotent(player, cs[..n]);
    }
  }

  /** A list with every cracker collected offers nothing to pick up, wherever the player stands. */
  lemma {:induction false} AllCollectedNothingFresh(player: Rect, cs: seq<Cracker>)
    requires forall k :: 0 <= k < |cs| ==> cs[k].collected
    ensures CountFresh(player, cs) == 0 && CountCollected(cs) == |cs|
  {
    if cs != [] {
      AllCollectedNothingFresh(player, cs[..|cs| - 1]);
    }
  }

  /** A freshly generated level has nothing collected. */
  lemma FreshLevelUncounted(ps: seq<Rect>, level: nat)
    requires |ps| == PlatformCount
    ensures CountCollected(LevelCrackers(ps, level)) == 0
  {
    var cs := LevelCrackers(ps, level);
    assert forall k :: 0 <= k < |cs| ==> !cs[k].collected;
    NoneCollected(cs);
  }

  /** A list with no cracker collected has a collected count of zero. */
  lemma {:induction false} NoneCollected(cs: seq<Cracker>)
    requires forall k :: 0 <= k < |cs| ==> !cs[k].collected
    ensures CountCollected(cs) == 0
  {
    if cs != [] {
      NoneCollected(cs[..|cs| - 1]);
    }
  }
}
