/**
 * The player's ship: a rect anchored at the bottom of the screen, a horizontal
 * position `x`, two movement intents set by the keyboard handlers, and the
 * arsenal it fires from.
 *
 * `x` is declared a float in the source, but it starts at an integer and only
 * ever changes by the integer `ship_speed`, so it is an `int` here and copying
 * it back into the rect loses nothing.
 */
module Ships {
  import opened Config
  import opened Arsenals

  /** An axis-aligned screen rectangle; y grows downwards. */
  datatype Rect = Rect(x: int, y: int, w: nat, h: nat) {
    function Left(): int { x }
    function Right(): int { x + w }
    function Bottom(): int { y + h }
  }

  /** The window's rectangle, anchored at the origin. */
  function ScreenRect(settings: Settings): Rect
  {
    Rect(0, 0, settings.screenW, settings.screenH)
  }

  /**
   * A `w` by `h` rect whose midbottom point is that of `outer`: its centre x
   * is `outer`'s (both halves rounded down, as the library does) and its
   * bottom edge is `outer`'s.
   */
  function AtMidBottom(outer: Rect, w: nat, h: nat): Rect
  {
    Rect(outer.x + outer.w / 2 - w / 2, outer.Bottom() - h, w, h)
  }

  /** A ship no wider than the screen is placed entirely on it. */
  lemma AtMidBottomInside(outer: Rect, w: nat, h: nat)
    requires w <= outer.w
    ensures outer.Left() <= AtMidBottom(outer, w, h).Left()
    ensures AtMidBottom(outer, w, h).Right() <= outer.Right()
    ensures AtMidBottom(outer, w, h).Bottom() == outer.Bottom()
  {
  }

  /** What the motion step reads and writes: the rect, `x` and the two intents. */
  datatype ShipState = ShipState(rect: Rect, x: int, movingRight: bool, movingLeft: bool)

  /** The ship as constructed: bottom-centre of the screen, `x` copied from the rect, no intent. */
  function Launch(settings: Settings): ShipState
  {
    var rect := AtMidBottom(ScreenRect(settings), settings.shipW, settings.shipH);
    ShipState(rect, rect.x, false, false)
  }

  /** With the default settings the ship starts at x = 580, y = 740. */
  lemma DefaultLaunch()
    ensures Launch(Default) == ShipState(Rect(580, 740, 40, 60), 580, false, false)
  {
  }

  /**
   * The new `x` after one motion step. Each intent is tested against the
   * rect as it was before the step, so both tests see the same rect.
   */
  function MovedX(x: int, rect: Rect, bounds: Rect, speed: int, right: bool, left: bool): int
  {
    var afterRight := if right && rect.Right() < bounds.Right() then x + speed else x;
    if left && rect.Left() > bounds.Left() then afterRight - speed else afterRight
  }

  /** One motion step: `x` moves, then the rect's x is set to it; nothing else changes. */
  function Moved(s: ShipState, bounds: Rect, speed: int): (t: ShipState)
    ensures t.rect.x == t.x
    ensures t.rect.y == s.rect.y && t.rect.w == s.rect.w && t.rect.h == s.rect.h
    ensures t.movingRight == s.movingRight && t.movingLeft == s.movingLeft
  {
    var x := MovedX(s.x, s.rect, bounds, speed, s.movingRight, s.movingLeft);
    s.(x := x, rect := s.rect.(x := x))
  }

  /** Right intent alone: `x` grows by exactly `speed` while the right edge is inside, else holds. */
  lemma MoveRightOnly(s: ShipState, bounds: Rect, speed: int)
    requires s.movingRight && !s.movingLeft
    ensures Moved(s, bounds, speed).x == if s.rect.Right() < bounds.Right() then s.x + speed else s.x
  {
  }

  /** Left intent alone: `x` shrinks by exactly `speed` while the left edge is inside, else holds. */
  lemma MoveLeftOnly(s: ShipState, bounds: Rect, speed: int)
    requires s.movingLeft && !s.movingRight
    ensures Moved(s, bounds, speed).x == if s.rect.Left() > bounds.Left() then s.x - speed else s.x
  {
  }

  /** Neither intent: the ship holds still. */
  lemma NoIntentHolds(s: ShipState, bounds: Rect, speed: int)
    requires !s.movingLeft && !s.movingRight
    ensures Moved(s, bounds, speed).x == s.x
  {
  }

  /** Both intents with the ship strictly inside both edges: the two steps cancel. */
  lemma BothIntentsCancel(s: ShipState, bounds: Rect, speed: int)
    requires s.movingLeft && s.movingRight
    requires bounds.Left() < s.rect.Left() && s.rect.Right() < bounds.Right()
    ensures Moved(s, bounds, speed).x == s.x
  {
  }

  /**
   * How far past the screen the ship can get: its left edge stays above
   * `bounds.left - speed` and its right edge below `bounds.right + speed`.
   */
  ghost predicate InBand(rect: Rect, bounds: Rect, speed: int)
  {
    bounds.Left() - speed < rect.Left() && rect.Right() < bounds.Right() + speed
  }

  /** The overshoot band is kept by every motion step, whatever the intents. */
  lemma MovedKeepsBand(s: ShipState, bounds: Rect, speed: int)
    requires speed >= 0 && s.rect.x == s.x
    requires InBand(s.rect, bounds, speed)
    ensures InBand(Moved(s, bounds, speed).rect, bounds, speed)
  {
  }

  /** A ship placed on the screen is inside its band. */
  lemma OnScreenIsInBand(rect: Rect, bounds: Rect, speed: int)
    requires speed > 0
    requires bounds.Left() <= rect.Left() && rect.Right() <= bounds.Right()
    ensures InBand(rect, bounds, speed)
  {
  }

  /**
   * Where the ship can be under the default settings: at y = 740, with x a
   * multiple of 5 between 0 and 1160, so that the ship lies within [0, 1200].
   */
  ghost predicate OnDefaultTrack(s: ShipState)
  {
    && s.rect == Rect(s.x, 740, 40, 60)
    && s.x % 5 == 0
    && 0 <= s.x <= 1160
  }

  /** The default track is where the ship starts, and it lies on the screen. */
  lemma DefaultTrackOnScreen(s: ShipState)
    requires OnDefaultTrack(s)
    ensures 0 <= s.rect.Left() && s.rect.Right() <= ScreenW
    ensures OnDefaultTrack(Launch(Default))
  {
    DefaultLaunch();
  }

  /**
   * Under the default settings a step never leaves the track: a step to the
   * right is taken only from x <= 1155 and lands at most at 1160 (right edge
   * 1200); a step to the left only from x >= 5 and lands at least at 0.
   */
  lemma MovedKeepsDefaultTrack(s: ShipState)
    requires OnDefaultTrack(s)
    ensures OnDefaultTrack(Moved(s, ScreenRect(Default), ShipSpeed))
  {
  }

  /** The ship object; `boundaries` and `speed` are fixed from the settings at construction. */
  class Ship {
    const boundaries: Rect
    const speed: int
    const arsenal: Arsenal
    var rect: Rect
    var x: int
    var movingRight: bool
    var movingLeft: bool

    /** The fields the motion step reads and writes, as a value. */
    ghost function State(): ShipState
      reads this
    {
      ShipState(rect, x, movingRight, movingLeft)
    }

    /** Placed at the bottom centre of the screen, not moving, holding `arsenal`. */
    constructor (settings: Settings, arsenal: Arsenal)
      ensures boundaries == ScreenRect(settings) && speed == settings.shipSpeed
      ensures this.arsenal == arsenal
      ensures State() == Launch(settings)
    {
      boundaries := ScreenRect(settings);
      speed := settings.shipSpeed;
      var placed := AtMidBottom(ScreenRect(settings), settings.shipW, settings.shipH);
      rect := placed;
      movingRight := false;
      movingLeft := false;
      x := placed.x;
      this.arsenal := arsenal;
    }

    /** `update`: the motion step, then the arsenal's frame, in that order. */
    method Update(step: Bullet -> Bullet)
      requires arsenal.Valid()
      modifies this, arsenal
      ensures arsenal.Valid()
      ensures State() == Moved(old(State()), boundaries, speed)
      ensures arsenal.bullets == OnScreen(Advance(step, old(arsenal.bullets)))
    {
      UpdateShipMovement();
      arsenal.UpdateArsenal(step);
    }

    /** `_update_ship_movement`: apply each intent whose edge test passes, then sync the rect. */
    method UpdateShipMovement()
      modifies this
      ensures State() == Moved(old(State()), boundaries, speed)
    {
      var tempSpeed := speed;
      if movingRight && rect.Right() < boundaries.Right() {
        x := x + tempSpeed;
      }
      if movingLeft && rect.Left() > boundaries.Left() {
        x := x - tempSpeed;
      }
      rect := rect.(x := x);
    }

    /** `fire`: exactly the arsenal's fire attempt, with its result. */
    method Fire(spawn: Bullet) returns (fired: bool)
      requires arsenal.Valid()
      modifies arsenal
      ensures arsenal.Valid()
      ensures Shot(fired, arsenal.bullets) == Admit(old(arsenal.bullets), arsenal.capacity, spawn)
    {
      fired := arsenal.FireBullet(spawn);
    }
  }
}
