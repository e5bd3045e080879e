/**
 * The ship's arsenal: a pool of live bullets bounded by `bullet_amount`.
 * A fire attempt is admitted only while the pool has room; each frame every
 * bullet is advanced once and those that have left the top of the screen are
 * swept out.
 *
 * How a bullet is created and how it moves belong to the bullet's own module,
 * which is not part of this model: a bullet is seen only through the bottom
 * edge of its rect, the bullet a fire attempt creates is a parameter, and so
 * is the per-frame bullet step.
 */
module Arsenals {

  /** A bullet, seen through the bottom edge of its rect (screen y grows downwards). */
  datatype Bullet = Bullet(bottom: int)

  /** What one fire attempt did: whether a bullet was admitted, and the pool afterwards. */
  datatype Shot = Shot(fired: bool, bullets: seq<Bullet>)

  /** One fire attempt on `bullets`, where `spawn` is the bullet it would create. */
  function Admit(bullets: seq<Bullet>, capacity: nat, spawn: Bullet): Shot
  {
    if |bullets| < capacity then Shot(true, bullets + [spawn]) else Shot(false, bullets)
  }

  /** Below capacity, a fire attempt succeeds and appends exactly the new bullet. */
  lemma AdmitBelowCapacity(bullets: seq<Bullet>, capacity: nat, spawn: Bullet)
    requires |bullets| < capacity
    ensures Admit(bullets, capacity, spawn).fired
    ensures Admit(bullets, capacity, spawn).bullets == bullets + [spawn]
    ensures |Admit(bullets, capacity, spawn).bullets| == |bullets| + 1
  {
  }

  /** At or above capacity, a fire attempt fails and leaves the pool as it was. */
  lemma AdmitWhenFull(bullets: seq<Bullet>, capacity: nat, spawn: Bullet)
    requires |bullets| >= capacity
    ensures !Admit(bullets, capacity, spawn).fired
    ensures Admit(bullets, capacity, spawn).bullets == bullets
  {
  }

  /** A fire attempt never takes the pool above its capacity. */
  lemma AdmitKeepsCapacity(bullets: seq<Bullet>, capacity: nat, spawn: Bullet)
    requires |bullets| <= capacity
    ensures |Admit(bullets, capacity, spawn).bullets| <= capacity
  {
  }

  /** Every bullet advanced by one application of `step`, in the same order. */
  function Advance(step: Bullet -> Bullet, bullets: seq<Bullet>): (moved: seq<Bullet>)
    ensures |moved| == |bullets|
    ensures forall i :: 0 <= i < |bullets| ==> moved[i] == step(bullets[i])
  {
    if bullets == [] then [] else [step(bullets[0])] + Advance(step, bullets[1..])
  }

  /** The bullets the off-screen sweep keeps, in their original order. */
  function OnScreen(bullets: seq<Bullet>): (kept: seq<Bullet>)
    ensures |kept| <= |bullets|
    ensures forall b :: b in kept ==> b in bullets && b.bottom > 0
    ensures forall b :: b in bullets && b.bottom > 0 ==> b in kept
  {
    if bullets == [] then []
    else
      var init, last := bullets[..|bullets| - 1], bullets[|bullets| - 1];
      assert bullets == init + [last];
      if last.bottom <= 0 then OnScreen(init) else OnScreen(init) + [last]
  }

  /**
   * The sweep changes nothing but removing: a bullet below the top edge keeps
   * every one of its occurrences, a bullet at or above it keeps none.
   */
  lemma {:induction false} OnScreenMultiplicity(bullets: seq<Bullet>, b: Bullet)
    ensures multiset(OnScreen(bullets))[b] == if b.bottom > 0 then multiset(bullets)[b] else 0
  {
    if bullets != [] {
      var init, last := bullets[..|bullets| - 1], bullets[|bullets| - 1];
      assert bullets == init + [last];
      OnScreenMultiplicity(init, b);
    }
  }

  /** A pool with every bullet on screen passes the sweep untouched. */
  lemma {:induction false} OnScreenKeepsVisible(bullets: seq<Bullet>)
    requires forall i :: 0 <= i < |bullets| ==> bullets[i].bottom > 0
    ensures OnScreen(bullets) == bullets
  {
    if bullets != [] {
      var init := bullets[..|bullets| - 1];
      assert bullets == init + [bullets[|bullets| - 1]];
      OnScreenKeepsVisible(init);
    }
  }

  /** Sweeping twice is sweeping once. */
  lemma OnScreenIdempotent(bullets: seq<Bullet>)
    ensures OnScreen(OnScreen(bullets)) == OnScreen(bullets)
  {
    var kept := OnScreen(bullets);
    forall i | 0 <= i < |kept| ensures kept[i].bottom > 0 {
      assert kept[i] in kept;
    }
    OnScreenKeepsVisible(kept);
  }

  /** Sweeping a pool that grew at its end sweeps the old part and tests the new bullet. */
  lemma OnScreenSnoc(bullets: seq<Bullet>, b: Bullet)
    ensures OnScreen(bullets + [b]) == OnScreen(bullets) + (if b.bottom > 0 then [b] else [])
  {
    assert (bullets + [b])[..|bullets|] == bullets;
  }

  /** How the sweep's result grows when one more snapshot bullet has been examined. */
  lemma SweepStep(snapshot: seq<Bullet>, i: nat)
    requires i < |snapshot|
    ensures snapshot[i].bottom <= 0 ==> OnScreen(snapshot[..i + 1]) == OnScreen(snapshot[..i])
    ensures snapshot[i].bottom > 0 ==> OnScreen(snapshot[..i + 1]) == OnScreen(snapshot[..i]) + [snapshot[i]]
  {
    assert snapshot[..i + 1] == snapshot[..i] + [snapshot[i]];
    OnScreenSnoc(snapshot[..i], snapshot[i]);
  }

  /**
   * Removing the element just after the prefix `done` from `done + rest`
   * leaves `done` followed by the rest of `rest`; keeping it instead moves it
   * into the prefix.
   */
  lemma RemoveAfterPrefix(done: seq<Bullet>, rest: seq<Bullet>)
    requires rest != []
    ensures (done + rest)[..|done|] + (done + rest)[|done| + 1..] == done + rest[1..]
    ensures done + rest == (done + [rest[0]]) + rest[1..]
  {
    assert (done + rest)[..|done|] == done;
    assert (done + rest)[|done| + 1..] == rest[1..];
  }

  /** One frame of the arsenal (advance, then sweep) never adds a bullet. */
  lemma UpdateNeverGrows(step: Bullet -> Bullet, bullets: seq<Bullet>)
    ensures |OnScreen(Advance(step, bullets))| <= |bullets|
  {
  }

  /**
   * The arsenal object. `bullets` is the sprite group, in insertion order;
   * `capacity` is `bullet_amount`, read from the settings at construction.
   */
  class Arsenal {
    const capacity: nat
    var bullets: seq<Bullet>

    /** The pool never holds more than its capacity. */
    ghost predicate Valid()
      reads this
    {
      |bullets| <= capacity
    }

    constructor (capacity: nat)
      ensures Valid()
      ensures this.capacity == capacity && bullets == []
    {
      this.capacity := capacity;
      bullets := [];
    }

    /** `fire_bullet`: admit `spawn` if the pool has room, and report whether it did. */
    method FireBullet(spawn: Bullet) returns (fired: bool)
      requires Valid()
      modifies this
      ensures Valid()
      ensures fired == (|old(bullets)| < capacity)
      ensures Shot(fired, bullets) == Admit(old(bullets), capacity, spawn)
    {
      if |bullets| < capacity {
        bullets := bullets + [spawn];
        return true;
      }
      return false;
    }

    /** `update_arsenal`: move every bullet one step, then sweep the ones off screen. */
    method UpdateArsenal(step: Bullet -> Bullet)
      requires Valid()
      modifies this
      ensures Valid()
      ensures bullets == OnScreen(Advance(step, old(bullets)))
    {
      bullets := Advance(step, bullets);
      RemoveBulletsOffscreen();
    }

    /**
     * `_remove_bullets_offscreen`: walk a snapshot of the pool and remove from
     * the live pool each bullet whose bottom edge is at or above the top of the
     * screen. `kept` counts the snapshot bullets still in the pool, which is
     * where the next snapshot bullet now sits.
     */
    method RemoveBulletsOffscreen()
      modifies this
      ensures bullets == OnScreen(old(bullets))
      ensures old(Valid()) ==> Valid()
    {
      var snapshot := bullets;
      var kept := 0;
      for i := 0 to |snapshot|
        invariant kept == |OnScreen(snapshot[..i])|
        invariant bullets == OnScreen(snapshot[..i]) + snapshot[i..]
      {
        SweepStep(snapshot, i);
        RemoveAfterPrefix(OnScreen(snapshot[..i]), snapshot[i..]);
        assert snapshot[i..][1..] == snapshot[i + 1..];
        if snapshot[i].bottom <= 0 {
          bullets := bullets[..kept] + bullets[kept + 1..];
        } else {
          kept := kept + 1;
        }
      }
      assert snapshot[..|snapshot|] == snapshot;
    }
  }

  /**
   * Fire `attempts` times in a row at a fresh pool of the given capacity: the
   * first `capacity` attempts succeed, every later one fails, and the pool
   * ends with as many bullets as succeeded.
   */
  method FireRepeatedly(capacity: nat, attempts: nat, spawn: Bullet) returns (results: seq<bool>, count: nat)
    ensures |results| == attempts
    ensures forall j :: 0 <= j < attempts ==> results[j] == (j < capacity)
    ensures count == if attempts < capacity then attempts else capacity
  {
    var arsenal := new Arsenal(capacity);
    results := [];
    for i := 0 to attempts
      invariant arsenal.Valid() && arsenal.capacity == capacity
      invariant |arsenal.bullets| == if i < capacity then i else capacity
      invariant |results| == i
      invariant forall j :: 0 <= j < i ==> results[j] == (j < capacity)
    {
      var fired := arsenal.FireBullet(spawn);
      results := results + [fired];
    }
    count := |arsenal.bullets|;
  }

  /** With the default `bullet_amount` of five, six fires give five hits then a miss. */
  method FireSixAtDefaultCapacity(spawn: Bullet) returns (results: seq<bool>, count: nat)
    ensures results == [true, true, true, true, true, false]
    ensures count == 5
  {
    results, count := FireRepeatedly(5, 6, spawn);
    assert results[5] == false;
  }
}
