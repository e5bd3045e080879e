/**
 * The game object: input dispatch and the per-frame loop.
 *
 * Each frame first dispatches the frame's input events, then runs the ship's
 * update (motion, then the arsenal), then the alien's update, which does
 * nothing. Drawing, the frame-rate clock and sound playback are not part of
 * this model; the laser cue is kept as a count of the times it was played.
 * The input of a frame is its list of events, plus the bullet that a
 * successful fire attempt in that frame creates: the ship does not move while
 * events are dispatched, so every fire in one frame spawns from the same place.
 */
module Invasion {
  import opened Config
  import opened Arsenals
  import opened Ships

  /** The keys the handlers tell apart; every other key is `OtherKey`. */
  datatype Key = RightKey | LeftKey | SpaceKey | QKey | OtherKey(code: int)

  /** The input events the game reads; every other event type is `OtherEvent`. */
  datatype Event = QuitEvent | KeyDown(key: Key) | KeyUp(key: Key) | OtherEvent

  /** One frame's input. */
  datatype Frame = Frame(events: seq<Event>, spawn: Bullet)

  /** Everything the core updates: the loop flag, the ship, its bullets, and the laser cues played. */
  datatype GameState = GameState(running: bool, ship: ShipState, bullets: seq<Bullet>, laserCues: nat)

  /** The state after a batch of events, and whether the process stopped while dispatching it. */
  datatype Dispatch = Dispatch(state: GameState, halted: bool)

  /** The game as constructed: running, ship at its launch place, no bullets, no cue played. */
  function Initial(settings: Settings): GameState
  {
    GameState(true, Launch(settings), [], 0)
  }

  /**
   * The effect of a key press other than Q (which stops the process, see
   * `Dispatched`): an arrow sets its intent, space makes one fire attempt and
   * plays the cue when it succeeds, any other key does nothing.
   */
  function Pressed(s: GameState, key: Key, capacity: nat, spawn: Bullet): GameState
  {
    match key
    case RightKey => s.(ship := s.ship.(movingRight := true))
    case LeftKey => s.(ship := s.ship.(movingLeft := true))
    case SpaceKey =>
      var shot := Admit(s.bullets, capacity, spawn);
      s.(bullets := shot.bullets, laserCues := if shot.fired then s.laserCues + 1 else s.laserCues)
    case QKey => s
    case OtherKey(_) => s
  }

  /** The effect of a key release: an arrow clears its own intent, any other key does nothing. */
  function Released(s: GameState, key: Key): GameState
  {
    match key
    case RightKey => s.(ship := s.ship.(movingRight := false))
    case LeftKey => s.(ship := s.ship.(movingLeft := false))
    case _ => s
  }

  /**
   * A batch of events dispatched in order. A quit event clears `running` and
   * stops the process; the Q key stops it too (through a call that does not
   * exist, so the process dies), leaving `running` as it was.
   */
  function Dispatched(s: GameState, events: seq<Event>, capacity: nat, spawn: Bullet): Dispatch
    decreases |events|
  {
    if events == [] then Dispatch(s, false)
    else
      match events[0]
      case QuitEvent => Dispatch(s.(running := false), true)
      case KeyDown(key) =>
        if key == QKey then Dispatch(s, true)
        else Dispatched(Pressed(s, key, capacity, spawn), events[1..], capacity, spawn)
      case KeyUp(key) => Dispatched(Released(s, key), events[1..], capacity, spawn)
      case OtherEvent => Dispatched(s, events[1..], capacity, spawn)
  }

  /** The ship's update as seen from the game: motion step, then advance and sweep the bullets. */
  function ShipUpdated(s: GameState, settings: Settings, step: Bullet -> Bullet): GameState
  {
    s.(ship := Moved(s.ship, ScreenRect(settings), settings.shipSpeed),
       bullets := OnScreen(Advance(step, s.bullets)))
  }

  /** One frame: dispatch the events; unless that stopped the process, update the ship (the alien's update does nothing). */
  function FrameStep(s: GameState, frame: Frame, settings: Settings, step: Bullet -> Bullet): Dispatch
  {
    var d := Dispatched(s, frame.events, settings.bulletAmount, frame.spawn);
    if d.halted then d else Dispatch(ShipUpdated(d.state, settings, step), false)
  }

  /** The main loop over a run of frames: a frame is played only while `running` holds and the process has not stopped. */
  function Run(s: GameState, frames: seq<Frame>, settings: Settings, step: Bullet -> Bullet): GameState
    decreases |frames|
  {
    if !s.running || frames == [] then s
    else
      var d := FrameStep(s, frames[0], settings, step);
      if d.halted then d.state else Run(d.state, frames[1..], settings, step)
  }

  // ---------------------------------------------------------------------------
  // Single events

  /** Pressing right sets `moving_right` and touches nothing else; likewise for left. */
  lemma PressArrow(s: GameState, capacity: nat, spawn: Bullet)
    ensures Pressed(s, RightKey, capacity, spawn) == s.(ship := s.ship.(movingRight := true))
    ensures Pressed(s, LeftKey, capacity, spawn) == s.(ship := s.ship.(movingLeft := true))
  {
  }

  /** Releasing right clears only `moving_right`, left only `moving_left`; other keys change nothing. */
  lemma ReleaseKey(s: GameState, key: Key)
    ensures key == RightKey ==> Released(s, key) == s.(ship := s.ship.(movingRight := false))
    ensures key == LeftKey ==> Released(s, key) == s.(ship := s.ship.(movingLeft := false))
    ensures key != RightKey && key != LeftKey ==> Released(s, key) == s
  {
  }

  /**
   * Space makes exactly one fire attempt: the cue is played if and only if a
   * bullet was admitted, and the ship and the loop flag are untouched.
   */
  lemma PressSpace(s: GameState, capacity: nat, spawn: Bullet)
    ensures var t := Pressed(s, SpaceKey, capacity, spawn);
      && t.running == s.running && t.ship == s.ship
      && t.bullets == Admit(s.bullets, capacity, spawn).bullets
      && (t.laserCues == s.laserCues + 1 <==> |s.bullets| < capacity)
      && (t.laserCues == s.laserCues <==> |s.bullets| >= capacity)
  {
  }

  // ---------------------------------------------------------------------------
  // Batches of events

  /** Once a prefix of the events has stopped the process, later events are never looked at. */
  lemma {:induction false} HaltIgnoresLater(s: GameState, events: seq<Event>, later: seq<Event>, capacity: nat, spawn: Bullet)
    requires Dispatched(s, events, capacity, spawn).halted
    ensures Dispatched(s, events + later, capacity, spawn) == Dispatched(s, events, capacity, spawn)
    decreases |events|
  {
    assert events != [];
    assert (events + later)[0] == events[0];
    assert (events + later)[1..] == events[1..] + later;
    match events[0]
    case QuitEvent =>
    case KeyDown(key) =>
      if key != QKey {
        HaltIgnoresLater(Pressed(s, key, capacity, spawn), events[1..], later, capacity, spawn);
      }
    case KeyUp(key) => HaltIgnoresLater(Released(s, key), events[1..], later, capacity, spawn);
    case OtherEvent => HaltIgnoresLater(s, events[1..], later, capacity, spawn);
  }

  /**
   * A quit event after events that did not stop the process clears `running`
   * on the state those events produced and ends the dispatch there.
   */
  lemma {:induction false} QuitEndsDispatch(s: GameState, before: seq<Event>, after: seq<Event>, capacity: nat, spawn: Bullet)
    requires !Dispatched(s, before, capacity, spawn).halted
    ensures Dispatched(s, before + [QuitEvent] + after, capacity, spawn)
         == Dispatch(Dispatched(s, before, capacity, spawn).state.(running := false), true)
    decreases |before|
  {
    if before == [] {
      assert before + [QuitEvent] + after == [QuitEvent] + after;
    } else {
      assert (before + [QuitEvent] + after)[0] == before[0];
      assert (before + [QuitEvent] + after)[1..] == before[1..] + [QuitEvent] + after;
      match before[0]
      case QuitEvent =>
      case KeyDown(key) =>
        if key != QKey {
          QuitEndsDispatch(Pressed(s, key, capacity, spawn), before[1..], after, capacity, spawn);
        }
      case KeyUp(key) => QuitEndsDispatch(Released(s, key), before[1..], after, capacity, spawn);
      case OtherEvent => QuitEndsDispatch(s, before[1..], after, capacity, spawn);
    }
  }

  /**
   * Dispatch only appends bullets, never beyond the capacity, and plays the
   * cue exactly once per bullet it appends.
   */
  lemma {:induction false} DispatchedFires(s: GameState, events: seq<Event>, capacity: nat, spawn: Bullet)
    requires |s.bullets| <= capacity
    ensures var t := Dispatched(s, events, capacity, spawn).state;
      && |t.bullets| <= capacity
      && s.bullets <= t.bullets
      && t.laserCues - s.laserCues == |t.bullets| - |s.bullets|
    decreases |events|
  {
    if events != [] {
      match events[0]
      case QuitEvent =>
      case KeyDown(key) =>
        if key != QKey {
          DispatchedFires(Pressed(s, key, capacity, spawn), events[1..], capacity, spawn);
        }
      case KeyUp(key) => DispatchedFires(Released(s, key), events[1..], capacity, spawn);
      case OtherEvent => DispatchedFires(s, events[1..], capacity, spawn);
    }
  }

  /** Dispatch leaves the ship's position and rect alone: only the intents can change. */
  lemma {:induction false} DispatchedKeepsPosition(s: GameState, events: seq<Event>, capacity: nat, spawn: Bullet)
    ensures var t := Dispatched(s, events, capacity, spawn).state;
      t.ship.x == s.ship.x && t.ship.rect == s.ship.rect
    decreases |events|
  {
    if events != [] {
      match events[0]
      case QuitEvent =>
      case KeyDown(key) =>
        if key != QKey {
          DispatchedKeepsPosition(Pressed(s, key, capacity, spawn), events[1..], capacity, spawn);
        }
      case KeyUp(key) => DispatchedKeepsPosition(Released(s, key), events[1..], capacity, spawn);
      case OtherEvent => DispatchedKeepsPosition(s, events[1..], capacity, spawn);
    }
  }

  // ---------------------------------------------------------------------------
  // Runs of frames

  /** A run never holds more bullets than `bullet_amount`. */
  lemma {:induction false} RunKeepsCapacity(s: GameState, frames: seq<Frame>, settings: Settings, step: Bullet -> Bullet)
    requires |s.bullets| <= settings.bulletAmount
    ensures |Run(s, frames, settings, step).bullets| <= settings.bulletAmount
    decreases |frames|
  {
    if s.running && frames != [] {
      DispatchedFires(s, frames[0].events, settings.bulletAmount, frames[0].spawn);
      var d := FrameStep(s, frames[0], settings, step);
      if !d.halted {
        RunKeepsCapacity(d.state, frames[1..], settings, step);
      }
    }
  }

  /** With a non-negative speed, a ship that starts within its overshoot band stays in it for the whole run. */
  lemma {:induction false} RunKeepsShipInBand(s: GameState, frames: seq<Frame>, settings: Settings, step: Bullet -> Bullet)
    requires settings.shipSpeed >= 0
    requires s.ship.rect.x == s.ship.x
    requires InBand(s.ship.rect, ScreenRect(settings), settings.shipSpeed)
    ensures var t := Run(s, frames, settings, step).ship;
      t.rect.x == t.x && InBand(t.rect, ScreenRect(settings), settings.shipSpeed)
    decreases |frames|
  {
    if s.running && frames != [] {
      var e := Dispatched(s, frames[0].events, settings.bulletAmount, frames[0].spawn);
      DispatchedKeepsPosition(s, frames[0].events, settings.bulletAmount, frames[0].spawn);
      if !e.halted {
        MovedKeepsBand(e.state.ship, ScreenRect(settings), settings.shipSpeed);
        RunKeepsShipInBand(ShipUpdated(e.state, settings, step), frames[1..], settings, step);
      }
    }
  }

  /** Under the default settings, the ship never leaves the default track during a run. */
  lemma {:induction false} RunKeepsDefaultTrack(s: GameState, frames: seq<Frame>, step: Bullet -> Bullet)
    requires OnDefaultTrack(s.ship)
    ensures OnDefaultTrack(Run(s, frames, Default, step).ship)
    decreases |frames|
  {
    if s.running && frames != [] {
      var e := Dispatched(s, frames[0].events, Default.bulletAmount, frames[0].spawn);
      DispatchedKeepsPosition(s, frames[0].events, Default.bulletAmount, frames[0].spawn);
      if !e.halted {
        assert OnDefaultTrack(e.state.ship);
        MovedKeepsDefaultTrack(e.state.ship);
        RunKeepsDefaultTrack(ShipUpdated(e.state, Default, step), frames[1..], step);
      }
    }
  }

  /**
   * Under the default settings, whatever the input, the ship stays exactly on
   * the 1200-pixel-wide screen, at the y it was placed at.
   */
  lemma DefaultShipStaysOnScreen(frames: seq<Frame>, step: Bullet -> Bullet)
    ensures var t := Run(Initial(Default), frames, Default, step).ship;
      0 <= t.rect.Left() && t.rect.Right() <= 1200 && t.rect.y == 740
  {
    DefaultTrackOnScreen(Launch(Default));
    RunKeepsDefaultTrack(Initial(Default), frames, step);
  }

  /** Nothing happens once `running` is false, and a frame that stops the process is the last one played. */
  lemma RunStops(s: GameState, frame: Frame, later: seq<Frame>, settings: Settings, step: Bullet -> Bullet)
    ensures !s.running ==> Run(s, [frame] + later, settings, step) == s
    ensures s.running && FrameStep(s, frame, settings, step).halted ==>
      Run(s, [frame] + later, settings, step) == FrameStep(s, frame, settings, step).state
  {
    assert ([frame] + later)[1..] == later;
  }

  /** The game object: the loop flag, the ship (which owns the arsenal), and the laser cues played. */
  class AlienInvasion {
    const settings: Settings
    const ship: Ship
    var running: bool
    ghost var laserCues: nat

    /** The ship and its arsenal were built from this game's settings, and the pool is within capacity. */
    ghost predicate Valid()
      reads this, ship, ship.arsenal
    {
      && ship.arsenal.Valid()
      && ship.arsenal.capacity == settings.bulletAmount
      && ship.boundaries == ScreenRect(settings)
      && ship.speed == settings.shipSpeed
    }

    /** The game's state as a value. */
    ghost function State(): GameState
      reads this, ship, ship.arsenal
    {
      GameState(running, ship.State(), ship.arsenal.bullets, laserCues)
    }

    constructor (settings: Settings)
      ensures Valid()
      ensures this.settings == settings
      ensures State() == Initial(settings)
    {
      this.settings := settings;
      running := true;
      laserCues := 0;
      var arsenal := new Arsenal(settings.bulletAmount);
      ship := new Ship(settings, arsenal);
    }

    /** `run_game`: play frames while `running` holds, each in the fixed order events, ship, alien. */
    method RunGame(frames: seq<Frame>, step: Bullet -> Bullet)
      requires Valid()
      modifies this, ship, ship.arsenal
      ensures Valid()
      ensures State() == Run(old(State()), frames, settings, step)
    {
      var i := 0;
      while running && i < |frames|
        invariant 0 <= i <= |frames|
        invariant Valid()
        invariant Run(State(), frames[i..], settings, step) == Run(old(State()), frames, settings, step)
      {
        assert frames[i..][1..] == frames[i + 1..];
        var halted := CheckEvents(frames[i].events, frames[i].spawn);
        if halted {
          return;
        }
        ship.Update(step);
        // The alien's update does nothing; drawing and the clock are not modelled.
        i := i + 1;
      }
    }

    /** `_check_events`: dispatch the events in order until one of them stops the process. */
    method CheckEvents(events: seq<Event>, spawn: Bullet) returns (halted: bool)
      requires Valid()
      modifies this, ship, ship.arsenal
      ensures Valid()
      ensures Dispatch(State(), halted) == Dispatched(old(State()), events, settings.bulletAmount, spawn)
    {
      halted := false;
      var i := 0;
      while i < |events| && !halted
        invariant 0 <= i <= |events|
        invariant Valid()
        invariant !halted ==>
          Dispatched(State(), events[i..], settings.bulletAmount, spawn)
          == Dispatched(old(State()), events, settings.bulletAmount, spawn)
        invariant halted ==>
          Dispatch(State(), true) == Dispatched(old(State()), events, settings.bulletAmount, spawn)
      {
        assert events[i..][0] == events[i];
        assert events[i..][1..] == events[i + 1..];
        var event := events[i];
        i := i + 1;
        match event
        case QuitEvent =>
          // followed in the source by shutting the library down and exiting
          running := false;
          halted := true;
        case KeyDown(key) =>
          halted := CheckKeydownEvents(key, spawn);
        case KeyUp(key) =>
          CheckKeyupEvents(key);
        case OtherEvent =>
      }
    }

    /** `_check_keyup_events`: releasing an arrow clears its intent. */
    method CheckKeyupEvents(key: Key)
      requires Valid()
      modifies ship
      ensures Valid()
      ensures State() == Released(old(State()), key)
    {
      if key == RightKey {
        ship.movingRight := false;
      } else if key == LeftKey {
        ship.movingLeft := false;
      }
    }

    /**
     * `_check_keydown_events`: an arrow sets its intent, space fires and plays
     * the cue on success, Q stops the process.
     */
    method CheckKeydownEvents(key: Key, spawn: Bullet) returns (halted: bool)
      requires Valid()
      modifies this, ship, ship.arsenal
      ensures Valid()
      ensures halted == (key == QKey)
      ensures State() == if halted then old(State()) else Pressed(old(State()), key, settings.bulletAmount, spawn)
    {
      halted := false;
      if key == RightKey {
        ship.movingRight := true;
      } else if key == LeftKey {
        ship.movingLeft := true;
      } else if key == SpaceKey {
        var fired := ship.Fire(spawn);
        if fired {
          laserCues := laserCues + 1;
        }
      } else if key == QKey {
        halted := true;
      }
    }
  }
}
