# Alien Invasion core, modelled in Dafny

This project models the frame-by-frame game state of a small arcade game.
The player's ship slides left and right along the bottom of the screen and
fires bullets upwards from a pool of bounded size. The main loop turns
keyboard events into movement intents and fire attempts. It then advances the
ship and its bullets once per frame.

The model has four modules:

- `Config` (`config.dfy`): the settings the core reads: window size, ship size,
  `ship_speed` and `bullet_amount`. It also holds the default values
  1200 × 800, 40 × 60, 5 and 5.
- `Arsenals` (`arsenal.dfy`): the bullet pool. `Admit` is one fire attempt.
  `Advance` moves every bullet by the per-frame bullet step. `OnScreen` is the
  off-screen sweep. The `Arsenal` class holds the live pool as a sequence in
  insertion order, and its methods are proved against these functions. The
  sweep walks a snapshot of the pool and removes the bullets that left the
  screen from the live pool, one at a time.
- `Ships` (`ship.dfy`): `Rect`, the placement at the
  bottom centre of the screen, and the motion step `MovedX`/`Moved`. The
  `Ship` class has the fields `rect`, `x`, `movingRight`, `movingLeft` and its
  arsenal.
- `Invasion` (`alien_invasion.dfy`): the game object. Events are datatype
  values. `Pressed`, `Released` and `Dispatched` give the effect of key
  presses, key releases and a batch of events. `FrameStep` and `Run` give the
  effect of a frame and of the main loop. The `AlienInvasion` class's methods
  are proved against these functions. The laser sound cue is a ghost counter,
  `laserCues`.

A bullet is a record carrying the bottom edge of its rect. The bullet module
(`bullet.py`) is not part of this model. So the per-frame bullet step is a
parameter `step: Bullet -> Bullet`, and the bullet that a fire attempt creates
is a parameter too. At game level it comes with each frame's input. The ship
does not move while events are dispatched, so every fire in one frame starts
from the same ship position.

The ship's `x` is a float in the source. It starts at an integer and only
changes by the integer `ship_speed`, so the model keeps it as an `int`.

The Q branch of `_check_keydown_events` is meant to quit, but it calls
`pygame.quit()` and then `sys.quit()`, which does not exist, so the process
dies with an exception (alien_invasion.py:120-122). `running` is never cleared
on that path. The model treats Q as "the process stopped" and leaves `running`
unchanged.

## Model

| member | source | states |
|---|---|---|
| `Arsenals.AdmitBelowCapacity` | arsenal.py:64-67 | below `bullet_amount`, a fire attempt succeeds and appends exactly the new bullet (count + 1) |
| `Arsenals.AdmitWhenFull` | arsenal.py:64-68 | at or above `bullet_amount`, a fire attempt fails and the pool is unchanged |
| `Arsenals.AdmitKeepsCapacity` | arsenal.py:57-68 | a fire attempt never takes the pool above `bullet_amount` |
| `Arsenals.Advance` | arsenal.py:39 | the group update applies the bullet step to every bullet exactly once, keeping order and count |
| `Arsenals.OnScreen` | arsenal.py:42-48 | the sweep never adds bullets or raises the count; every kept bullet has `bottom > 0`, and every bullet with `bottom > 0` is kept |
| `Arsenals.OnScreenMultiplicity` | arsenal.py:46-48 | the sweep makes no other change: a bullet with `bottom > 0` keeps all its occurrences, one with `bottom <= 0` keeps none |
| `Arsenals.OnScreenKeepsVisible` | arsenal.py:46-48 | a pool whose bullets are all on screen passes the sweep unchanged |
| `Arsenals.OnScreenIdempotent` | arsenal.py:42-48 | sweeping twice is the same as sweeping once |
| `Arsenals.UpdateNeverGrows` | arsenal.py:35-40 | one arsenal frame (advance, then sweep) never raises the count |
| `Arsenals.Arsenal.constructor` | arsenal.py:24-33 | a new arsenal is empty, with capacity `bullet_amount` |
| `Arsenals.Arsenal.FireBullet` | arsenal.py:57-68 | returns true exactly when the pool was below capacity; the new pool is `Admit`'s; the pool never exceeds `bullet_amount` |
| `Arsenals.Arsenal.UpdateArsenal` | arsenal.py:35-40 | the new pool is the sweep of the advanced pool; the capacity invariant is preserved |
| `Arsenals.Arsenal.RemoveBulletsOffscreen` | arsenal.py:42-48 | removing over a snapshot leaves exactly `OnScreen` of the old pool, in order |
| `Arsenals.FireRepeatedly` | arsenal.py:64-68 | n fires at a fresh pool: the first `capacity` succeed, all later fail, and the final count is min(n, capacity) |
| `Arsenals.FireSixAtDefaultCapacity` | arsenal.py:64-68 | with `bullet_amount = 5`, six fires return true ×5 then false, leaving 5 bullets |
| `Ships.AtMidBottomInside` | ship.py:48-49 | a ship no wider than the screen is placed on it, with its bottom on the screen's bottom |
| `Ships.DefaultLaunch` | ship.py:48-52 | with the default settings the ship starts at x = 580, y = 740, with both intents off |
| `Ships.Moved` | ship.py:63-73 | after every motion step `rect.x == x`; y, size and intents never change |
| `Ships.MoveRightOnly` | ship.py:67-73 | right intent alone: x grows by exactly `ship_speed` if `rect.right < boundaries.right`, else x holds |
| `Ships.MoveLeftOnly` | ship.py:67-73 | left intent alone: x shrinks by exactly `ship_speed` if `rect.left > boundaries.left`, else x holds |
| `Ships.NoIntentHolds` | ship.py:67-73 | with neither intent, x holds |
| `Ships.BothIntentsCancel` | ship.py:68-73 | with both intents and the ship strictly inside both edges, x is unchanged |
| `Ships.MovedKeepsBand` | ship.py:68-71 | overshoot bound: left edge stays above `left - ship_speed`, right edge below `right + ship_speed` |
| `Ships.OnScreenIsInBand` | ship.py:48-49 | a ship placed on the screen starts inside the overshoot band |
| `Ships.DefaultTrackOnScreen` | ship.py:48-52 | the default start is on the default track (x a multiple of 5 in [0, 1160]), and that track lies within [0, 1200] |
| `Ships.MovedKeepsDefaultTrack` | ship.py:67-73 | under the default settings a motion step never leaves the default track |
| `Ships.Ship.constructor` | ship.py:32-53 | the ship starts at the screen's bottom centre, `x` equal to `rect.x`, both intents off |
| `Ships.Ship.Update` | ship.py:55-61 | the motion step, then the arsenal frame, in that order |
| `Ships.Ship.UpdateShipMovement` | ship.py:63-73 | the new ship state is `Moved` of the old one |
| `Ships.Ship.Fire` | ship.py:82-89 | returns exactly what the arsenal's fire attempt returns, with the same effect on the pool |
| `Invasion.PressArrow` | alien_invasion.py:112-115 | pressing right sets `moving_right` and pressing left sets `moving_left`; nothing else changes |
| `Invasion.ReleaseKey` | alien_invasion.py:99-102 | releasing right clears only `moving_right`, left only `moving_left`; any other key changes nothing |
| `Invasion.PressSpace` | alien_invasion.py:116-119 | space makes exactly one fire attempt; the cue plays if and only if it succeeded |
| `Invasion.HaltIgnoresLater` | alien_invasion.py:81-85 | once an event has stopped the process, the later events have no effect |
| `Invasion.QuitEndsDispatch` | alien_invasion.py:81-85 | a quit event clears `running` on the state reached so far and ends the dispatch |
| `Invasion.DispatchedFires` | alien_invasion.py:116-119 | dispatch only appends bullets, never past `bullet_amount`, with exactly one cue per bullet appended |
| `Invasion.DispatchedKeepsPosition` | alien_invasion.py:81-89 | dispatching events never moves the ship; only its intents change |
| `Invasion.RunKeepsCapacity` | alien_invasion.py:59-64 | throughout a run, the bullet count never exceeds `bullet_amount` |
| `Invasion.RunKeepsShipInBand` | alien_invasion.py:59-64 | throughout a run, the ship stays in the overshoot band and `rect.x == x` |
| `Invasion.RunKeepsDefaultTrack` | alien_invasion.py:59-64 | under the default settings, a run never takes the ship off the default track |
| `Invasion.DefaultShipStaysOnScreen` | alien_invasion.py:59-64 | under the default settings, for any input, the ship stays exactly within [0, 1200] at y = 740 |
| `Invasion.RunStops` | alien_invasion.py:59-64 | no frame runs once `running` is false, and a frame that stops the process is the last one |
| `Invasion.AlienInvasion.constructor` | alien_invasion.py:28-51 | the game starts running, ship at its launch place, empty arsenal, no cue played |
| `Invasion.AlienInvasion.RunGame` | alien_invasion.py:53-64 | the final state is `Run` of the initial one: per frame, events, then ship update, then alien update, only while `running` |
| `Invasion.AlienInvasion.CheckEvents` | alien_invasion.py:76-89 | the new state and the stop flag are `Dispatched` of the old state and the events |
| `Invasion.AlienInvasion.CheckKeyupEvents` | alien_invasion.py:91-102 | the new state is `Released` of the old state and the key |
| `Invasion.AlienInvasion.CheckKeydownEvents` | alien_invasion.py:104-122 | Q stops the process and changes nothing; any other key gives `Pressed` of the old state |

## Left out

- Drawing (`draw` in the arsenal and the ship, `_update_screen`, `blit`, `display.flip`): rendering through the graphics library.
- Image loading and scaling, the window, `pygame.init`/`pygame.quit`, the frame clock (`Clock.tick`): library calls with no effect on the modelled state.
- Sound: loading, volume, playback and fade-out of the laser cue. A cue is counted in the ghost counter `laserCues`.
- Process termination (`sys.exit`, and the crash from the non-existent `sys.quit` on Q): modelled only as "the process stopped", which ends event dispatch and the main loop.
- The bullet module (`bullet.py`): spawn position and per-frame motion are parameters, so the model does not state that bullets only move upwards. Each frame carries one `spawn` bullet, so every successful fire within a frame creates that same bullet value. This assumes a new bullet depends only on the ship's position, which does not change while a frame's events are dispatched; no contract depends on the spawn's value.
- The alien: its update is a no-op and the rest of it is loading and drawing, so frames do not mention it.
- Settings as a component: only its numbers are kept (`Config`); file paths, frame rate, bullet size and fleet speed are left out.
- Float semantics of the ship's `x`: it only ever holds integers, so float-to-int truncation in `rect.x = x` is not modelled.
- The input source: `pygame.event.get()` is replaced by a finite list of frames, each with its events. So `RunGame` ends when the list runs out, not only on a quit.
- `Ships.OnScreenIsInBand`: requires `ship_speed > 0`. With a speed of 0 the band is strict, so a ship that starts touching a screen edge is not inside it; the band lemmas `Ships.MovedKeepsBand` and `Invasion.RunKeepsShipInBand` only need `ship_speed >= 0`.
- Sprite-group identity: the pool is a sequence of bullet values. Removing an off-screen bullet is removal at its position, not by object identity.
