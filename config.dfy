/**
 * The numbers the game is configured with. Only the values the core reads are
 * kept: window size, ship size and speed, and the bullet pool's capacity.
 * File paths, the frame rate and the bullet sizes are not part of this model.
 */
module Config {

  /** The game's settings object, reduced to the values the core reads. */
  datatype Settings = Settings(
    screenW: nat,      // window width in pixels
    screenH: nat,      // window height in pixels
    shipW: nat,        // ship width after scaling
    shipH: nat,        // ship height after scaling
    shipSpeed: int,    // pixels per frame while an arrow key is held
    bulletAmount: nat  // most bullets alive at once
  )

  const ScreenW: nat := 1200
  const ScreenH: nat := 800
  const ShipW: nat := 40
  const ShipH: nat := 60
  const ShipSpeed: int := 5
  const BulletAmount: nat := 5

  /** The settings the game ships with. */
  const Default: Settings := Settings(ScreenW, ScreenH, ShipW, ShipH, ShipSpeed, BulletAmount)
}
