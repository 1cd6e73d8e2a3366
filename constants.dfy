/** The constants of src/lib.rs that the modelled code reads. */
module Constants {
  const SCREEN_WIDTH: nat := 1600
  const SCREEN_HEIGHT: nat := 900
  const MAX_DEPTH: nat := 10
  const ANTIALIASING: real := 0.001
  const MAX_ITERATIONS: nat := 1
  const GUI_WIDTH: nat := 600
  const GUI_HEIGHT: nat := 600
}
