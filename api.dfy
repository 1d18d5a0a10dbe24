/** The controller message of the emulator's remote-control protocol
    (`InputState`: a player index and eight button flags) and the emulator's
    own eight-button vector, in the NES shift-register order
    A, B, Select, Start, Up, Down, Left, Right. */
module Api {

  /** A `[8]bool` button vector, index 0 = A ... index 7 = Right. */
  type Buttons = s: seq<bool> | |s| == 8
    witness [false, false, false, false, false, false, false, false]

  const NoButtons: Buttons := [false, false, false, false, false, false, false, false]

  /** `InputState`: the player index and the eight flags `A`, `B`, `Select`,
      `Start`, `Up`, `Down`, `Left`, `Right`, kept as one vector in that
      order (flag `A` is `buttons[0]`, flag `Right` is `buttons[7]`). */
  datatype InputState = InputState(playerIndex: int, buttons: Buttons)
}
