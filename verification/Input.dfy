/** Decoded input: the keys the game reacts to and the events of one frame. */
module Input {
  datatype Key = Return | KpEnter | Up | Down | A | Escape | Space | P | OtherKey

  datatype Event = Quit | KeyDown(key: Key) | OtherEvent

  /** Return and the keypad Enter both confirm. */
  predicate IsConfirm(e: Event) {
    e.KeyDown? && (e.key == Return || e.key == KpEnter)
  }
}
