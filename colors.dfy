/** The RGB colour values the game builds its cubes with (MonoGame's `Color`). */
module Colors {

  /** One colour channel: an integer in 0..255. */
  newtype byte = x: int | 0 <= x < 256

  /** A colour as its red, green and blue channels; the alpha channel is always opaque. */
  datatype Color = Color(r: byte, g: byte, b: byte)

  /** `Color.Black`, used for the current-position marker. */
  const Black: Color := Color(0, 0, 0)

  /** `Color.White`, used for the attractor markers. */
  const White: Color := Color(255, 255, 255)
}
