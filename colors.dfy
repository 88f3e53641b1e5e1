/**
 * Unity's four-channel `Color` struct. Channels are reals: every rule in the
 * model copies a channel or takes `1 - x` of one, so nothing depends on
 * single-precision rounding.
 */
module Colors {

  datatype Color = Color(r: real, g: real, b: real, a: real)

  /** `Color.black`, also the default `emissiveFactor` of a glTF material. */
  const Black := Color(0.0, 0.0, 0.0, 1.0)

  /** `Color.white`, the default base colour and diffuse factor. */
  const White := Color(1.0, 1.0, 1.0, 1.0)

  /** `default(Color)`, what `new Color[n]` holds before it is written. */
  const Cleared := Color(0.0, 0.0, 0.0, 0.0)

  predicate InUnitRange(x: real) {
    0.0 <= x <= 1.0
  }

  predicate IsUnitColor(c: Color) {
    InUnitRange(c.r) && InUnitRange(c.g) && InUnitRange(c.b) && InUnitRange(c.a)
  }
}
