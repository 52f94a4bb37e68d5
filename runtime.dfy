/** What the JavaScript runtime supplies that the model takes as input. */
module Runtime {

  /** One result of `Math.random()`: a real in [0, 1). */
  type Draw = r: real | 0.0 <= r < 1.0

  /** One hour in milliseconds, the unit of every mock timeline. */
  const HOUR_MS: nat := 3600000
}
