/** The domain trade record (src/trade.rs). */
module Trades {

  /** The `f64` that `str::parse::<f64>` makes of `text`. The model does not
      compute with floating point, so the value is kept as the text it comes from. */
  datatype Decimal = Parsed(text: string)

  /** The `u64` that `(seconds * 10_000.0) as u64` makes of a wire time in seconds,
      kept symbolic for the same reason. */
  datatype Ticks = Scaled(seconds: real)

  datatype Trade = Trade(pair: string, price: Decimal, volume: Decimal, timestamp: Ticks)
}
