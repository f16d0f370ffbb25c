/** Constants of the bot configuration (config.py) used by the modelled core. */
module Config {
  const ATR_PERIOD: nat := 14
  const RISK_PERCENT: real := 0.01
  const RR_RATIO: real := 2.0
  const MIN_RR: real := 1.2
  const TRAILING_MULTIPLIER: real := 1.2
  const MIN_CONFIRMATIONS: nat := 2
  const VOLATILITY_MIN: real := 0.4
  const BREAKEVEN_MULTIPLIER: real := 1.0
  const PARTIAL_CLOSE_PERCENT: real := 0.5
  const MAGIC_NUMBER: int := 123456

  /** The smallest lot any sizing rule returns. */
  const MIN_LOT: real := 0.01
}
