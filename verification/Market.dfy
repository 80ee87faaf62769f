module Market {

  /** A bar; `time` is the start of its bucket in nanoseconds since the epoch. */
  datatype Bar = Bar(time: int, open: real, high: real, low: real, close: real, volume: real)

  datatype Phase = Preview | Confirmed

  datatype MarketType = Equities | Crypto

  datatype Timeframe = M1 | M5 | M15 | M30 | H1 | H4 | D1 {
    function AsStr(): string {
      match this
      case M1 => "1m"
      case M5 => "5m"
      case M15 => "15m"
      case M30 => "30m"
      case H1 => "1h"
      case H4 => "4h"
      case D1 => "1d"
    }
  }
}
