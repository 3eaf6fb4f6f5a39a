/** The bot's fixed configuration: cooldown, critical overshoot, history bound, digest hours, watchlist. */
module Settings {

  /** Instants are integer microseconds, the resolution of the timestamps the ledger stores. */
  const MicrosPerHour: int := 3_600_000_000

  /** Minimum time between two alerts with the same key (two hours). */
  const CooldownHours: int := 2
  const Cooldown: int := CooldownHours * MicrosPerHour

  /** Fraction beyond a band at which an alert becomes critical (2%). */
  const ExtraFraction: real := 0.02

  /** A price series with fewer valid points than this is not evaluated. */
  const MinHistory: nat := 30

  /** Local hours at which the status digest is sent. */
  const DigestHours: seq<nat> := [9, 18]

  /** Brazilian index, ETF and real-estate funds (exchange hours only). */
  const BrazilTickers: seq<string> := [
    "^BVSP", "BOVA11.SA", "AFHI11.SA", "CDII11.SA", "GGRC11.SA",
    "HFOF11.SA", "HGLG11.SA", "JURO11.SA", "KFOF11.SA", "KNCR11.SA",
    "MXRF11.SA", "PVBI11.SA", "RBHG11.SA", "RBVA11.SA", "RECT11.SA",
    "TRXF11.SA", "VGIR11.SA", "XPML11.SA"
  ]

  /** US stocks, REITs and ETFs (exchange hours only). */
  const UsTickers: seq<string> := [
    "ARE", "EPR", "EQIX", "GLPI", "IAUM", "IBIT", "JEPI", "NOBL",
    "O", "OHI", "PSA", "QQQ", "MCD", "REXR", "RING", "SCHD",
    "SHV", "STAG", "VICI", "VNQ", "VOO"
  ]

  /** Crypto, traded around the clock. */
  const CryptoTickers: seq<string> := ["BTC-USD"]

  /** The tickers evaluated, in order, on every pass. */
  const Watchlist: seq<string> := BrazilTickers + UsTickers + CryptoTickers
}
