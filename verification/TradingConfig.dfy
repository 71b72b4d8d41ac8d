/** The compile-time trading parameters and the entry gate. */
module TradingConfig {

  const TARGET_ENTRY_USDT := 35.0
  const ORDER_SIZE_USD := TARGET_ENTRY_USDT
  const MIN_NET_EDGE_PCT := 0.0
  const MIN_ENTRY_NET_PROFIT_KRW := 600.0
  const KOREAN_FEE_EVENTS := 1.0
  const FOREIGN_FEE_EVENTS := 3.0
  const BITHUMB_FEE_RATE := 0.0004
  const UPBIT_FEE_RATE := 0.0005
  const BYBIT_FEE_RATE := 0.0010
  const OKX_FEE_RATE := 0.0010
  const ENTRY_TOTAL_FEE_PCT :=
    BITHUMB_FEE_RATE * 100.0 * KOREAN_FEE_EVENTS + BYBIT_FEE_RATE * 100.0 * FOREIGN_FEE_EVENTS
  const DYNAMIC_EXIT_SPREAD := ENTRY_TOTAL_FEE_PCT
  const EXIT_PREMIUM_THRESHOLD := 0.25
  const MIN_ORDER_KRW := 5000.0
  const MIN_FOREIGN_NOTIONAL_USD := 1.0
  const HEDGE_TOLERANCE := 0.00005

  datatype Exchange = Bithumb | Bybit | Okx | Upbit

  function KoreanFeeRate(ex: Exchange): real {
    if ex.Upbit? then UPBIT_FEE_RATE else BITHUMB_FEE_RATE
  }

  function ForeignFeeRate(ex: Exchange): real {
    if ex.Okx? then OKX_FEE_RATE else BYBIT_FEE_RATE
  }

  /** `entry_gate_passes` */
  predicate EntryGatePasses(bothCanFill: bool, matchQty: real, netEdgePct: real, netProfitKrw: real) {
    && bothCanFill && matchQty > 0.0
    && netEdgePct > MIN_NET_EDGE_PCT && netProfitKrw >= MIN_ENTRY_NET_PROFIT_KRW
  }

  function Min(a: real, b: real): real {
    if b < a then b else a
  }

  function Max(a: real, b: real): real {
    if a < b then b else a
  }

  function Abs(a: real): real {
    if a < 0.0 then -a else a
  }
}
