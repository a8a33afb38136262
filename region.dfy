/**
 * Regional policy and fund catalogue: the constant stub services the
 * investment form and card consume, and the fallbacks both components
 * apply when the region configuration is missing.
 */
module Region {
  import opened Wrappers

  datatype RegionConfig = RegionConfig(
    country: string,
    currency: string,
    currencySymbol: string,
    maxInvestmentAmount: real)

  /** The cap used when the configuration is absent or its cap is 0. */
  const DEFAULT_MAX_INVESTMENT: real := 20000.0

  /** The configuration the region service returns (UK, GBP, cap 20000). */
  const UK_REGION: RegionConfig := RegionConfig("UK", "GBP", "£", 20000.0)

  datatype Fund = Fund(fundName: string, fundId: string)

  /** The catalogue the funds service returns: a single fund. */
  const FUND_CATALOG: seq<Fund> := [Fund("Cushon Equity Fund", "demo_fund_cushon")]

  /**
   * `regionConfig?.maxInvestmentAmount || 20000`: the configured cap unless
   * the configuration is missing or its cap is 0 (falsy), never 0 itself.
   */
  function MaxInvestment(config: Option<RegionConfig>): (max: real)
    ensures max != 0.0
    ensures config.None? ==> max == DEFAULT_MAX_INVESTMENT
    ensures config.Some? && config.value.maxInvestmentAmount == 0.0 ==> max == DEFAULT_MAX_INVESTMENT
    ensures config.Some? && config.value.maxInvestmentAmount != 0.0 ==> max == config.value.maxInvestmentAmount
  {
    if config.Some? && config.value.maxInvestmentAmount != 0.0 then config.value.maxInvestmentAmount
    else DEFAULT_MAX_INVESTMENT
  }

  /**
   * `regionConfig?.currencySymbol || fallback`: the configured symbol unless
   * the configuration is missing or the symbol is the empty string.
   */
  function CurrencySymbol(config: Option<RegionConfig>, fallback: string): (symbol: string)
    ensures fallback != "" ==> symbol != ""
    ensures config.Some? && config.value.currencySymbol != "" ==> symbol == config.value.currencySymbol
    ensures (config.None? || config.value.currencySymbol == "") ==> symbol == fallback
  {
    if config.Some? && config.value.currencySymbol != "" then config.value.currencySymbol else fallback
  }

  /** Under the region service's configuration the cap is 20000 and the symbol is the pound sign. */
  lemma UkRegionPolicy(fallback: string)
    ensures MaxInvestment(Some(UK_REGION)) == 20000.0
    ensures CurrencySymbol(Some(UK_REGION), fallback) == "£"
  {
  }
}
