/**
 * The contribution validator of the add-investment form: the derived
 * remaining capacity and new total, the amount and fund checks, and the
 * coercion of the amount field's text to a number.
 */
module InvestmentForm {
  import opened Wrappers
  import Region
  import Ledger

  /** A JavaScript number as the form holds it: a finite value or NaN. */
  datatype FormNumber = Num(v: real) | NaN

  /** JavaScript truthiness of a number: neither 0 nor NaN. */
  predicate Truthy(n: FormNumber)
  {
    n.Num? && n.v != 0.0
  }

  /** Why an amount is refused, or that it is accepted. */
  datatype AmountCheck =
    | AmountAccepted
    | AmountRequired                                  // "... required and must be greater than 0"
    | AboveRemaining(symbol: string, remaining: real)  // "Maximum additional investment allowed: ..."
    | AboveMax(symbol: string, max: real)              // "Total investment cannot exceed ..."

  datatype FundCheck = FundAccepted | FundRequired    // "Please select a fund"

  /** The fallback symbol of this form. */
  const FORM_SYMBOL_FALLBACK: string := "£"

  /**
   * `parseFloat(text) || 0`: what the amount field holds after an edit; text
   * that is not a number becomes 0.
   */
  function CoerceAmountInput(parsed: FormNumber): (n: FormNumber)
    ensures n.Num?
    ensures parsed.NaN? ==> n == Num(0.0)
    ensures parsed.Num? ==> n == parsed
  {
    if Truthy(parsed) then parsed else Num(0.0)
  }

  /** `remainingAmount`: the capacity left under the cap before this contribution. */
  function RemainingAmount(maxInvestment: real, currentTotal: real): (remaining: real)
    ensures currentTotal + remaining == maxInvestment
    ensures 0.0 < remaining <==> currentTotal < maxInvestment
  {
    maxInvestment - currentTotal
  }

  /** `newTotalInvestment`: the current total plus the watched amount (`|| 0`). */
  function NewTotalInvestment(currentTotal: real, watchAmount: FormNumber): (total: real)
    ensures Truthy(watchAmount) ==> total == currentTotal + watchAmount.v
    ensures !Truthy(watchAmount) ==> total == currentTotal
  {
    currentTotal + (if Truthy(watchAmount) then watchAmount.v else 0.0)
  }

  /**
   * `validateAmount`: the first failing check wins. An amount that is 0, NaN
   * or negative is refused first; then one above the remaining capacity;
   * then, from the watched amount, a new total above the cap.
   */
  function ValidateAmount(value: FormNumber, watchAmount: FormNumber, currentTotal: real,
                          maxInvestment: real, symbol: string): (r: AmountCheck)
    ensures r.AmountRequired? <==> !(value.Num? && 0.0 < value.v)
    ensures r.AboveRemaining? <==>
      value.Num? && 0.0 < value.v && value.v > maxInvestment - currentTotal
    ensures r.AboveRemaining? ==> r == AboveRemaining(symbol, maxInvestment - currentTotal)
    ensures r.AboveMax? <==>
      && value.Num? && 0.0 < value.v <= maxInvestment - currentTotal
      && NewTotalInvestment(currentTotal, watchAmount) > maxInvestment
    ensures r.AboveMax? ==> r == AboveMax(symbol, maxInvestment)
    ensures r == AmountAccepted <==>
      && value.Num? && 0.0 < value.v <= maxInvestment - currentTotal
      && NewTotalInvestment(currentTotal, watchAmount) <= maxInvestment
  {
    if !Truthy(value) || value.v <= 0.0 then AmountRequired
    else if value.v > RemainingAmount(maxInvestment, currentTotal) then
      AboveRemaining(symbol, RemainingAmount(maxInvestment, currentTotal))
    else if NewTotalInvestment(currentTotal, watchAmount) > maxInvestment then AboveMax(symbol, maxInvestment)
    else AmountAccepted
  }

  /** `validateFund`: only the empty id is refused; the catalogue is not consulted. */
  function ValidateFund(fundId: string): (r: FundCheck)
    ensures r == FundRequired <==> fundId == ""
  {
    if fundId == "" then FundRequired else FundAccepted
  }

  /**
   * With the watched amount equal to the value being checked, an amount is
   * accepted exactly when 0 < amount <= max - currentTotal, and the third
   * check never decides on its own.
   */
  lemma AcceptedIffWithinRemaining(amount: real, currentTotal: real, maxInvestment: real, symbol: string)
    ensures var r := ValidateAmount(Num(amount), Num(amount), currentTotal, maxInvestment, symbol);
      && (r == AmountAccepted <==> 0.0 < amount <= maxInvestment - currentTotal)
      && !r.AboveMax?
  {
  }

  /**
   * The third check exists for a watched amount that differs from the value:
   * with cap 20000, total 18000, value 1000 and a watched 5000, it fires.
   */
  lemma StaleWatchedAmountTripsTotalCheck()
    ensures ValidateAmount(Num(1000.0), Num(5000.0), 18000.0, 20000.0, "£") == AboveMax("£", 20000.0)
  {
  }

  /** The cap example: with cap 20000 and total 18000, 2000 passes and 2001 does not. */
  lemma CapBoundaryExample()
    ensures ValidateAmount(Num(2000.0), Num(2000.0), 18000.0, 20000.0, "£") == AmountAccepted
    ensures ValidateAmount(Num(2001.0), Num(2001.0), 18000.0, 20000.0, "£") == AboveRemaining("£", 2000.0)
    ensures ValidateAmount(Num(0.0), Num(0.0), 18000.0, 20000.0, "£") == AmountRequired
    ensures ValidateAmount(Num(-5.0), Num(-5.0), 18000.0, 20000.0, "£") == AmountRequired
  {
  }

  /** Text that does not parse as a number is coerced to 0 and so refused by the first check. */
  lemma NonNumericInputRefused(watchAmount: FormNumber, currentTotal: real, maxInvestment: real, symbol: string)
    ensures ValidateAmount(CoerceAmountInput(NaN), watchAmount, currentTotal, maxInvestment, symbol)
         == AmountRequired
  {
  }

  /**
   * Validation composed with the ledger: an amount the form accepts against
   * the record's total, whatever the watched amount, applied to that record,
   * leaves the total above the old one and at most the cap. So a ledger at
   * or under the cap stays there.
   */
  lemma AcceptedContributionRespectsCap(current: Ledger.UserInvestment, amount: real, watchAmount: FormNumber,
                                        fundId: string, fundName: string, config: Option<Region.RegionConfig>)
    requires ValidateAmount(Num(amount), watchAmount, current.totalInvestment, Region.MaxInvestment(config),
                            Region.CurrencySymbol(config, FORM_SYMBOL_FALLBACK)) == AmountAccepted
    requires ValidateFund(fundId) == FundAccepted
    ensures var next := Ledger.ApplyContribution(current, amount, fundId, fundName);
      && current.totalInvestment < next.totalInvestment <= Region.MaxInvestment(config)
      && (Ledger.Reconciled(current) ==> Ledger.Reconciled(next))
  {
    Ledger.ContributionKeepsTotalReconciled(current, amount, fundId, fundName);
  }

  /** Every fund the catalogue offers passes the fund check. */
  lemma CatalogFundsAccepted()
    ensures forall fund :: fund in Region.FUND_CATALOG ==> ValidateFund(fund.fundId) == FundAccepted
  {
  }
}
