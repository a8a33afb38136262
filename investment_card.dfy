/**
 * The investment card's decisions: the defaults it applies to a possibly
 * partial record, whether more can be added, and which footer it shows.
 */
module InvestmentCard {
  import opened Wrappers
  import Region
  import Ledger
  import InvestmentForm

  /** The record as the card receives it: either field may be missing. */
  datatype CardInvestment = CardInvestment(
    totalInvestment: Option<real>,
    fundsList: Option<seq<Ledger.FundInvestment>>)

  /** The card's fallback symbol (the form's differs). */
  const CARD_SYMBOL_FALLBACK: string := "$"

  /** What the card's footer shows. */
  datatype Footer = Footer(addButton: bool, limitMessage: bool)

  /** `userInvestment?.totalInvestment ?? 0`: a missing record or total shows 0. */
  function TotalShown(investment: Option<CardInvestment>): (total: real)
    ensures investment.None? || investment.value.totalInvestment.None? ==> total == 0.0
    ensures investment.Some? && investment.value.totalInvestment.Some? ==>
      total == investment.value.totalInvestment.value
  {
    if investment.Some? && investment.value.totalInvestment.Some? then investment.value.totalInvestment.value
    else 0.0
  }

  /** `userInvestment?.fundsList ?? []`: a missing record or list shows no funds. */
  function FundsShown(investment: Option<CardInvestment>): (funds: seq<Ledger.FundInvestment>)
    ensures investment.None? || investment.value.fundsList.None? ==> funds == []
    ensures investment.Some? && investment.value.fundsList.Some? ==> funds == investment.value.fundsList.value
  {
    if investment.Some? && investment.value.fundsList.Some? then investment.value.fundsList.value else []
  }

  /** `regionConfig?.currencySymbol || "$"`: the symbol the card displays. */
  function CardSymbol(config: Option<Region.RegionConfig>): (symbol: string)
    ensures symbol != ""
    ensures (config.None? || config.value.currencySymbol == "") ==> symbol == CARD_SYMBOL_FALLBACK
    ensures config.Some? && config.value.currencySymbol != "" ==> symbol == config.value.currencySymbol
  {
    Region.CurrencySymbol(config, CARD_SYMBOL_FALLBACK)
  }

  /**
   * `canAddMore`: the shown total is strictly below the cap, that is, the
   * form's remaining capacity is positive.
   */
  function CanAddMore(total: real, maxInvestment: real): (can: bool)
    ensures can <==> 0.0 < InvestmentForm.RemainingAmount(maxInvestment, total)
  {
    total < maxInvestment
  }

  /**
   * The footer: the add button when more can be added and a handler was
   * given, the limit message when no more can be added.
   */
  function CardFooter(canAddMore: bool, hasAddHandler: bool): (f: Footer)
    ensures !(f.addButton && f.limitMessage)
    ensures f.limitMessage <==> !canAddMore
    ensures f.addButton <==> canAddMore && hasAddHandler
  {
    Footer(canAddMore && hasAddHandler, !canAddMore)
  }

  /**
   * The card offers more exactly when the form would accept some amount: if
   * the total is below the cap, the whole remaining capacity is accepted;
   * otherwise every amount is refused.
   */
  lemma CanAddMoreIffSomeAmountAccepted(total: real, config: Option<Region.RegionConfig>, symbol: string)
    ensures var max := Region.MaxInvestment(config);
      CanAddMore(total, max) <==>
        exists amount: real :: InvestmentForm.ValidateAmount(InvestmentForm.Num(amount), InvestmentForm.Num(amount),
                                                             total, max, symbol) == InvestmentForm.AmountAccepted
  {
    var max := Region.MaxInvestment(config);
    if CanAddMore(total, max) {
      var amount := InvestmentForm.RemainingAmount(max, total);
      InvestmentForm.AcceptedIffWithinRemaining(amount, total, max, symbol);
    }
  }
}
