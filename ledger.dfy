/**
 * The investment ledger of the retail API stub: one customer's record
 * `{totalInvestment, fundsList}` kept in localStorage under
 * "userInvestment", read fresh, merged with a contribution and written back.
 * The ledger itself checks neither the amount nor the cap.
 */
module Ledger {
  import opened Wrappers
  import opened Storage

  datatype FundInvestment = FundInvestment(fundName: string, fundId: string, investedAmount: real)

  datatype UserInvestment = UserInvestment(totalInvestment: real, fundsList: seq<FundInvestment>)

  /**
   * What `JSON.parse` yields for the ledger slot: a record, or a value with
   * no fund list to search (`null`, a number, an object without `fundsList`).
   */
  datatype LedgerValue = Record(investment: UserInvestment) | Shapeless

  /** The stub customer the retail endpoints return around the ledger. */
  datatype RetailCustomerData = RetailCustomerData(
    firstName: string,
    lastName: string,
    memberSince: string,
    userInvestment: LedgerValue)

  datatype ApiError = ApiError(status: int, message: string)

  type LedgerStore = KeyValueStore<LedgerValue>

  const USER_INVESTMENT_KEY: string := "userInvestment"

  const EMPTY_INVESTMENT: UserInvestment := UserInvestment(0.0, [])

  const UPDATE_FAILED: ApiError := ApiError(500, "Failed to update investment")

  function StubCustomer(investment: LedgerValue): RetailCustomerData
  {
    RetailCustomerData("John", "Doe", "2023", investment)
  }

  // ---------------------------------------------------------------------
  // Reading and writing the slot
  // ---------------------------------------------------------------------

  /**
   * The reading helper on a given slot: nothing stored, the empty string and
   * unparseable text all fall back to the empty record; anything that parses
   * is returned as parsed.
   */
  function LoadUserInvestment(slot: Option<Stored<LedgerValue>>): LedgerValue
  {
    match slot
    case Some(Parsed(v)) => v
    case _ => Record(EMPTY_INVESTMENT)
  }

  /**
   * `getUserInvestmentFromStorage()`: what was parsed from "userInvestment",
   * or the empty record when the key is absent, blank or unparseable.
   */
  function ReadUserInvestment(store: LedgerStore): (v: LedgerValue)
    reads store
    ensures USER_INVESTMENT_KEY !in store.items ==> v == Record(EMPTY_INVESTMENT)
    ensures USER_INVESTMENT_KEY in store.items && !store.items[USER_INVESTMENT_KEY].Parsed? ==>
      v == Record(EMPTY_INVESTMENT)
    ensures USER_INVESTMENT_KEY in store.items && store.items[USER_INVESTMENT_KEY].Parsed? ==>
      v == store.items[USER_INVESTMENT_KEY].value
  {
    LoadUserInvestment(store.GetItem(USER_INVESTMENT_KEY))
  }

  /**
   * `saveUserInvestmentToStorage`: writes the record under "userInvestment"
   * and touches no other key; a failing write is swallowed and leaves the
   * storage as it was. A record that was written reads back unchanged.
   */
  method SaveUserInvestment(store: LedgerStore, investment: UserInvestment, fault: bool)
    modifies store
    ensures store.items == if fault then old(store.items)
                           else old(store.items)[USER_INVESTMENT_KEY := Parsed(Record(investment))]
    ensures !fault ==> ReadUserInvestment(store) == Record(investment)
  {
    var _ := store.SetItem(USER_INVESTMENT_KEY, Record(investment), fault);
  }

  // ---------------------------------------------------------------------
  // The merge
  // ---------------------------------------------------------------------

  /**
   * `fundsList.findIndex(fund => fund.fundId === fundId)`: the first index
   * holding `fundId`, or -1 when no entry holds it.
   */
  function FindFundIndex(funds: seq<FundInvestment>, fundId: string): (i: int)
    ensures -1 <= i < |funds|
    ensures 0 <= i ==> funds[i].fundId == fundId
    ensures forall k :: 0 <= k < |funds| && (i < 0 || k < i) ==> funds[k].fundId != fundId
  {
    if funds == [] then -1
    else if funds[0].fundId == fundId then 0
    else
      var j := FindFundIndex(funds[1..], fundId);
      if j < 0 then -1 else j + 1
  }

  /**
   * The new fund list: the first entry holding `fundId` gains `amount`;
   * when there is none, a new entry is appended.
   */
  function MergeContribution(funds: seq<FundInvestment>, fundId: string, fundName: string, amount: real)
    : (merged: seq<FundInvestment>)
    ensures |funds| <= |merged| <= |funds| + 1
    ensures forall k :: 0 <= k < |funds| ==>
      merged[k].fundId == funds[k].fundId && merged[k].fundName == funds[k].fundName
    ensures 0 <= FindFundIndex(merged, fundId)
  {
    var i := FindFundIndex(funds, fundId);
    var merged := if 0 <= i then funds[i := funds[i].(investedAmount := funds[i].investedAmount + amount)]
                  else funds + [FundInvestment(fundName, fundId, amount)];
    assert merged[if 0 <= i then i else |funds|].fundId == fundId;
    merged
  }

  /** The record `updateInvestment` computes from the record it read. */
  function ApplyContribution(current: UserInvestment, amount: real, fundId: string, fundName: string)
    : (next: UserInvestment)
    ensures next.totalInvestment == current.totalInvestment + amount
    ensures |current.fundsList| <= |next.fundsList| <= |current.fundsList| + 1
    ensures 0 <= FindFundIndex(next.fundsList, fundId)
  {
    UserInvestment(current.totalInvestment + amount,
                   MergeContribution(current.fundsList, fundId, fundName, amount))
  }

  /** The sum of the invested amounts of a fund list. */
  function SumInvested(funds: seq<FundInvestment>): real
  {
    if funds == [] then 0.0 else SumInvested(funds[..|funds| - 1]) + funds[|funds| - 1].investedAmount
  }

  /** A record whose total agrees with its fund list. */
  predicate Reconciled(investment: UserInvestment)
  {
    investment.totalInvestment == SumInvested(investment.fundsList)
  }

  /** No fund id occurs twice. */
  predicate UniqueFundIds(funds: seq<FundInvestment>)
  {
    forall j, k :: 0 <= j < k < |funds| ==> funds[j].fundId != funds[k].fundId
  }

  lemma {:induction false} SumInvestedAppend(funds: seq<FundInvestment>, entry: FundInvestment)
    ensures SumInvested(funds + [entry]) == SumInvested(funds) + entry.investedAmount
  {
    assert (funds + [entry])[..|funds|] == funds;
  }

  lemma {:induction false} SumInvestedUpdate(funds: seq<FundInvestment>, i: nat, entry: FundInvestment)
    requires i < |funds|
    ensures SumInvested(funds[i := entry])
         == SumInvested(funds) - funds[i].investedAmount + entry.investedAmount
  {
    var n := |funds|;
    if i == n - 1 {
      assert funds[i := entry][..n - 1] == funds[..n - 1];
    } else {
      SumInvestedUpdate(funds[..n - 1], i, entry);
      assert funds[i := entry][..n - 1] == funds[..n - 1][i := entry];
    }
  }

  /**
   * A contribution to a fund already in the list: only the first entry with
   * that id gains the amount, keeping its name; the length, the order and
   * every other entry are unchanged. The name passed in is ignored.
   */
  lemma ContributionToExistingFund(funds: seq<FundInvestment>, i: nat, fundId: string, fundName: string, amount: real)
    requires i < |funds| && funds[i].fundId == fundId
    requires forall k :: 0 <= k < i ==> funds[k].fundId != fundId
    ensures var merged := MergeContribution(funds, fundId, fundName, amount);
      && |merged| == |funds|
      && merged[i] == FundInvestment(funds[i].fundName, fundId, funds[i].investedAmount + amount)
      && forall k :: 0 <= k < |funds| && k != i ==> merged[k] == funds[k]
  {
  }

  /**
   * A contribution to a fund not in the list: exactly one entry
   * `{fundId, fundName, amount}` is appended after the unchanged old list.
   */
  lemma ContributionToNewFund(funds: seq<FundInvestment>, fundId: string, fundName: string, amount: real)
    requires forall k :: 0 <= k < |funds| ==> funds[k].fundId != fundId
    ensures var merged := MergeContribution(funds, fundId, fundName, amount);
      && |merged| == |funds| + 1
      && merged[..|funds|] == funds
      && merged[|funds|] == FundInvestment(fundName, fundId, amount)
  {
  }

  /**
   * On both branches the fund amounts grow by exactly `amount`, as does the
   * total; so a reconciled record stays reconciled.
   */
  lemma {:induction false} ContributionKeepsTotalReconciled(current: UserInvestment, amount: real, fundId: string, fundName: string)
    ensures var next := ApplyContribution(current, amount, fundId, fundName);
      && next.totalInvestment == current.totalInvestment + amount
      && SumInvested(next.fundsList) == SumInvested(current.fundsList) + amount
      && (Reconciled(current) ==> Reconciled(next))
  {
    var funds := current.fundsList;
    var i := FindFundIndex(funds, fundId);
    if 0 <= i {
      SumInvestedUpdate(funds, i, funds[i].(investedAmount := funds[i].investedAmount + amount));
    } else {
      SumInvestedAppend(funds, FundInvestment(fundName, fundId, amount));
    }
  }

  /** An entry is appended only when no entry holds its id, so ids stay unique. */
  lemma ContributionKeepsFundIdsUnique(funds: seq<FundInvestment>, fundId: string, fundName: string, amount: real)
    requires UniqueFundIds(funds)
    ensures UniqueFundIds(MergeContribution(funds, fundId, fundName, amount))
  {
    var merged := MergeContribution(funds, fundId, fundName, amount);
    var i := FindFundIndex(funds, fundId);
    if i < 0 {
      forall j, k | 0 <= j < k < |merged| ensures merged[j].fundId != merged[k].fundId {
        if k == |funds| {
          assert merged[j] == funds[j];
        } else {
          assert merged[j] == funds[j] && merged[k] == funds[k];
        }
      }
    } else {
      forall j, k | 0 <= j < k < |merged| ensures merged[j].fundId != merged[k].fundId {
        assert merged[j].fundId == funds[j].fundId && merged[k].fundId == funds[k].fundId;
      }
    }
  }

  // ---------------------------------------------------------------------
  // The endpoints
  // ---------------------------------------------------------------------

  /** `getRetailCustomerData`: the stub customer around whatever the slot holds. */
  method GetRetailCustomerData(store: LedgerStore) returns (data: RetailCustomerData)
    ensures data.userInvestment == ReadUserInvestment(store)
    ensures data.firstName == "John" && data.lastName == "Doe" && data.memberSince == "2023"
  {
    data := StubCustomer(ReadUserInvestment(store));
  }

  /**
   * `updateInvestment`: reads the stored record afresh, merges the
   * contribution and writes the result back under "userInvestment" (a failing
   * write is swallowed and the merged record is still returned). A stored
   * value without a fund list makes it fail with 500 and write nothing.
   */
  method UpdateInvestment(store: LedgerStore, amount: real, fundId: string, fundName: string, fault: bool)
    returns (r: Result<RetailCustomerData, ApiError>)
    modifies store
    ensures old(ReadUserInvestment(store)).Shapeless? ==>
      r == Failure(UPDATE_FAILED) && store.items == old(store.items)
    ensures old(ReadUserInvestment(store)).Record? ==>
      var next := ApplyContribution(old(ReadUserInvestment(store)).investment, amount, fundId, fundName);
      && r == Success(StubCustomer(Record(next)))
      && store.items == if fault then old(store.items)
                        else old(store.items)[USER_INVESTMENT_KEY := Parsed(Record(next))]
  {
    var current := ReadUserInvestment(store);
    match current {
      case Shapeless =>
        r := Failure(UPDATE_FAILED);
      case Record(investment) =>
        var next := ApplyContribution(investment, amount, fundId, fundName);
        SaveUserInvestment(store, next, fault);
        r := Success(StubCustomer(Record(next)));
    }
  }

  /**
   * `clearInvestment`: writes the empty record whatever was stored, so a
   * second clear leaves the same storage as the first. It never fails: the
   * save swallows its own errors.
   */
  method ClearInvestment(store: LedgerStore, fault: bool) returns (data: RetailCustomerData)
    modifies store
    ensures data == StubCustomer(Record(EMPTY_INVESTMENT))
    ensures store.items == if fault then old(store.items)
                           else old(store.items)[USER_INVESTMENT_KEY := Parsed(Record(EMPTY_INVESTMENT))]
    ensures !fault ==> ReadUserInvestment(store) == Record(UserInvestment(0.0, []))
  {
    SaveUserInvestment(store, EMPTY_INVESTMENT, fault);
    data := StubCustomer(Record(EMPTY_INVESTMENT));
  }
}
