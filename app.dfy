/**
 * Starting a new financial year. Every item is carried over with its
 * closing balance as the new opening balance and a history of one
 * carry-forward line; the new year starts with empty movement and custody
 * logs and the same reference lists, and becomes the selected year.
 *
 * The partner of the rollover is the book balance: with empty logs, the new
 * year's book balance of an item in the state that holds its opening balance
 * is the old year's current balance.
 */
module App {
  import opened Types
  import opened Text
  import opened Ledger
  import opened InventoryAudit

  const CarryForwardPrefix: string := "ترحيل" + " رصيد" + " من" + " السنة" + " المالية" + " السابقة: "

  /** One item as the new year receives it. */
  function CarriedOver(item: Item, now: string): Item {
    item.(openingBalance := item.currentBalance,
          history := [HistoryEntry(SystemUserName, now, CarryForwardPrefix + IntToString(item.currentBalance))])
  }

  /** `items.map(...)`: every item carried over, in order. */
  function Rollover(items: seq<Item>, now: string): (r: seq<Item>)
    ensures |r| == |items|
    ensures forall k :: 0 <= k < |items| ==> r[k] == CarriedOver(items[k], now)
  {
    seq(|items|, k requires 0 <= k < |items| => CarriedOver(items[k], now))
  }

  /**
   * `handleStartNewYear`. The new year's storage is written with the
   * carried-over items, the same reference lists and empty logs; selecting
   * the year then loads exactly that.
   */
  method StartNewYear(st: Store, year: string, now: string) returns (outcome: Outcome)
    modifies st
    ensures year in old(st.financialYears) ==> outcome == Rejected(YearExists) && unchanged(st)
    ensures year !in old(st.financialYears)
            ==> outcome == Accepted
                && st.items == Rollover(old(st.items), now)
                && st.movements == [] && st.custodies == []
                && st.financialYears == old(st.financialYears) + [year]
                && st.selectedYear == year
    ensures unchanged(st`units, st`warehouses, st`employees, st`suppliers)
  {
    if year in st.financialYears {
      return Rejected(YearExists);
    }
    st.items := Rollover(st.items, now);
    st.movements := [];
    st.custodies := [];
    st.financialYears := st.financialYears + [year];
    st.selectedYear := year;
    outcome := Accepted;
  }

  /**
   * Carrying over keeps every field but the opening balance, which becomes
   * the current balance, and the history, which becomes one system line
   * stating the carried balance.
   */
  lemma CarriedOverKeepsItem(item: Item, now: string)
    ensures CarriedOver(item, now).(openingBalance := item.openingBalance, history := item.history) == item
    ensures CarriedOver(item, now).openingBalance == item.currentBalance
    ensures CarriedOver(item, now).currentBalance == item.currentBalance
    ensures |CarriedOver(item, now).history| == 1
    ensures CarriedOver(item, now).history[0].updatedBy == SystemUserName
    ensures StartsWith(CarriedOver(item, now).history[0].changes, CarryForwardPrefix)
  {
  }

  /** The items keep their ids, in order, so `find` sees the same item carried over. */
  lemma {:induction false} RolloverFind(items: seq<Item>, now: string, id: string)
    ensures FindItem(Rollover(items, now), id)
            == if FindItem(items, id).Some? then Some(CarriedOver(FindItem(items, id).value, now)) else None
    decreases |items|
  {
    if items != [] {
      assert Rollover(items, now)[1..] == Rollover(items[1..], now);
      RolloverFind(items[1..], now, id);
    }
  }

  /** Whether the opening balance of an item lies in `state`. */
  predicate HoldsOpening(item: Item, state: CustodyState) {
    (!item.isCustody && state == New) || (item.isCustody && item.initialState == Some(state))
  }

  /**
   * In the new year, with both logs empty, an item's book balance is its old
   * current balance in the state that holds the opening balance and 0 in
   * every other state.
   */
  lemma RolloverBookBalance(items: seq<Item>, now: string, k: nat, state: CustodyState)
    requires k < |items|
    ensures RawBookBalance(Rollover(items, now)[k], state, [], [])
            == if HoldsOpening(items[k], state) then items[k].currentBalance else 0
  {
  }

  /**
   * When the old year's current balance agrees with its book balance in the
   * state holding the opening balance, the new year opens with that book
   * balance.
   */
  lemma RolloverKeepsAgreedBalance(items: seq<Item>, now: string, k: nat, state: CustodyState,
                                   ms: seq<Movement>, cs: seq<Custody>)
    requires k < |items| && HoldsOpening(items[k], state)
    requires items[k].currentBalance == RawBookBalance(items[k], state, ms, cs)
    ensures BookBalance(Rollover(items, now)[k], state, [], []) == BookBalance(items[k], state, ms, cs)
  {
    RolloverBookBalance(items, now, k, state);
  }
}
