/**
 * The balances screen: every item's balance in each condition state, its
 * net (active) balance, the write-off of its SCRAP balance and the search
 * box; and how its balances relate to the audit screen's book balance and
 * to the custody screen's stock balance.
 */
module BalancesView {
  import opened Types
  import opened Text
  import opened Ledger
  import InventoryAudit
  import CustodyManagement

  /**
   * The balance of `item` in `state` on this screen: the opening seed, the
   * movements (NEW only) and every custody event in that state, audit-only
   * ones included; not clamped.
   */
  function BalanceForState(item: Item, state: CustodyState, ms: seq<Movement>, cs: seq<Custody>): int {
    OpeningSeed(item, state)
    + (if state == New then MovementSum(ms, item.id) else 0)
    + CustodySum(cs, item.id, state, false)
  }

  /** The accumulating computation of one state's balance. */
  method GetBalanceForState(item: Item, state: CustodyState, ms: seq<Movement>, cs: seq<Custody>) returns (b: int)
    ensures b == BalanceForState(item, state, ms, cs)
  {
    b := OpeningSeed(item, state);
    if state == New {
      var moved := SumMovements(ms, item.id);
      b := b + moved;
    }
    var held := SumCustodies(cs, item.id, state, false);
    b := b + held;
  }

  /** One row of the balances table. */
  datatype BalanceRow = BalanceRow(
    id: string,
    code: string,
    name: string,
    isCustody: bool,
    newQty: int,
    usedQty: int,
    scrapQty: int,
    netBalance: int)

  /** The row of one item: its three state balances and the net balance NEW + USED. */
  function RowOf(item: Item, ms: seq<Movement>, cs: seq<Custody>): (r: BalanceRow)
    ensures r.id == item.id && r.code == item.code && r.name == item.name
    ensures r.newQty == BalanceForState(item, New, ms, cs)
    ensures r.usedQty == BalanceForState(item, Used, ms, cs)
    ensures r.scrapQty == BalanceForState(item, Scrap, ms, cs)
    ensures r.netBalance == r.newQty + r.usedQty
  {
    var n := BalanceForState(item, New, ms, cs);
    var u := BalanceForState(item, Used, ms, cs);
    var s := BalanceForState(item, Scrap, ms, cs);
    BalanceRow(item.id, item.code, item.name, item.isCustody, n, u, s, n + u)
  }

  /** The table: one row per item, in the items' order. */
  function DetailedBalances(items: seq<Item>, ms: seq<Movement>, cs: seq<Custody>): (r: seq<BalanceRow>)
    ensures |r| == |items|
    ensures forall k :: 0 <= k < |items| ==> r[k] == RowOf(items[k], ms, cs)
  {
    seq(|items|, k requires 0 <= k < |items| => RowOf(items[k], ms, cs))
  }

  /** SCRAP events never move the NEW, USED or net balance: the net counts NEW and USED only. */
  lemma NetIgnoresScrap(item: Item, ms: seq<Movement>, c: Custody, cs: seq<Custody>)
    requires c.state == Scrap
    ensures RowOf(item, ms, [c] + cs).newQty == RowOf(item, ms, cs).newQty
    ensures RowOf(item, ms, [c] + cs).usedQty == RowOf(item, ms, cs).usedQty
    ensures RowOf(item, ms, [c] + cs).netBalance == RowOf(item, ms, cs).netBalance
    ensures RowOf(item, ms, [c] + cs).scrapQty
            == RowOf(item, ms, cs).scrapQty + (if c.itemId == item.id then CustodyEffect(c) else 0)
  {
    CustodySumPrepend(c, cs, item.id, New, false);
    CustodySumPrepend(c, cs, item.id, Used, false);
    CustodySumPrepend(c, cs, item.id, Scrap, false);
  }

  // ---------------------------------------------------------------------
  // Scrap write-off
  // ---------------------------------------------------------------------

  /** The write-off button is shown for a row only when its SCRAP balance is positive. */
  predicate ScrapOffered(row: BalanceRow) {
    row.scrapQty > 0
  }

  /** The note of a write-off ("إعدام هالك وتصفير رصيد تالف نهائياً (تكهين رسمي)"). */
  const ScrapNote: string := "إعدام" + " هالك" + " وتصفير" + " رصيد" + " تالف" + " نهائياً" + " (تكهين" + " رسمي)"

  /** The last six characters of a string (all of it when shorter). */
  function LastSix(s: string): (r: string)
    ensures |r| == if |s| < 6 then |s| else 6
    ensures s == s[..|s| - |r|] + r
  {
    if |s| <= 6 then s else s[|s| - 6..]
  }

  /** The write-off entry for a row: a SCRAP settlement of its displayed SCRAP balance. */
  function ScrapEntry(row: BalanceRow, id: string, now: string, performer: string, clock: string): Custody {
    Custody(id, row.id, SystemScrapEmployee, row.scrapQty, Scrap, Settlement, now, performer,
            "SCRAP-" + LastSix(clock), Some(ScrapNote), None, false)
  }

  /**
   * Executes the write-off of the row being confirmed: one settlement goes
   * in front of the custody log; no item and no movement changes. With no
   * row being confirmed nothing happens.
   */
  method ExecuteScrap(st: Store, executing: Option<BalanceRow>, id: string, now: string, performer: string, clock: string)
    returns (outcome: Outcome)
    modifies st
    ensures unchanged(st`units, st`warehouses, st`employees, st`suppliers, st`financialYears, st`selectedYear)
    ensures st.items == old(st.items) && st.movements == old(st.movements)
    ensures outcome == (if executing.Some? then Accepted else Ignored)
    ensures st.custodies == if executing.Some? then [ScrapEntry(executing.value, id, now, performer, clock)] + old(st.custodies)
                            else old(st.custodies)
  {
    if executing.None? {
      return Ignored;
    }
    st.custodies := [ScrapEntry(executing.value, id, now, performer, clock)] + st.custodies;
    outcome := Accepted;
  }

  /** The write-off note is not a surplus note. */
  lemma ScrapNoteIsDeficit()
    ensures !IsSurplusNote(Some(ScrapNote))
  {
    assert 'ز' !in ScrapNote;
    LacksFirstChar(ScrapNote, SurplusMarker);
  }

  /**
   * Writing off the displayed SCRAP balance of an item brings its SCRAP
   * balance to 0 and leaves its NEW, USED and net balances as they were.
   */
  lemma ScrapExecutionClears(item: Item, ms: seq<Movement>, cs: seq<Custody>, id: string, now: string, performer: string, clock: string)
    ensures var e := ScrapEntry(RowOf(item, ms, cs), id, now, performer, clock);
      var after := RowOf(item, ms, [e] + cs);
      && after.scrapQty == 0
      && after.newQty == RowOf(item, ms, cs).newQty
      && after.usedQty == RowOf(item, ms, cs).usedQty
      && after.netBalance == RowOf(item, ms, cs).netBalance
  {
    var e := ScrapEntry(RowOf(item, ms, cs), id, now, performer, clock);
    ScrapNoteIsDeficit();
    assert CustodyEffect(e) == -RowOf(item, ms, cs).scrapQty;
    NetIgnoresScrap(item, ms, e, cs);
  }

  // ---------------------------------------------------------------------
  // Search
  // ---------------------------------------------------------------------

  predicate RowMatches(row: BalanceRow, term: string) {
    Matches(row.name, term) || Matches(row.code, term)
  }

  /**
   * The search box: keeps, in order, the rows whose name or code contains
   * the term ignoring case; rows are selected, never altered.
   */
  function SearchFilter(rows: seq<BalanceRow>, term: string): (r: seq<BalanceRow>)
    ensures forall i :: 0 <= i < |r| ==> r[i] in rows && RowMatches(r[i], term)
    ensures forall i :: 0 <= i < |rows| && RowMatches(rows[i], term) ==> rows[i] in r
  {
    Filter(rows, (row: BalanceRow) => RowMatches(row, term))
  }

  /** The search keeps every copy of a matching row and no copy of any other row. */
  lemma SearchFilterCounts(rows: seq<BalanceRow>, term: string)
    ensures forall row ::
              multiset(SearchFilter(rows, term))[row] == if RowMatches(row, term) then multiset(rows)[row] else 0
  {
    FilterCounts(rows, (row: BalanceRow) => RowMatches(row, term));
  }

  /** The search keeps the table's order: searching two runs of rows and concatenating is searching their concatenation. */
  lemma SearchFilterConcat(a: seq<BalanceRow>, b: seq<BalanceRow>, term: string)
    ensures SearchFilter(a + b, term) == SearchFilter(a, term) + SearchFilter(b, term)
  {
    FilterConcat(a, b, (row: BalanceRow) => RowMatches(row, term));
  }

  /** An empty search keeps every row. */
  lemma {:induction false} EmptySearchKeepsAll(rows: seq<BalanceRow>)
    ensures SearchFilter(rows, "") == rows
    decreases |rows|
  {
    if rows != [] {
      assert Lower("") == "";
      assert StartsWith(Lower(rows[0].name), "");
      EmptySearchKeepsAll(rows[1..]);
    }
  }

  // ---------------------------------------------------------------------
  // Where the three balance computations agree
  // ---------------------------------------------------------------------

  /**
   * On a custody log without audit-only events this screen's balance is the
   * audit screen's balance before clamping, and equals the book balance
   * whenever it is not negative.
   */
  lemma AgreesWithBookBalance(item: Item, state: CustodyState, ms: seq<Movement>, cs: seq<Custody>)
    requires forall k :: 0 <= k < |cs| ==> !cs[k].auditOnly
    ensures BalanceForState(item, state, ms, cs) == InventoryAudit.RawBookBalance(item, state, ms, cs)
    ensures BalanceForState(item, state, ms, cs) >= 0 ==>
              BalanceForState(item, state, ms, cs) == InventoryAudit.BookBalance(item, state, ms, cs)
  {
    NoAuditOnlySkipIrrelevant(cs, item.id, state);
  }

  /**
   * An audit-only event moves this screen's balance by its effect but
   * leaves the audit screen's book balance alone.
   */
  lemma AuditOnlyDiverges(item: Item, state: CustodyState, ms: seq<Movement>, c: Custody, cs: seq<Custody>)
    requires c.auditOnly && c.itemId == item.id && c.state == state
    ensures BalanceForState(item, state, ms, [c] + cs) == BalanceForState(item, state, ms, cs) + CustodyEffect(c)
    ensures InventoryAudit.RawBookBalance(item, state, ms, [c] + cs) == InventoryAudit.RawBookBalance(item, state, ms, cs)
  {
    CustodySumPrepend(c, cs, item.id, state, false);
    CustodySumPrepend(c, cs, item.id, state, true);
  }

  /**
   * For the first item with its id, and unless it is a general item whose
   * `initialState` is USED or SCRAP, this screen's balance is the custody
   * screen's stock balance.
   */
  lemma AgreesWithStockBalance(items: seq<Item>, item: Item, state: CustodyState, ms: seq<Movement>, cs: seq<Custody>)
    requires FindItem(items, item.id) == Some(item)
    requires item.isCustody || item.initialState == None || item.initialState == Some(New)
    ensures CustodyManagement.StockBalanceByState(items, item.id, state, ms, cs) == BalanceForState(item, state, ms, cs)
  {
  }

  /**
   * A general item whose `initialState` is some other state than NEW has its
   * opening balance in NEW on both screens and, on the custody screen only,
   * in that other state as well.
   */
  lemma StockSeedDiverges(items: seq<Item>, item: Item, s: CustodyState, ms: seq<Movement>, cs: seq<Custody>)
    requires FindItem(items, item.id) == Some(item)
    requires !item.isCustody && item.initialState == Some(s) && s != New
    ensures CustodyManagement.StockBalanceByState(items, item.id, s, ms, cs)
            == BalanceForState(item, s, ms, cs) + item.openingBalance
    ensures CustodyManagement.StockBalanceByState(items, item.id, New, ms, cs)
            == BalanceForState(item, New, ms, cs)
  {
  }
}
