/**
 * The reports screen: the date-range filter, the detailed stock ledger of
 * one item with its carried-forward and running balances, the employee
 * clearance statement, the quantities of the net consumption report, and
 * the filters of the settlement and returns archives.
 */
module Reports {
  import opened Types
  import opened Text
  import opened Ledger
  import opened CustodyManagement

  // ---------------------------------------------------------------------
  // Date range
  // ---------------------------------------------------------------------

  /**
   * `filterByDateRange`: the date part of the timestamp lies between the two
   * bounds, both included, compared as strings; an empty bound does not
   * restrict.
   */
  predicate InDateRange(ts: string, startDate: string, endDate: string) {
    (startDate == [] || LexLe(startDate, DatePart(ts))) && (endDate == [] || LexLe(DatePart(ts), endDate))
  }

  /** Widening either bound (or clearing it) keeps every entry the narrower range kept. */
  lemma WiderRangeKeeps(ts: string, s: string, e: string, s2: string, e2: string)
    requires InDateRange(ts, s, e)
    requires s2 == [] || (s != [] && LexLe(s2, s))
    requires e2 == [] || (e != [] && LexLe(e, e2))
    ensures InDateRange(ts, s2, e2)
  {
    if s2 != [] { LexLeTransitive(s2, s, DatePart(ts)); }
    if e2 != [] { LexLeTransitive(DatePart(ts), e, e2); }
  }

  // ---------------------------------------------------------------------
  // Ordering by timestamp
  // ---------------------------------------------------------------------

  /** `a` may come before `b` in an ascending (or, with `descending`, a descending) order. */
  predicate Precedes(a: string, b: string, descending: bool) {
    if descending then LexLe(b, a) else LexLe(a, b)
  }

  predicate SortedBy<T>(s: seq<T>, key: T -> string, descending: bool) {
    forall i :: 0 < i < |s| ==> Precedes(key(s[i - 1]), key(s[i]), descending)
  }

  /** Puts `x` before the first element it may precede; earlier elements with an equal key stay ahead of later ones. */
  function Insert<T>(x: T, s: seq<T>, key: T -> string, descending: bool): (r: seq<T>)
    ensures |r| == |s| + 1
    ensures multiset(r) == multiset(s) + multiset{x}
    ensures r[0] == x || (s != [] && r[0] == s[0])
    ensures SortedBy(s, key, descending) ==> SortedBy(r, key, descending)
    decreases |s|
  {
    if s == [] || Precedes(key(x), key(s[0]), descending) then
      assert SortedBy(s, key, descending) ==> SortedBy([x] + s, key, descending) by {
        if SortedBy(s, key, descending) { ConsSorted(x, s, key, descending); }
      }
      [x] + s
    else
      var rest := Insert(x, s[1..], key, descending);
      InsertBehind(x, s, rest, key, descending);
      [s[0]] + rest
  }

  /** What `Insert` needs when `x` goes behind the head: the head may precede whatever follows it. */
  lemma InsertBehind<T>(x: T, s: seq<T>, rest: seq<T>, key: T -> string, descending: bool)
    requires s != [] && !Precedes(key(x), key(s[0]), descending)
    requires multiset(rest) == multiset(s[1..]) + multiset{x}
    requires rest != [] && (rest[0] == x || (s[1..] != [] && rest[0] == s[1..][0]))
    requires SortedBy(s[1..], key, descending) ==> SortedBy(rest, key, descending)
    ensures multiset([s[0]] + rest) == multiset(s) + multiset{x}
    ensures SortedBy(s, key, descending) ==> SortedBy([s[0]] + rest, key, descending)
  {
    LexLeTotal(key(x), key(s[0]));
    assert s == [s[0]] + s[1..];
    if SortedBy(s, key, descending) {
      assert SortedBy(s[1..], key, descending) by {
        forall i | 0 < i < |s[1..]| ensures Precedes(key(s[1..][i - 1]), key(s[1..][i]), descending) {
          assert s[1..][i - 1] == s[i] && s[1..][i] == s[i + 1];
        }
      }
      ConsSorted(s[0], rest, key, descending);
    }
  }

  /** An element that may precede the head of a sorted sequence keeps it sorted when put in front. */
  lemma ConsSorted<T>(h: T, rest: seq<T>, key: T -> string, descending: bool)
    requires SortedBy(rest, key, descending)
    requires rest == [] || Precedes(key(h), key(rest[0]), descending)
    ensures SortedBy([h] + rest, key, descending)
  {
    var r := [h] + rest;
    forall i | 0 < i < |r| ensures Precedes(key(r[i - 1]), key(r[i]), descending) {
      assert r[i] == rest[i - 1];
      if i > 1 { assert r[i - 1] == rest[i - 2]; }
    }
  }

  /** `Array.prototype.sort` with a comparator on the timestamps: a stable insertion sort. */
  function SortBy<T>(s: seq<T>, key: T -> string, descending: bool): (r: seq<T>)
    ensures |r| == |s|
    ensures multiset(r) == multiset(s)
    ensures SortedBy(r, key, descending)
    decreases |s|
  {
    if s == [] then []
    else
      assert s == [s[0]] + s[1..];
      Insert(s[0], SortBy(s[1..], key, descending), key, descending)
  }

  /**
   * `Insert` passes only elements whose key differs from `x`'s, so among
   * the elements with key `k` it puts `x` (when its key is `k`) ahead of the
   * rest and keeps their order.
   */
  lemma {:induction false} InsertKeepsKeyRun<T>(x: T, s: seq<T>, key: T -> string, descending: bool, k: string)
    ensures Filter(Insert(x, s, key, descending), (y: T) => key(y) == k)
            == (if key(x) == k then [x] else []) + Filter(s, (y: T) => key(y) == k)
    decreases |s|
  {
    var p := (y: T) => key(y) == k;
    var r := Insert(x, s, key, descending);
    if s == [] || Precedes(key(x), key(s[0]), descending) {
      assert r == [x] + s;
      assert r[1..] == s;
    } else {
      LexLeReflexive(key(x));
      InsertKeepsKeyRun(x, s[1..], key, descending, k);
      var rest := Insert(x, s[1..], key, descending);
      assert r == [s[0]] + rest;
      assert r[0] == s[0] && r[1..] == rest;
      assert Filter(r, p) == (if p(s[0]) then [s[0]] else []) + Filter(rest, p);
      assert Filter(s, p) == (if p(s[0]) then [s[0]] else []) + Filter(s[1..], p);
      if key(x) == k {
        assert !p(s[0]);
        assert Filter(r, p) == Filter(rest, p);
      } else {
        assert Filter(rest, p) == Filter(s[1..], p);
      }
    }
  }

  /**
   * The sort is stable: for every key, the elements carrying it come out in
   * the order they went in.
   */
  lemma {:induction false} SortByStable<T>(s: seq<T>, key: T -> string, descending: bool, k: string)
    ensures Filter(SortBy(s, key, descending), (y: T) => key(y) == k) == Filter(s, (y: T) => key(y) == k)
    decreases |s|
  {
    if s != [] {
      SortByStable(s[1..], key, descending, k);
      InsertKeepsKeyRun(s[0], SortBy(s[1..], key, descending), key, descending, k);
    }
  }

  lemma {:induction false} InsertTotal<T>(x: T, s: seq<T>, key: T -> string, descending: bool, f: T -> int)
    ensures Total(Insert(x, s, key, descending), f) == f(x) + Total(s, f)
    decreases |s|
  {
    if s == [] || Precedes(key(x), key(s[0]), descending) {
      TotalPrepend(x, s, f);
    } else {
      InsertTotal(x, s[1..], key, descending, f);
      TotalPrepend(s[0], Insert(x, s[1..], key, descending), f);
      TotalPrepend(s[0], s[1..], f);
      assert s == [s[0]] + s[1..];
    }
  }

  /** Sorting does not change a sum over the entries. */
  lemma {:induction false} SortTotal<T>(s: seq<T>, key: T -> string, descending: bool, f: T -> int)
    ensures Total(SortBy(s, key, descending), f) == Total(s, f)
    decreases |s|
  {
    if s != [] {
      SortTotal(s[1..], key, descending, f);
      InsertTotal(s[0], SortBy(s[1..], key, descending), key, descending, f);
      TotalPrepend(s[0], s[1..], f);
      assert s == [s[0]] + s[1..];
    }
  }

  /** Sorting what a filter kept holds exactly the elements that satisfy the filter. */
  lemma SortedFilterMembers<T>(s: seq<T>, p: T -> bool, key: T -> string, descending: bool)
    ensures forall x :: x in SortBy(Filter(s, p), key, descending) <==> x in s && p(x)
  {
    var kept := Filter(s, p);
    assert forall x :: x in SortBy(kept, key, descending) <==> x in multiset(kept);
    forall x ensures x in kept <==> x in s && p(x) {
      if x in s && p(x) {
        var k :| 0 <= k < |s| && s[k] == x;
      }
      if x in kept {
        var k :| 0 <= k < |kept| && kept[k] == x;
      }
    }
  }

  // ---------------------------------------------------------------------
  // Ledger entries
  // ---------------------------------------------------------------------

  /** One entry of an item's ledger before balances are computed. */
  datatype LedgerEntry = LedgerEntry(timestamp: string, docNumber: string, inQty: int, outQty: int,
                                     user: string, note: string, state: CustodyState)

  function EntryTime(e: LedgerEntry): string { e.timestamp }

  function EntryNet(e: LedgerEntry): int { e.inQty - e.outQty }

  /** `x || fallback` for an optional text: an absent or empty text gives the fallback. */
  function TextOr(t: Option<string>, fallback: string): (r: string)
    ensures r == fallback || (t == Some(r) && r != [])
  {
    if t.Some? && t.value != [] then t.value else fallback
  }

  const NoNote: string := "-"
  const ReturnLinkNote: string := "مرتجع" + " مرتبط" + " بالسند" + " رقم "

  /** The document number of a movement's return: its own, or "RET-" and the movement's. */
  function ReturnDocOf(m: Movement): string {
    TextOr(m.returnDocNumber, "RET-" + m.docNumber)
  }

  /**
   * A movement's rows: one for its full quantity (in for INWARD, out for
   * OUTWARD), and, when part of it was returned, one in the other direction
   * for the returned quantity. Both belong to the NEW stock.
   */
  function MovementRows(m: Movement): (r: seq<LedgerEntry>)
    ensures |r| == (if m.returnedQuantity > 0 then 2 else 1)
    ensures r[0].docNumber == m.docNumber && r[0].inQty + r[0].outQty == m.quantity
  {
    var main := LedgerEntry(m.timestamp, m.docNumber, if m.kind == Inward then m.quantity else 0,
                            if m.kind == Outward then m.quantity else 0, m.performedBy, TextOr(m.note, NoNote), New);
    if m.returnedQuantity > 0 then
      [main, LedgerEntry(m.timestamp, ReturnDocOf(m), if m.kind == Outward then m.returnedQuantity else 0,
                         if m.kind == Inward then m.returnedQuantity else 0, m.performedBy, ReturnLinkNote + m.docNumber, New)]
    else [main]
  }

  /**
   * A custody event's row, in the event's state: a hand-over is out, a return
   * is in, a settlement is in when its note marks a surplus and out
   * otherwise. Audit-only events are listed like any other.
   */
  function CustodyRow(c: Custody): LedgerEntry {
    var surplus := c.kind == Settlement && IsSurplusNote(c.note);
    LedgerEntry(c.timestamp, c.docNumber, if c.kind == Return || surplus then c.quantity else 0,
                if c.kind == Handover || (c.kind == Settlement && !surplus) then c.quantity else 0,
                c.performedBy, TextOr(c.note, NoNote), c.state)
  }

  /** The movement rows of item `id`, in log order. */
  function MovementEntries(ms: seq<Movement>, id: string): seq<LedgerEntry>
    decreases |ms|
  {
    if ms == [] then []
    else MovementEntries(ms[..|ms| - 1], id) + (if ms[|ms| - 1].itemId == id then MovementRows(ms[|ms| - 1]) else [])
  }

  /** The custody rows of item `id`, in log order. */
  function CustodyEntries(cs: seq<Custody>, id: string): seq<LedgerEntry>
    decreases |cs|
  {
    if cs == [] then []
    else CustodyEntries(cs[..|cs| - 1], id) + (if cs[|cs| - 1].itemId == id then [CustodyRow(cs[|cs| - 1])] else [])
  }

  /** A movement's rows add up to its effect on the NEW stock. */
  lemma MovementRowsNet(m: Movement)
    requires m.returnedQuantity >= 0
    ensures Total(MovementRows(m), EntryNet) == MovementEffect(m)
  {
    var r := MovementRows(m);
    assert Total(r[..1], EntryNet) == EntryNet(r[0]) by {
      assert r[..1][..0] == [];
    }
    if |r| == 1 {
      assert r == r[..1];
    } else {
      assert r[..|r| - 1] == r[..1];
    }
  }

  lemma {:induction false} MovementEntriesNet(ms: seq<Movement>, id: string)
    requires forall k :: 0 <= k < |ms| ==> ms[k].returnedQuantity >= 0
    ensures Total(MovementEntries(ms, id), EntryNet) == MovementSum(ms, id)
    decreases |ms|
  {
    if ms != [] {
      var last := ms[|ms| - 1];
      MovementEntriesNet(ms[..|ms| - 1], id);
      TotalConcat(MovementEntries(ms[..|ms| - 1], id), if last.itemId == id then MovementRows(last) else [], EntryNet);
      if last.itemId == id { MovementRowsNet(last); }
    }
  }

  /** The sum of all three states' custody effects on item `id`, audit-only events included. */
  function CustodyNet(cs: seq<Custody>, id: string): int {
    CustodySum(cs, id, New, false) + CustodySum(cs, id, Used, false) + CustodySum(cs, id, Scrap, false)
  }

  lemma {:induction false} CustodyEntriesNet(cs: seq<Custody>, id: string)
    ensures Total(CustodyEntries(cs, id), EntryNet) == CustodyNet(cs, id)
    decreases |cs|
  {
    if cs != [] {
      var last := cs[|cs| - 1];
      CustodyEntriesNet(cs[..|cs| - 1], id);
      TotalConcat(CustodyEntries(cs[..|cs| - 1], id), if last.itemId == id then [CustodyRow(last)] else [], EntryNet);
      assert Total([CustodyRow(last)], EntryNet) == EntryNet(CustodyRow(last)) by {
        assert [CustodyRow(last)][..0] == [];
      }
      CustodyRowNet(last);
      CustodyNetSnoc(cs, id);
    }
  }

  /** A custody row's in minus out is the event's effect on its state's stock. */
  lemma CustodyRowNet(c: Custody)
    ensures EntryNet(CustodyRow(c)) == CustodyEffect(c)
  {
  }

  lemma CustodyNetSnoc(cs: seq<Custody>, id: string)
    requires cs != []
    ensures CustodyNet(cs, id)
            == CustodyNet(cs[..|cs| - 1], id) + (if cs[|cs| - 1].itemId == id then CustodyEffect(cs[|cs| - 1]) else 0)
  {
  }

  function InState(s: CustodyState): LedgerEntry -> bool { (e: LedgerEntry) => e.state == s }

  /** All of an item's entries, sorted by time, then narrowed to one state unless the filter is "ALL". */
  function ReportEntries(ms: seq<Movement>, cs: seq<Custody>, id: string, filterState: Option<CustodyState>): (r: seq<LedgerEntry>)
    ensures SortedBy(r, EntryTime, false)
  {
    var all := SortBy(MovementEntries(ms, id) + CustodyEntries(cs, id), EntryTime, false);
    if filterState.None? then all
    else
      var kept := Filter(all, InState(filterState.value));
      FilterKeepsOrder(all, InState(filterState.value), EntryTime);
      kept
  }

  /** Filtering keeps a sorted sequence sorted. */
  lemma {:induction false} FilterKeepsOrder<T>(s: seq<T>, p: T -> bool, key: T -> string)
    requires SortedBy(s, key, false)
    ensures SortedBy(Filter(s, p), key, false)
    ensures Filter(s, p) != [] && s != [] ==> LexLe(key(s[0]), key(Filter(s, p)[0]))
    decreases |s|
  {
    if s != [] {
      var rest := Filter(s[1..], p);
      assert SortedBy(s[1..], key, false) by {
        forall i | 0 < i < |s[1..]| ensures Precedes(key(s[1..][i - 1]), key(s[1..][i]), false) {
          assert s[1..][i - 1] == s[i] && s[1..][i] == s[i + 1];
        }
      }
      FilterKeepsOrder(s[1..], p, key);
      LexLeReflexive(key(s[0]));
      if rest != [] {
        assert LexLe(key(s[1..][0]), key(rest[0]));
        LexLeTransitive(key(s[0]), key(s[1]), key(rest[0]));
      }
    }
  }

  // ---------------------------------------------------------------------
  // The stock ledger
  // ---------------------------------------------------------------------

  /** One line of the ledger as shown, with the balance after it. */
  datatype LedgerLine = LedgerLine(timestamp: string, docNumber: string, inQty: int, outQty: int, balance: int,
                                   user: string, note: string)

  datatype StockLedgerReport = StockLedgerReport(lines: seq<LedgerLine>, totalIn: int, totalOut: int, final: int)

  const CarriedDoc: string := "منقول"
  const CarriedNote: string := "رصيد" + " تراكمي" + " من" + " حركات" + " سابقة"
  const OpeningDoc: string := "OPEN-INV"
  const OpeningNote: string := "الرصيد" + " الابتدائي" + " المسجل" + " عند" + " تكويد" + " الصنف"

  /** `entry.timestamp.split('T')[0] < startDate`. */
  predicate BeforeStart(e: LedgerEntry, startDate: string) {
    !LexLe(startDate, DatePart(e.timestamp))
  }

  function CarriedTerm(startDate: string): LedgerEntry -> int {
    (e: LedgerEntry) => if BeforeStart(e, startDate) then EntryNet(e) else 0
  }

  function ShownNet(startDate: string, endDate: string): LedgerEntry -> int {
    (e: LedgerEntry) => if InDateRange(e.timestamp, startDate, endDate) then EntryNet(e) else 0
  }

  function ShownIn(startDate: string, endDate: string): LedgerEntry -> int {
    (e: LedgerEntry) => if InDateRange(e.timestamp, startDate, endDate) then e.inQty else 0
  }

  function ShownOut(startDate: string, endDate: string): LedgerEntry -> int {
    (e: LedgerEntry) => if InDateRange(e.timestamp, startDate, endDate) then e.outQty else 0
  }

  /** The balance the shown lines start from: the opening balance, plus with a start date everything dated before it. */
  function StartingBalance(item: Item, entries: seq<LedgerEntry>, startDate: string): int {
    if startDate == [] then item.openingBalance else item.openingBalance + Total(entries, CarriedTerm(startDate))
  }

  /** The first line: the carried-forward balance at the start date, or the item's opening balance. */
  function FirstLine(item: Item, entries: seq<LedgerEntry>, startDate: string): LedgerLine {
    if startDate != [] then
      LedgerLine(startDate, CarriedDoc, 0, 0, StartingBalance(item, entries, startDate), SystemUserName, CarriedNote)
    else
      LedgerLine(item.createdAt, OpeningDoc, item.openingBalance, 0, item.openingBalance,
                 if item.createdBy != [] then item.createdBy else SystemUserName, OpeningNote)
  }

  function LineOf(e: LedgerEntry, balance: int): LedgerLine {
    LedgerLine(e.timestamp, e.docNumber, e.inQty, e.outQty, balance, e.user, e.note)
  }

  /** The lines of the entries within the date range, each with the running balance after it, from `start`. */
  function Lines(entries: seq<LedgerEntry>, startDate: string, endDate: string, start: int): seq<LedgerLine>
    decreases |entries|
  {
    if entries == [] then []
    else
      var last := entries[|entries| - 1];
      Lines(entries[..|entries| - 1], startDate, endDate, start)
      + (if InDateRange(last.timestamp, startDate, endDate)
         then [LineOf(last, start + Total(entries, ShownNet(startDate, endDate)))] else [])
  }

  /** The whole report for an item and its (sorted, state-filtered) entries. */
  function LedgerOf(item: Item, entries: seq<LedgerEntry>, startDate: string, endDate: string): StockLedgerReport {
    var start := StartingBalance(item, entries, startDate);
    StockLedgerReport([FirstLine(item, entries, startDate)] + Lines(entries, startDate, endDate, start),
                      Total(entries, ShownIn(startDate, endDate)), Total(entries, ShownOut(startDate, endDate)),
                      start + Total(entries, ShownNet(startDate, endDate)))
  }

  /** The `forEach` that adds up the net of every entry dated before the start date. */
  method CarriedForward(item: Item, entries: seq<LedgerEntry>, startDate: string) returns (balance: int)
    requires startDate != []
    ensures balance == StartingBalance(item, entries, startDate)
  {
    balance := item.openingBalance;
    var i := 0;
    while i < |entries|
      invariant 0 <= i <= |entries|
      invariant balance == item.openingBalance + Total(entries[..i], CarriedTerm(startDate))
    {
      assert entries[..i + 1][..i] == entries[..i];
      if BeforeStart(entries[i], startDate) {
        balance := balance + (entries[i].inQty - entries[i].outQty);
      }
      i := i + 1;
    }
    assert entries[..|entries|] == entries;
  }

  /**
   * The `forEach` over the entries in time order: each entry in the date
   * range adds its in minus its out to the running balance, its in and out
   * to the totals, and a line with the new balance.
   */
  method WalkEntries(entries: seq<LedgerEntry>, startDate: string, endDate: string, start: int, first: LedgerLine)
    returns (lines: seq<LedgerLine>, totalIn: int, totalOut: int, running: int)
    ensures lines == [first] + Lines(entries, startDate, endDate, start)
    ensures totalIn == Total(entries, ShownIn(startDate, endDate))
    ensures totalOut == Total(entries, ShownOut(startDate, endDate))
    ensures running == start + Total(entries, ShownNet(startDate, endDate))
  {
    running := start;
    lines := [first];
    totalIn, totalOut := 0, 0;
    var j := 0;
    while j < |entries|
      invariant 0 <= j <= |entries|
      invariant running == start + Total(entries[..j], ShownNet(startDate, endDate))
      invariant totalIn == Total(entries[..j], ShownIn(startDate, endDate))
      invariant totalOut == Total(entries[..j], ShownOut(startDate, endDate))
      invariant lines == [first] + Lines(entries[..j], startDate, endDate, start)
    {
      var e := entries[j];
      assert entries[..j + 1][..j] == entries[..j];
      if InDateRange(e.timestamp, startDate, endDate) {
        running := running + (e.inQty - e.outQty);
        totalIn := totalIn + e.inQty;
        totalOut := totalOut + e.outQty;
        lines := lines + [LineOf(e, running)];
      }
      j := j + 1;
    }
    assert entries[..|entries|] == entries;
  }

  /**
   * `stockLedger`: no item chosen, or an unknown one, gives an empty report;
   * otherwise the carried-forward balance is summed first, then the entries
   * in the date range are walked in time order.
   */
  method StockLedger(items: seq<Item>, ms: seq<Movement>, cs: seq<Custody>, filterItemId: string,
                     startDate: string, endDate: string, filterState: Option<CustodyState>)
    returns (report: StockLedgerReport)
    ensures filterItemId == [] || FindItem(items, filterItemId).None? ==> report == StockLedgerReport([], 0, 0, 0)
    ensures filterItemId != [] && FindItem(items, filterItemId).Some? ==>
              report == LedgerOf(FindItem(items, filterItemId).value, ReportEntries(ms, cs, filterItemId, filterState), startDate, endDate)
  {
    if filterItemId == [] {
      return StockLedgerReport([], 0, 0, 0);
    }
    var found := FindItem(items, filterItemId);
    if found.None? {
      return StockLedgerReport([], 0, 0, 0);
    }
    var item := found.value;
    var entries := ReportEntries(ms, cs, filterItemId, filterState);
    var start := item.openingBalance;
    if startDate != [] {
      start := CarriedForward(item, entries, startDate);
    }
    var lines, totalIn, totalOut, running := WalkEntries(entries, startDate, endDate, start, FirstLine(item, entries, startDate));
    report := StockLedgerReport(lines, totalIn, totalOut, running);
  }

  lemma {:induction false} LinesShape(entries: seq<LedgerEntry>, startDate: string, endDate: string, start: int,
                                      ls: seq<LedgerLine>)
    requires ls == Lines(entries, startDate, endDate, start)
    ensures ls == [] ==> Total(entries, ShownNet(startDate, endDate)) == 0
    ensures ls != [] ==> ls[|ls| - 1].balance == start + Total(entries, ShownNet(startDate, endDate))
    ensures ls != [] ==> ls[0].balance == start + ls[0].inQty - ls[0].outQty
    ensures forall k :: 0 < k < |ls| ==> ls[k].balance == ls[k - 1].balance + ls[k].inQty - ls[k].outQty
    decreases |entries|
  {
    if entries != [] {
      var pre := entries[..|entries| - 1];
      var last := entries[|entries| - 1];
      var f := ShownNet(startDate, endDate);
      var p := Lines(pre, startDate, endDate, start);
      LinesShape(pre, startDate, endDate, start, p);
      assert Total(entries, f) == Total(pre, f) + f(last);
      if InDateRange(last.timestamp, startDate, endDate) {
        var l := LineOf(last, start + Total(entries, f));
        assert ls == p + [l];
        assert l.balance == start + Total(pre, f) + l.inQty - l.outQty;
        forall k | 0 < k < |ls| ensures ls[k].balance == ls[k - 1].balance + ls[k].inQty - ls[k].outQty {
          assert ls[k - 1] == p[k - 1];
          if k < |p| { assert ls[k] == p[k]; }
        }
      } else {
        assert ls == p;
      }
    }
  }

  /**
   * Each line's balance is the previous line's plus its in minus its out,
   * the last line shows the final balance, and the final balance is the
   * starting balance plus the total in minus the total out.
   */
  lemma RunningBalanceChains(item: Item, entries: seq<LedgerEntry>, startDate: string, endDate: string, report: StockLedgerReport)
    requires report == LedgerOf(item, entries, startDate, endDate)
    ensures forall k :: 0 < k < |report.lines| ==>
              report.lines[k].balance == report.lines[k - 1].balance + report.lines[k].inQty - report.lines[k].outQty
    ensures report.lines[|report.lines| - 1].balance == report.final
    ensures report.final == StartingBalance(item, entries, startDate) + report.totalIn - report.totalOut
  {
    var start := StartingBalance(item, entries, startDate);
    var ls := Lines(entries, startDate, endDate, start);
    LinesShape(entries, startDate, endDate, start, ls);
    ShownSplits(entries, startDate, endDate);
    var first := FirstLine(item, entries, startDate);
    assert report.lines == [first] + ls;
    assert first.balance == start;
    if ls != [] {
      assert report.lines[1] == ls[0];
      assert report.lines[|report.lines| - 1] == ls[|ls| - 1];
    } else {
      assert report.lines == [first];
    }
  }

  lemma {:induction false} ShownSplits(entries: seq<LedgerEntry>, startDate: string, endDate: string)
    ensures Total(entries, ShownNet(startDate, endDate))
            == Total(entries, ShownIn(startDate, endDate)) - Total(entries, ShownOut(startDate, endDate))
    decreases |entries|
  {
    if entries != [] {
      ShownSplits(entries[..|entries| - 1], startDate, endDate);
    }
  }

  lemma {:induction false} CarriedPlusShown(entries: seq<LedgerEntry>, startDate: string)
    ensures Total(entries, CarriedTerm(startDate)) + Total(entries, ShownNet(startDate, [])) == Total(entries, EntryNet)
    decreases |entries|
  {
    if entries != [] {
      CarriedPlusShown(entries[..|entries| - 1], startDate);
    }
  }

  lemma {:induction false} AllShown(entries: seq<LedgerEntry>)
    ensures Total(entries, ShownNet([], [])) == Total(entries, EntryNet)
    decreases |entries|
  {
    if entries != [] {
      AllShown(entries[..|entries| - 1]);
    }
  }

  /**
   * With no end date, the final balance does not depend on the start date:
   * what the start date leaves out of the shown lines is carried forward.
   */
  lemma CarriedForwardKeepsFinal(item: Item, entries: seq<LedgerEntry>, startDate: string)
    ensures LedgerOf(item, entries, startDate, []).final == LedgerOf(item, entries, [], []).final
  {
    CarriedPlusShown(entries, startDate);
    AllShown(entries);
  }

  /**
   * With no date bounds and every state shown, the final balance is the
   * opening balance plus every stock movement's net effect and every custody
   * event's effect, whatever its state and audit-only flag.
   */
  lemma LedgerFinalMatchesLogs(item: Item, ms: seq<Movement>, cs: seq<Custody>, id: string)
    requires forall k :: 0 <= k < |ms| ==> ms[k].returnedQuantity >= 0
    ensures LedgerOf(item, ReportEntries(ms, cs, id, None), [], []).final
            == item.openingBalance + MovementSum(ms, id) + CustodyNet(cs, id)
  {
    var raw := MovementEntries(ms, id) + CustodyEntries(cs, id);
    AllShown(ReportEntries(ms, cs, id, None));
    SortTotal(raw, EntryTime, false, EntryNet);
    TotalConcat(MovementEntries(ms, id), CustodyEntries(cs, id), EntryNet);
    MovementEntriesNet(ms, id);
    CustodyEntriesNet(cs, id);
  }

  // ---------------------------------------------------------------------
  // Employee clearance
  // ---------------------------------------------------------------------

  /** Returned quantities of one item, by the state they came back in. */
  datatype ReturnsDetail = ReturnsDetail(newQty: int, usedQty: int, scrapQty: int)

  /** One item of an employee's clearance statement. */
  datatype ClearanceRow = ClearanceRow(name: string, code: string, outQty: int, inQty: int, net: int, byState: ReturnsDetail)

  datatype Clearance = Clearance(employee: Option<Named>, rows: map<string, ClearanceRow>)

  function HandedTerm(emp: string, id: string): Custody -> int {
    (c: Custody) => if c.employeeId == emp && c.itemId == id && c.kind == Handover then c.quantity else 0
  }

  function ReturnedTerm(emp: string, id: string): Custody -> int {
    (c: Custody) => if c.employeeId == emp && c.itemId == id && c.kind == Return then c.quantity else 0
  }

  function ReturnedInTerm(emp: string, id: string, state: CustodyState): Custody -> int {
    (c: Custody) => if c.employeeId == emp && c.itemId == id && c.kind == Return && c.state == state then c.quantity else 0
  }

  function SettledTerm(emp: string, id: string): Custody -> int {
    (c: Custody) => if c.employeeId == emp && c.itemId == id && c.kind == Settlement then c.quantity else 0
  }

  /** The statement's row for an item: everything handed over, everything returned (and by state), and the difference. */
  function ClearanceRowOf(item: Item, cs: seq<Custody>, emp: string): ClearanceRow {
    var handed := Total(cs, HandedTerm(emp, item.id));
    var returned := Total(cs, ReturnedTerm(emp, item.id));
    ClearanceRow(item.name, item.code, handed, returned, handed - returned,
                 ReturnsDetail(Total(cs, ReturnedInTerm(emp, item.id, New)), Total(cs, ReturnedInTerm(emp, item.id, Used)),
                               Total(cs, ReturnedInTerm(emp, item.id, Scrap))))
  }

  lemma {:induction false} UnconcernedHandedNothing(cs: seq<Custody>, emp: string, id: string)
    requires !Concerns(cs, emp, id)
    ensures Total(cs, HandedTerm(emp, id)) == 0
    decreases |cs|
  {
    if cs != [] {
      var init := cs[..|cs| - 1];
      forall k | 0 <= k < |init| ensures !(init[k].employeeId == emp && init[k].itemId == id) {
        assert cs[k] == init[k];
      }
      UnconcernedHandedNothing(init, emp, id);
    }
  }

  /** What one more event of the employee does to its item's row. */
  function Counted(row: ClearanceRow, c: Custody): ClearanceRow {
    var r := if c.kind == Handover then row.(outQty := row.outQty + c.quantity)
             else if c.kind == Return then
               row.(inQty := row.inQty + c.quantity,
                    byState := match c.state
                               case New => row.byState.(newQty := row.byState.newQty + c.quantity)
                               case Used => row.byState.(usedQty := row.byState.usedQty + c.quantity)
                               case Scrap => row.byState.(scrapQty := row.byState.scrapQty + c.quantity))
             else row;
    r.(net := r.outQty - r.inQty)
  }

  lemma ClearanceRowSnoc(item: Item, cs: seq<Custody>, c: Custody, emp: string)
    requires c.employeeId == emp && c.itemId == item.id
    ensures ClearanceRowOf(item, cs + [c], emp) == Counted(ClearanceRowOf(item, cs, emp), c)
  {
    assert (cs + [c])[..|cs|] == cs;
  }

  lemma ClearanceRowOther(item: Item, cs: seq<Custody>, c: Custody, emp: string)
    requires !(c.employeeId == emp && c.itemId == item.id)
    ensures ClearanceRowOf(item, cs + [c], emp) == ClearanceRowOf(item, cs, emp)
  {
    assert (cs + [c])[..|cs|] == cs;
  }

  lemma {:induction false} UnconcernedRowIsEmpty(item: Item, cs: seq<Custody>, emp: string)
    requires !Concerns(cs, emp, item.id)
    ensures ClearanceRowOf(item, cs, emp) == ClearanceRow(item.name, item.code, 0, 0, 0, ReturnsDetail(0, 0, 0))
    decreases |cs|
  {
    if cs != [] {
      var init := cs[..|cs| - 1];
      forall k | 0 <= k < |init| ensures !(init[k].employeeId == emp && init[k].itemId == item.id) {
        assert cs[k] == init[k];
      }
      UnconcernedRowIsEmpty(item, init, emp);
      assert init + [cs[|cs| - 1]] == cs;
      ClearanceRowOther(item, init, cs[|cs| - 1], emp);
    }
  }

  function EmptyClearanceRow(item: Item): ClearanceRow {
    ClearanceRow(item.name, item.code, 0, 0, 0, ReturnsDetail(0, 0, 0))
  }

  /** The summary holds one row per known item the events concern, as the events so far add it up. */
  ghost predicate SummaryOf(summary: map<string, ClearanceRow>, items: seq<Item>, cs: seq<Custody>, emp: string) {
    && (forall id :: id in summary <==> FindItem(items, id).Some? && Concerns(cs, emp, id))
    && (forall id :: id in summary ==> summary[id] == ClearanceRowOf(FindItem(items, id).value, cs, emp))
  }

  /** An event of another employee or of an unknown item leaves the summary as it is. */
  lemma ClearanceSkips(summary: map<string, ClearanceRow>, items: seq<Item>, cs: seq<Custody>, i: nat, emp: string)
    requires i < |cs| && SummaryOf(summary, items, cs[..i], emp)
    requires !(cs[i].employeeId == emp && FindItem(items, cs[i].itemId).Some?)
    ensures SummaryOf(summary, items, cs[..i + 1], emp)
  {
    assert cs[..i + 1] == cs[..i] + [cs[i]];
    ClearanceSkipsSnoc(summary, items, cs[..i], cs[i], emp);
  }

  lemma ClearanceSkipsSnoc(summary: map<string, ClearanceRow>, items: seq<Item>, prev: seq<Custody>, c: Custody, emp: string)
    requires SummaryOf(summary, items, prev, emp)
    requires !(c.employeeId == emp && FindItem(items, c.itemId).Some?)
    ensures SummaryOf(summary, items, prev + [c], emp)
  {
    forall id ensures id in summary <==> FindItem(items, id).Some? && Concerns(prev + [c], emp, id) {
      ConcernsSnoc(prev, c, emp, id);
    }
    forall id | id in summary ensures summary[id] == ClearanceRowOf(FindItem(items, id).value, prev + [c], emp) {
      ClearanceRowOther(FindItem(items, id).value, prev, c, emp);
    }
  }

  /** An event of the employee on a known item opens the item's row if needed and is counted in it. */
  lemma ClearanceCounts(summary: map<string, ClearanceRow>, items: seq<Item>, cs: seq<Custody>, i: nat, emp: string,
                        item: Item, row: ClearanceRow)
    requires i < |cs| && SummaryOf(summary, items, cs[..i], emp)
    requires cs[i].employeeId == emp && FindItem(items, cs[i].itemId) == Some(item)
    requires row == if cs[i].itemId in summary then summary[cs[i].itemId] else EmptyClearanceRow(item)
    ensures SummaryOf(summary[cs[i].itemId := Counted(row, cs[i])], items, cs[..i + 1], emp)
  {
    var c := cs[i];
    var after := summary[c.itemId := Counted(row, c)];
    assert cs[..i + 1] == cs[..i] + [c];
    forall id ensures id in after <==> FindItem(items, id).Some? && Concerns(cs[..i] + [c], emp, id) {
      ConcernsSnoc(cs[..i], c, emp, id);
    }
    ClearanceCountsValues(summary, items, cs[..i], c, emp, item, row);
  }

  lemma ClearanceCountsValues(summary: map<string, ClearanceRow>, items: seq<Item>, cs: seq<Custody>, c: Custody, emp: string,
                              item: Item, row: ClearanceRow)
    requires SummaryOf(summary, items, cs, emp)
    requires c.employeeId == emp && FindItem(items, c.itemId) == Some(item)
    requires row == if c.itemId in summary then summary[c.itemId] else EmptyClearanceRow(item)
    ensures forall id :: id in summary[c.itemId := Counted(row, c)] ==>
              summary[c.itemId := Counted(row, c)][id] == ClearanceRowOf(FindItem(items, id).value, cs + [c], emp)
  {
    assert Counted(row, c) == ClearanceRowOf(item, cs + [c], emp) by {
      if c.itemId !in summary {
        UnconcernedRowIsEmpty(item, cs, emp);
      }
      ClearanceRowSnoc(item, cs, c, emp);
    }
    forall id | id in summary && id != c.itemId ensures summary[id] == ClearanceRowOf(FindItem(items, id).value, cs + [c], emp) {
      ClearanceRowOther(FindItem(items, id).value, cs, c, emp);
    }
  }

  /** A row of the finished summary has something handed over exactly when the employee was handed some of a known item. */
  lemma ListedIffHanded(summary: map<string, ClearanceRow>, items: seq<Item>, cs: seq<Custody>, emp: string)
    requires SummaryOf(summary, items, cs, emp)
    ensures forall id :: (id in summary && summary[id].outQty > 0) <==> FindItem(items, id).Some? && Total(cs, HandedTerm(emp, id)) > 0
  {
    forall id | FindItem(items, id).Some? && !Concerns(cs, emp, id) ensures Total(cs, HandedTerm(emp, id)) == 0 {
      UnconcernedHandedNothing(cs, emp, id);
    }
  }

  /**
   * `employeeClearanceData`: with no employee chosen there is no statement;
   * otherwise the employee's events are walked, skipping those of unknown
   * items, and a row per item adds up hand-overs as out and returns as in
   * (settlements open a row but add nothing). Only items with something
   * handed over are listed.
   */
  method EmployeeClearance(items: seq<Item>, cs: seq<Custody>, employees: seq<Named>, emp: string)
    returns (r: Option<Clearance>)
    ensures r.Some? <==> emp != []
    ensures r.Some? ==> r.value.employee == FindNamed(employees, emp)
    ensures r.Some? ==> forall id :: id in r.value.rows <==> FindItem(items, id).Some? && Total(cs, HandedTerm(emp, id)) > 0
    ensures r.Some? ==> forall id :: id in r.value.rows ==> r.value.rows[id] == ClearanceRowOf(FindItem(items, id).value, cs, emp)
  {
    if emp == [] {
      return None;
    }
    var summary: map<string, ClearanceRow> := map[];
    var i := 0;
    while i < |cs|
      invariant 0 <= i <= |cs|
      invariant SummaryOf(summary, items, cs[..i], emp)
    {
      var c := cs[i];
      var found := FindItem(items, c.itemId);
      if c.employeeId == emp && found.Some? {
        var row := if c.itemId in summary then summary[c.itemId] else EmptyClearanceRow(found.value);
        ClearanceCounts(summary, items, cs, i, emp, found.value, row);
        summary := summary[c.itemId := Counted(row, c)];
      } else {
        ClearanceSkips(summary, items, cs, i, emp);
      }
      i := i + 1;
    }
    assert cs[..|cs|] == cs;
    ListedIffHanded(summary, items, cs, emp);
    r := Some(Clearance(FindNamed(employees, emp), map id | id in summary && summary[id].outQty > 0 :: summary[id]));
  }

  lemma {:induction false} StatesSplitClearance(cs: seq<Custody>, emp: string, id: string)
    ensures Total(cs, TakenTerm(emp, id, New)) + Total(cs, TakenTerm(emp, id, Used)) + Total(cs, TakenTerm(emp, id, Scrap))
            == Total(cs, HandedTerm(emp, id))
    ensures Total(cs, GivenBackTerm(emp, id, New)) + Total(cs, GivenBackTerm(emp, id, Used))
            + Total(cs, GivenBackTerm(emp, id, Scrap))
            == Total(cs, ReturnedTerm(emp, id)) + Total(cs, SettledTerm(emp, id))
    decreases |cs|
  {
    if cs != [] {
      StatesSplitClearance(cs[..|cs| - 1], emp, id);
    }
  }

  /**
   * What the employee holds of the item over its three states, as the
   * custody screen computes it, is the statement's net less what was
   * settled: the statement counts returns only, the custody screen
   * settlements too.
   */
  lemma ClearanceNetVersusHolding(item: Item, cs: seq<Custody>, emp: string)
    ensures EmployeeItemBalance(cs, emp, item.id, New) + EmployeeItemBalance(cs, emp, item.id, Used)
            + EmployeeItemBalance(cs, emp, item.id, Scrap)
            == ClearanceRowOf(item, cs, emp).net - Total(cs, SettledTerm(emp, item.id))
  {
    StatesSplitClearance(cs, emp, item.id);
  }

  // ---------------------------------------------------------------------
  // Net consumption (quantities)
  // ---------------------------------------------------------------------

  datatype ConsumptionFilter = ConsumptionFilter(startDate: string, endDate: string, itemId: string,
                                                 employeeId: string, warehouseId: string)

  /** The movements the report counts: OUTWARD ones passing the date, item, employee and warehouse filters ("ALL" for any warehouse). */
  predicate Consumes(m: Movement, f: ConsumptionFilter) {
    && m.kind == Outward
    && InDateRange(m.timestamp, f.startDate, f.endDate)
    && (f.itemId == [] || m.itemId == f.itemId)
    && (f.employeeId == [] || m.employeeId == Some(f.employeeId))
    && (f.warehouseId == "ALL" || m.warehouseId == Some(f.warehouseId))
  }

  datatype ConsumptionRow = ConsumptionRow(id: string, name: string, code: string, totalOut: int, totalReturns: int, netQty: int)

  function IssuedTerm(f: ConsumptionFilter, id: string): Movement -> int {
    (m: Movement) => if Consumes(m, f) && m.itemId == id then m.quantity else 0
  }

  function ReturnedBackTerm(f: ConsumptionFilter, id: string): Movement -> int {
    (m: Movement) => if Consumes(m, f) && m.itemId == id then m.returnedQuantity else 0
  }

  predicate Consumed(ms: seq<Movement>, f: ConsumptionFilter, id: string) {
    exists k :: 0 <= k < |ms| && Consumes(ms[k], f) && ms[k].itemId == id
  }

  const UnknownItemName: string := "مجهول"

  /** The row's name and code: the item's, or placeholders when the item is unknown or the text empty. */
  function ConsumptionHead(items: seq<Item>, id: string): ConsumptionRow {
    var found := FindItem(items, id);
    ConsumptionRow(id, if found.Some? && found.value.name != [] then found.value.name else UnknownItemName,
                   if found.Some? && found.value.code != [] then found.value.code else NoNote, 0, 0, 0)
  }

  function ConsumptionRowOf(items: seq<Item>, ms: seq<Movement>, f: ConsumptionFilter, id: string): ConsumptionRow {
    ConsumptionHead(items, id).(totalOut := Total(ms, IssuedTerm(f, id)), totalReturns := Total(ms, ReturnedBackTerm(f, id)))
  }

  lemma ConsumedSnoc(ms: seq<Movement>, m: Movement, f: ConsumptionFilter, id: string)
    ensures Consumed(ms + [m], f, id) <==> Consumed(ms, f, id) || (Consumes(m, f) && m.itemId == id)
  {
    var t := ms + [m];
    if Consumed(ms, f, id) {
      var k :| 0 <= k < |ms| && Consumes(ms[k], f) && ms[k].itemId == id;
      assert t[k] == ms[k];
    }
    if Consumes(m, f) && m.itemId == id {
      assert t[|ms|] == m;
    }
    if Consumed(t, f, id) {
      var k :| 0 <= k < |t| && Consumes(t[k], f) && t[k].itemId == id;
      if k < |ms| { assert t[k] == ms[k]; }
    }
  }

  lemma {:induction false} UnconsumedIsEmpty(items: seq<Item>, ms: seq<Movement>, f: ConsumptionFilter, id: string)
    requires !Consumed(ms, f, id)
    ensures ConsumptionRowOf(items, ms, f, id) == ConsumptionHead(items, id)
    decreases |ms|
  {
    if ms != [] {
      var init := ms[..|ms| - 1];
      forall k | 0 <= k < |init| ensures !(Consumes(init[k], f) && init[k].itemId == id) {
        assert ms[k] == init[k];
      }
      UnconsumedIsEmpty(items, init, f, id);
    }
  }

  /** The rows hold one entry per item the counted movements so far concern, adding them up. */
  ghost predicate RowsOf(rows: map<string, ConsumptionRow>, items: seq<Item>, ms: seq<Movement>, f: ConsumptionFilter) {
    && (forall id :: id in rows <==> Consumed(ms, f, id))
    && (forall id :: id in rows ==> rows[id] == ConsumptionRowOf(items, ms, f, id))
  }

  function AddConsumed(row: ConsumptionRow, m: Movement): ConsumptionRow {
    row.(totalOut := row.totalOut + m.quantity, totalReturns := row.totalReturns + m.returnedQuantity)
  }

  /** One turn of the loop: a counted movement opens its item's row if needed and is added to it. */
  lemma ConsumptionStep(rows: map<string, ConsumptionRow>, items: seq<Item>, ms: seq<Movement>, m: Movement, f: ConsumptionFilter)
    requires RowsOf(rows, items, ms, f)
    ensures Consumes(m, f) ==>
              RowsOf(rows[m.itemId := AddConsumed(if m.itemId in rows then rows[m.itemId] else ConsumptionHead(items, m.itemId), m)],
                     items, ms + [m], f)
    ensures !Consumes(m, f) ==> RowsOf(rows, items, ms + [m], f)
  {
    var after := if Consumes(m, f)
                 then rows[m.itemId := AddConsumed(if m.itemId in rows then rows[m.itemId] else ConsumptionHead(items, m.itemId), m)]
                 else rows;
    forall id ensures id in after <==> Consumed(ms + [m], f, id) {
      ConsumedSnoc(ms, m, f, id);
    }
    if Consumes(m, f) && m.itemId !in rows {
      UnconsumedIsEmpty(items, ms, f, m.itemId);
    }
    forall id | id in after ensures after[id] == ConsumptionRowOf(items, ms + [m], f, id) {
      RowOfSnoc(items, ms, m, f, id);
    }
  }

  /** A further movement adds to its item's row exactly when it is counted. */
  lemma RowOfSnoc(items: seq<Item>, ms: seq<Movement>, m: Movement, f: ConsumptionFilter, id: string)
    ensures ConsumptionRowOf(items, ms + [m], f, id)
            == if Consumes(m, f) && m.itemId == id then AddConsumed(ConsumptionRowOf(items, ms, f, id), m)
               else ConsumptionRowOf(items, ms, f, id)
  {
    assert (ms + [m])[..|ms|] == ms;
  }

  /**
   * `netConsumptionData`, quantities only: the counted movements are walked
   * and a row per item adds up what was issued and what came back; the net
   * quantity is the difference.
   */
  method NetConsumption(items: seq<Item>, ms: seq<Movement>, f: ConsumptionFilter) returns (report: map<string, ConsumptionRow>)
    ensures forall id :: id in report <==> Consumed(ms, f, id)
    ensures forall id :: id in report ==>
              report[id] == ConsumptionRowOf(items, ms, f, id).(netQty := Total(ms, IssuedTerm(f, id)) - Total(ms, ReturnedBackTerm(f, id)))
  {
    var rows: map<string, ConsumptionRow> := map[];
    var i := 0;
    while i < |ms|
      invariant 0 <= i <= |ms|
      invariant RowsOf(rows, items, ms[..i], f)
    {
      var m := ms[i];
      assert ms[..i + 1] == ms[..i] + [m];
      ConsumptionStep(rows, items, ms[..i], m, f);
      if Consumes(m, f) {
        var row := if m.itemId in rows then rows[m.itemId] else ConsumptionHead(items, m.itemId);
        rows := rows[m.itemId := AddConsumed(row, m)];
      }
      i := i + 1;
    }
    assert ms[..|ms|] == ms;
    report := map id | id in rows :: rows[id].(netQty := rows[id].totalOut - rows[id].totalReturns);
  }

  /** The filter that lets every movement through: no dates, no item, no employee, every warehouse. */
  const NoConsumptionFilter: ConsumptionFilter := ConsumptionFilter([], [], [], [], "ALL")

  function InwardNetTerm(id: string): Movement -> int {
    (m: Movement) => if m.itemId == id && m.kind == Inward then MovementNet(m) else 0
  }

  /**
   * Unfiltered, an item's net consumption is what its OUTWARD movements took
   * out of the NEW stock: the stock ledger's movement sum is what came in
   * net of returns, less the net consumption.
   */
  lemma {:induction false} ConsumptionMatchesStock(ms: seq<Movement>, id: string)
    ensures MovementSum(ms, id)
            == Total(ms, InwardNetTerm(id)) - (Total(ms, IssuedTerm(NoConsumptionFilter, id)) - Total(ms, ReturnedBackTerm(NoConsumptionFilter, id)))
    decreases |ms|
  {
    if ms != [] {
      ConsumptionMatchesStock(ms[..|ms| - 1], id);
    }
  }

  // ---------------------------------------------------------------------
  // Archives
  // ---------------------------------------------------------------------

  /** What the archive filters look at: the date range, one item (or all) and a search text. */
  datatype ArchiveFilter = ArchiveFilter(startDate: string, endDate: string, itemId: string, employeeId: string, search: string)

  /** The note marking an inventory settlement movement ("تسوية جردية"). */
  const AuditTag: string := "تسوية" + " جردية"

  /** An entry of the settlement archive: an inventory settlement movement or a custody settlement. */
  datatype SettlementRecord = StorageRecord(m: Movement) | CustodyRecord(c: Custody)

  function RecordTime(r: SettlementRecord): string {
    match r
    case StorageRecord(m) => m.timestamp
    case CustodyRecord(c) => c.timestamp
  }

  function RecordItem(r: SettlementRecord): string {
    match r
    case StorageRecord(m) => m.itemId
    case CustodyRecord(c) => c.itemId
  }

  predicate IsAuditMovement(m: Movement) {
    m.note.Some? && Contains(m.note.value, AuditTag)
  }

  /** The inventory settlement movements, then the custody settlements, each in log order. */
  function SettlementRecords(ms: seq<Movement>, cs: seq<Custody>): (r: seq<SettlementRecord>)
    ensures forall m :: StorageRecord(m) in r <==> m in ms && IsAuditMovement(m)
    ensures forall c :: CustodyRecord(c) in r <==> c in cs && c.kind == Settlement
  {
    StorageRecords(Filter(ms, IsAuditMovement)) + CustodyRecords(Filter(cs, (c: Custody) => c.kind == Settlement))
  }

  function StorageRecords(ms: seq<Movement>): (r: seq<SettlementRecord>)
    ensures forall m :: StorageRecord(m) in r <==> m in ms
    ensures forall c :: CustodyRecord(c) !in r
    decreases |ms|
  {
    if ms == [] then []
    else
      assert ms == [ms[0]] + ms[1..];
      [StorageRecord(ms[0])] + StorageRecords(ms[1..])
  }

  function CustodyRecords(cs: seq<Custody>): (r: seq<SettlementRecord>)
    ensures forall c :: CustodyRecord(c) in r <==> c in cs
    ensures forall m :: StorageRecord(m) !in r
    decreases |cs|
  {
    if cs == [] then []
    else
      assert cs == [cs[0]] + cs[1..];
      [CustodyRecord(cs[0])] + CustodyRecords(cs[1..])
  }

  /** The search text matches the item's name or code, ignoring case; an unknown item matches only an empty search. */
  predicate SearchHits(items: seq<Item>, id: string, search: string) {
    search == [] || (FindItem(items, id).Some? && (Matches(FindItem(items, id).value.name, search)
                                                   || Matches(FindItem(items, id).value.code, search)))
  }

  predicate SettlementShown(r: SettlementRecord, items: seq<Item>, f: ArchiveFilter) {
    && InDateRange(RecordTime(r), f.startDate, f.endDate)
    && (f.itemId == [] || RecordItem(r) == f.itemId)
    && SearchHits(items, RecordItem(r), f.search)
  }

  function SettlementShownIn(items: seq<Item>, f: ArchiveFilter): SettlementRecord -> bool {
    (x: SettlementRecord) => SettlementShown(x, items, f)
  }

  /** `inventoryArchive`: the settlements passing the filters, newest first. */
  function InventoryArchive(items: seq<Item>, ms: seq<Movement>, cs: seq<Custody>, f: ArchiveFilter): (r: seq<SettlementRecord>)
    ensures SortedBy(r, RecordTime, true)
    ensures forall x :: x in r <==> x in SettlementRecords(ms, cs) && SettlementShown(x, items, f)
  {
    SortedFilterMembers(SettlementRecords(ms, cs), SettlementShownIn(items, f), RecordTime, true);
    SortBy(Filter(SettlementRecords(ms, cs), SettlementShownIn(items, f)), RecordTime, true)
  }

  /** An entry of the returns archive. */
  datatype ReturnRecord = ReturnRecord(timestamp: string, docNumber: string, itemId: string, code: string, name: string,
                                       qty: int, state: CustodyState, employee: string, note: string)

  const ReturnAboutNote: string := "مرتجع" + " متعلق" + " بالسند "

  /**
   * A movement's return as the archive lists it: the return's document
   * number, the item's code and name, the returned quantity in the NEW
   * state, the employee's name (or the performer), and the note.
   */
  function ReturnRecordOf(m: Movement, items: seq<Item>, employees: seq<Named>): ReturnRecord {
    var found := FindItem(items, m.itemId);
    var empName := if m.employeeId.Some? && FindNamed(employees, m.employeeId.value).Some?
                   then FindNamed(employees, m.employeeId.value).value.name else [];
    ReturnRecord(m.timestamp, ReturnDocOf(m), m.itemId,
                 if found.Some? && found.value.code != [] then found.value.code else NoNote,
                 if found.Some? && found.value.name != [] then found.value.name else NoNote,
                 m.returnedQuantity, New,
                 if empName != [] then empName else if m.performedBy != [] then m.performedBy else NoNote,
                 TextOr(m.note, ReturnAboutNote + (if m.docNumber != [] then m.docNumber else NoNote)))
  }

  predicate ReturnShown(r: ReturnRecord, employees: seq<Named>, f: ArchiveFilter) {
    && (f.itemId == [] || r.itemId == f.itemId)
    && (f.employeeId == [] || (FindNamed(employees, f.employeeId).Some? && r.employee == FindNamed(employees, f.employeeId).value.name))
    && InDateRange(r.timestamp, f.startDate, f.endDate)
    && (f.search == [] || Matches(r.name, f.search) || Matches(r.code, f.search))
  }

  predicate HasReturn(m: Movement) { m.returnedQuantity > 0 }

  /** `movements.filter(m => m.returnedQuantity > 0).map(...)`: one record per movement with a return, in log order. */
  function ReturnRecords(ms: seq<Movement>, items: seq<Item>, employees: seq<Named>): (r: seq<ReturnRecord>)
    ensures forall k :: 0 <= k < |r| ==> r[k].qty > 0 && r[k].state == New
    decreases |ms|
  {
    if ms == [] then []
    else ReturnRecords(ms[..|ms| - 1], items, employees)
         + (if HasReturn(ms[|ms| - 1]) then [ReturnRecordOf(ms[|ms| - 1], items, employees)] else [])
  }

  /** The archive lists the return of every movement with one, and nothing else. */
  lemma {:induction false} ReturnRecordsExact(ms: seq<Movement>, items: seq<Item>, employees: seq<Named>, x: ReturnRecord)
    ensures x in ReturnRecords(ms, items, employees) <==>
            exists k :: 0 <= k < |ms| && HasReturn(ms[k]) && x == ReturnRecordOf(ms[k], items, employees)
    decreases |ms|
  {
    if ms != [] {
      var init := ms[..|ms| - 1];
      var last := ms[|ms| - 1];
      ReturnRecordsExact(init, items, employees, x);
      if exists k :: 0 <= k < |init| && HasReturn(init[k]) && x == ReturnRecordOf(init[k], items, employees) {
        var k :| 0 <= k < |init| && HasReturn(init[k]) && x == ReturnRecordOf(init[k], items, employees);
        assert ms[k] == init[k];
      }
      if exists k :: 0 <= k < |ms| && HasReturn(ms[k]) && x == ReturnRecordOf(ms[k], items, employees) {
        var k :| 0 <= k < |ms| && HasReturn(ms[k]) && x == ReturnRecordOf(ms[k], items, employees);
        if k < |init| { assert init[k] == ms[k]; }
      }
    }
  }

  function ReturnTime(r: ReturnRecord): string { r.timestamp }

  function ReturnShownIn(employees: seq<Named>, f: ArchiveFilter): ReturnRecord -> bool {
    (x: ReturnRecord) => ReturnShown(x, employees, f)
  }

  /** `returnsArchive`: the returns of movements passing the filters, newest first; each returned something. */
  function ReturnsArchive(ms: seq<Movement>, items: seq<Item>, employees: seq<Named>, f: ArchiveFilter): (r: seq<ReturnRecord>)
    ensures SortedBy(r, ReturnTime, true)
    ensures forall x :: x in r <==> x in ReturnRecords(ms, items, employees) && ReturnShown(x, employees, f)
    ensures forall k :: 0 <= k < |r| ==> r[k].qty > 0 && r[k].state == New
  {
    var all := ReturnRecords(ms, items, employees);
    SortedFilterMembers(all, ReturnShownIn(employees, f), ReturnTime, true);
    var r := SortBy(Filter(all, ReturnShownIn(employees, f)), ReturnTime, true);
    assert forall k :: 0 <= k < |r| ==> r[k] in r;
    r
  }
}
