/**
 * What every screen of the application shares: the in-memory state of one
 * financial year, the sign each log entry contributes to a balance, the sums
 * of those contributions over the two logs, and `find` by id.
 *
 * The sums are defined over a log prefix by prefix (the last entry is added
 * last), the order in which the screens' `forEach` loops visit them.
 */
module Ledger {
  import opened Types
  import opened Text

  /** The note text that marks a settlement as a surplus ("زيادة"). */
  const SurplusMarker: string := "زيادة"

  /** `c.note?.includes('زيادة')`. */
  predicate IsSurplusNote(note: Option<string>) {
    note.Some? && Contains(note.value, SurplusMarker)
  }

  /** The part of a movement that has not been returned. */
  function MovementNet(m: Movement): int {
    m.quantity - m.returnedQuantity
  }

  /** What a movement adds to its item's NEW stock. */
  function MovementEffect(m: Movement): int {
    if m.kind == Inward then MovementNet(m) else -MovementNet(m)
  }

  /** What a custody event adds to its item's stock in the event's state. */
  function CustodyEffect(c: Custody): int {
    match c.kind
    case Handover => -c.quantity
    case Return => c.quantity
    case Settlement => if IsSurplusNote(c.note) then c.quantity else -c.quantity
  }

  /** Sum of the effects of the movements of item `id`. */
  function MovementSum(ms: seq<Movement>, id: string): int
    decreases |ms|
  {
    if ms == [] then 0
    else MovementSum(ms[..|ms| - 1], id) + (if ms[|ms| - 1].itemId == id then MovementEffect(ms[|ms| - 1]) else 0)
  }

  /** Whether a custody event enters the balance of (`id`, `state`). */
  predicate CustodyCounts(c: Custody, id: string, state: CustodyState, skipAuditOnly: bool) {
    c.itemId == id && c.state == state && !(skipAuditOnly && c.auditOnly)
  }

  /**
   * Sum of the effects of the custody events of item `id` in `state`; with
   * `skipAuditOnly`, events flagged audit-only are passed over.
   */
  function CustodySum(cs: seq<Custody>, id: string, state: CustodyState, skipAuditOnly: bool): int
    decreases |cs|
  {
    if cs == [] then 0
    else CustodySum(cs[..|cs| - 1], id, state, skipAuditOnly)
         + (if CustodyCounts(cs[|cs| - 1], id, state, skipAuditOnly) then CustodyEffect(cs[|cs| - 1]) else 0)
  }

  /** The movement sum of two logs put together is the sum of their sums. */
  lemma {:induction false} MovementSumConcat(a: seq<Movement>, b: seq<Movement>, id: string)
    ensures MovementSum(a + b, id) == MovementSum(a, id) + MovementSum(b, id)
    decreases |b|
  {
    if b == [] {
      assert a + b == a;
    } else {
      assert (a + b)[..|a + b| - 1] == a + b[..|b| - 1];
      MovementSumConcat(a, b[..|b| - 1], id);
    }
  }

  /** Prepending a movement (what the screens do) adds exactly its own effect. */
  lemma MovementSumPrepend(m: Movement, ms: seq<Movement>, id: string)
    ensures MovementSum([m] + ms, id) == (if m.itemId == id then MovementEffect(m) else 0) + MovementSum(ms, id)
  {
    MovementSumConcat([m], ms, id);
    assert [m][..0] == [];
  }

  lemma {:induction false} CustodySumConcat(a: seq<Custody>, b: seq<Custody>, id: string, state: CustodyState, skip: bool)
    ensures CustodySum(a + b, id, state, skip) == CustodySum(a, id, state, skip) + CustodySum(b, id, state, skip)
    decreases |b|
  {
    if b == [] {
      assert a + b == a;
    } else {
      assert (a + b)[..|a + b| - 1] == a + b[..|b| - 1];
      CustodySumConcat(a, b[..|b| - 1], id, state, skip);
    }
  }

  /** Prepending a custody event adds its effect exactly when it counts for (`id`, `state`). */
  lemma CustodySumPrepend(c: Custody, cs: seq<Custody>, id: string, state: CustodyState, skip: bool)
    ensures CustodySum([c] + cs, id, state, skip)
            == (if CustodyCounts(c, id, state, skip) then CustodyEffect(c) else 0) + CustodySum(cs, id, state, skip)
  {
    CustodySumConcat([c], cs, id, state, skip);
    assert [c][..0] == [];
  }

  /** Audit-only events add nothing to a sum that skips them. */
  lemma {:induction false} AuditOnlySumZero(extra: seq<Custody>, id: string, state: CustodyState)
    requires forall k :: 0 <= k < |extra| ==> extra[k].auditOnly
    ensures CustodySum(extra, id, state, true) == 0
    decreases |extra|
  {
    if extra != [] {
      AuditOnlySumZero(extra[..|extra| - 1], id, state);
    }
  }

  /** Prepending audit-only events leaves a sum that skips them unchanged. */
  lemma AuditOnlyPrefixInvisible(extra: seq<Custody>, cs: seq<Custody>, id: string, state: CustodyState)
    requires forall k :: 0 <= k < |extra| ==> extra[k].auditOnly
    ensures CustodySum(extra + cs, id, state, true) == CustodySum(cs, id, state, true)
  {
    CustodySumConcat(extra, cs, id, state, true);
    AuditOnlySumZero(extra, id, state);
  }

  /** On a log with no audit-only events, skipping them or not gives the same sum. */
  lemma {:induction false} NoAuditOnlySkipIrrelevant(cs: seq<Custody>, id: string, state: CustodyState)
    requires forall k :: 0 <= k < |cs| ==> !cs[k].auditOnly
    ensures CustodySum(cs, id, state, true) == CustodySum(cs, id, state, false)
    decreases |cs|
  {
    if cs != [] {
      NoAuditOnlySkipIrrelevant(cs[..|cs| - 1], id, state);
    }
  }

  /** Sum of `f` over a sequence, first element first (a `reduce` with `+`). */
  function Total<T>(s: seq<T>, f: T -> int): int
    decreases |s|
  {
    if s == [] then 0 else Total(s[..|s| - 1], f) + f(s[|s| - 1])
  }

  lemma {:induction false} TotalConcat<T>(a: seq<T>, b: seq<T>, f: T -> int)
    ensures Total(a + b, f) == Total(a, f) + Total(b, f)
    decreases |b|
  {
    if b == [] {
      assert a + b == a;
    } else {
      assert (a + b)[..|a + b| - 1] == a + b[..|b| - 1];
      TotalConcat(a, b[..|b| - 1], f);
    }
  }

  lemma TotalPrepend<T>(x: T, s: seq<T>, f: T -> int)
    ensures Total([x] + s, f) == f(x) + Total(s, f)
  {
    TotalConcat([x], s, f);
    assert [x][..0] == [];
  }

  /** The `forEach` over the item's movements that accumulates the NEW balance. */
  method SumMovements(ms: seq<Movement>, id: string) returns (total: int)
    ensures total == MovementSum(ms, id)
  {
    total := 0;
    var i := 0;
    while i < |ms|
      invariant 0 <= i <= |ms|
      invariant total == MovementSum(ms[..i], id)
    {
      assert ms[..i + 1][..i] == ms[..i];
      if ms[i].itemId == id {
        total := total + MovementEffect(ms[i]);
      }
      i := i + 1;
    }
    assert ms[..|ms|] == ms;
  }

  /** The `forEach` over the item's custody events in one state. */
  method SumCustodies(cs: seq<Custody>, id: string, state: CustodyState, skipAuditOnly: bool) returns (total: int)
    ensures total == CustodySum(cs, id, state, skipAuditOnly)
  {
    total := 0;
    var i := 0;
    while i < |cs|
      invariant 0 <= i <= |cs|
      invariant total == CustodySum(cs[..i], id, state, skipAuditOnly)
    {
      assert cs[..i + 1][..i] == cs[..i];
      if CustodyCounts(cs[i], id, state, skipAuditOnly) {
        total := total + CustodyEffect(cs[i]);
      }
      i := i + 1;
    }
    assert cs[..|cs|] == cs;
  }

  /**
   * The opening seed used by the audit and balances screens: the opening
   * balance lies in NEW for a general item and in `initialState` for a
   * custody item.
   */
  function OpeningSeed(item: Item, state: CustodyState): int {
    if !item.isCustody && state == New then item.openingBalance
    else if item.isCustody && item.initialState == Some(state) then item.openingBalance
    else 0
  }

  /** `items.find(i => i.id === id)`: the first item with that id. */
  function FindItem(items: seq<Item>, id: string): (r: Option<Item>)
    ensures r.None? <==> forall k :: 0 <= k < |items| ==> items[k].id != id
    ensures r.Some? ==> r.value.id == id && r.value in items
    decreases |items|
  {
    if items == [] then None
    else if items[0].id == id then Some(items[0])
    else FindItem(items[1..], id)
  }

  /** What `find` returns is the item at the first position carrying the id. */
  lemma {:induction false} FindItemIsFirst(items: seq<Item>, id: string)
    requires FindItem(items, id).Some?
    ensures exists k :: 0 <= k < |items| && items[k] == FindItem(items, id).value && forall j :: 0 <= j < k ==> items[j].id != id
    decreases |items|
  {
    if items[0].id != id {
      FindItemIsFirst(items[1..], id);
      var k :| 0 <= k < |items[1..]| && items[1..][k] == FindItem(items, id).value && forall j :: 0 <= j < k ==> items[1..][j].id != id;
      assert items[k + 1] == FindItem(items, id).value;
      forall j | 0 <= j < k + 1 ensures items[j].id != id {
        if j > 0 { assert items[j] == items[1..][j - 1]; }
      }
    } else {
      assert items[0] == FindItem(items, id).value;
    }
  }

  /** `movements.find(m => m.id === id)`. */
  function FindMovement(ms: seq<Movement>, id: string): (r: Option<Movement>)
    ensures r.None? <==> forall k :: 0 <= k < |ms| ==> ms[k].id != id
    ensures r.Some? ==> r.value.id == id && r.value in ms
    decreases |ms|
  {
    if ms == [] then None
    else if ms[0].id == id then Some(ms[0])
    else FindMovement(ms[1..], id)
  }

  /** `employees.find(e => e.id === id)`. */
  function FindNamed(list: seq<Named>, id: string): (r: Option<Named>)
    ensures r.Some? ==> r.value.id == id && r.value in list
    ensures r.None? ==> forall k :: 0 <= k < |list| ==> list[k].id != id
    decreases |list|
  {
    if list == [] then None else if list[0].id == id then Some(list[0]) else FindNamed(list[1..], id)
  }

  /** Whether some custody event concerns (employee, item). */
  predicate Concerns(cs: seq<Custody>, emp: string, id: string) {
    exists k :: 0 <= k < |cs| && cs[k].employeeId == emp && cs[k].itemId == id
  }

  lemma ConcernsSnoc(cs: seq<Custody>, c: Custody, emp: string, id: string)
    ensures Concerns(cs + [c], emp, id) <==> Concerns(cs, emp, id) || (c.employeeId == emp && c.itemId == id)
  {
    if Concerns(cs, emp, id) {
      var k :| 0 <= k < |cs| && cs[k].employeeId == emp && cs[k].itemId == id;
      assert (cs + [c])[k] == cs[k];
    }
    if c.employeeId == emp && c.itemId == id {
      assert (cs + [c])[|cs|] == c;
    }
    if Concerns(cs + [c], emp, id) && !(c.employeeId == emp && c.itemId == id) {
      var k :| 0 <= k < |cs + [c]| && (cs + [c])[k].employeeId == emp && (cs + [c])[k].itemId == id;
      assert k < |cs| && cs[k] == (cs + [c])[k];
    }
  }

  /** `items.map(it => it.id === id ? { ...it, currentBalance: b } : it)`. */
  function SetBalance(items: seq<Item>, id: string, b: int): seq<Item> {
    seq(|items|, k requires 0 <= k < |items| =>
      if items[k].id == id then items[k].(currentBalance := b) else items[k])
  }

  /** Whether any movement or custody event carries the document number `doc`. */
  predicate DocNumberUsed(ms: seq<Movement>, cs: seq<Custody>, doc: string) {
    (exists k :: 0 <= k < |ms| && ms[k].docNumber == doc) || (exists k :: 0 <= k < |cs| && cs[k].docNumber == doc)
  }

  /**
   * The application state of the selected financial year: the three logs
   * the ledger screens update and the reference lists.
   */
  class Store {
    var items: seq<Item>
    var movements: seq<Movement>
    var custodies: seq<Custody>
    var units: seq<Named>
    var warehouses: seq<Named>
    var employees: seq<Named>
    var suppliers: seq<Supplier>
    var financialYears: seq<string>
    var selectedYear: string

    constructor (years: seq<string>, year: string)
      ensures items == [] && movements == [] && custodies == []
      ensures units == [] && warehouses == [] && employees == [] && suppliers == []
      ensures financialYears == years && selectedYear == year
    {
      items, movements, custodies := [], [], [];
      units, warehouses, employees, suppliers := [], [], [], [];
      financialYears, selectedYear := years, year;
    }
  }
}
