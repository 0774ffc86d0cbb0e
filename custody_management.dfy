/**
 * The custody screen: the stock balance of an item in one condition state,
 * what an employee holds of an item in one state, handing items over and
 * taking them back, the instant write-off of an employee's holding, and the
 * list of current holders.
 */
module CustodyManagement {
  import opened Types
  import opened Text
  import opened Ledger

  // ---------------------------------------------------------------------
  // Stock balance by state
  // ---------------------------------------------------------------------

  /**
   * The opening seed of this screen: `initialState` is checked first, for any
   * item; only then does a general item's opening balance go to NEW.
   */
  function StockSeed(item: Item, state: CustodyState): int {
    if item.initialState == Some(state) then item.openingBalance
    else if !item.isCustody && state == New then item.openingBalance
    else 0
  }

  /**
   * The stock balance of item `id` in `state`: the seed of the first item
   * with that id, its movements (NEW only) and all its custody events in
   * that state, audit-only ones included; not clamped. An unknown id has
   * balance 0.
   */
  function StockBalanceByState(items: seq<Item>, id: string, state: CustodyState, ms: seq<Movement>, cs: seq<Custody>): (r: int)
    ensures FindItem(items, id).None? ==> r == 0
  {
    match FindItem(items, id)
    case None => 0
    case Some(item) =>
      StockSeed(item, state) + (if state == New then MovementSum(ms, id) else 0) + CustodySum(cs, id, state, false)
  }

  /** The accumulating computation of the stock balance. */
  method GetStockBalanceByState(items: seq<Item>, id: string, state: CustodyState, ms: seq<Movement>, cs: seq<Custody>)
    returns (b: int)
    ensures b == StockBalanceByState(items, id, state, ms, cs)
  {
    var found := FindItem(items, id);
    if found.None? {
      return 0;
    }
    b := StockSeed(found.value, state);
    if state == New {
      var moved := SumMovements(ms, id);
      b := b + moved;
    }
    var held := SumCustodies(cs, id, state, false);
    b := b + held;
  }

  /** Changing `currentBalance` never changes a stock balance by state. */
  lemma {:induction false} SetBalanceKeepsStock(items: seq<Item>, target: string, nb: int, id: string, state: CustodyState,
                                               ms: seq<Movement>, cs: seq<Custody>)
    ensures StockBalanceByState(SetBalance(items, target, nb), id, state, ms, cs) == StockBalanceByState(items, id, state, ms, cs)
    decreases |items|
  {
    if items != [] {
      assert SetBalance(items, target, nb)[1..] == SetBalance(items[1..], target, nb);
      SetBalanceKeepsStock(items[1..], target, nb, id, state, ms, cs);
    }
  }

  // ---------------------------------------------------------------------
  // What an employee holds
  // ---------------------------------------------------------------------

  predicate SameHolding(c: Custody, emp: string, id: string, state: CustodyState) {
    c.employeeId == emp && c.itemId == id && c.state == state
  }

  function TakenTerm(emp: string, id: string, state: CustodyState): Custody -> int {
    (c: Custody) => if SameHolding(c, emp, id, state) && c.kind == Handover then c.quantity else 0
  }

  function GivenBackTerm(emp: string, id: string, state: CustodyState): Custody -> int {
    (c: Custody) => if SameHolding(c, emp, id, state) && (c.kind == Return || c.kind == Settlement) then c.quantity else 0
  }

  /**
   * What employee `emp` holds of item `id` in `state`: everything handed
   * over minus everything returned or settled, in that same state. It can be
   * negative: a return in another state than the hand-over is booked against
   * the state of the return.
   */
  function EmployeeItemBalance(cs: seq<Custody>, emp: string, id: string, state: CustodyState): int {
    Total(cs, TakenTerm(emp, id, state)) - Total(cs, GivenBackTerm(emp, id, state))
  }

  /** A new event changes what the employee holds only in its own (employee, item, state). */
  lemma EmployeeBalancePrepend(c: Custody, cs: seq<Custody>, emp: string, id: string, state: CustodyState)
    ensures EmployeeItemBalance([c] + cs, emp, id, state)
            == EmployeeItemBalance(cs, emp, id, state)
               + (if !SameHolding(c, emp, id, state) then 0 else if c.kind == Handover then c.quantity else -c.quantity)
  {
    TotalPrepend(c, cs, TakenTerm(emp, id, state));
    TotalPrepend(c, cs, GivenBackTerm(emp, id, state));
  }

  /**
   * A hand-over of `q` as NEW followed by a return of `q` as USED leaves the
   * employee holding `q` in NEW and -`q` in USED: a later return of `q` as
   * NEW still passes the NEW check, although nothing is held overall.
   */
  lemma CrossStateReturnLeavesNewDebt(h: Custody, r: Custody, cs: seq<Custody>, emp: string, id: string, q: nat)
    requires h.employeeId == emp && h.itemId == id && h.state == New && h.kind == Handover && h.quantity == q
    requires r.employeeId == emp && r.itemId == id && r.state == Used && r.kind == Return && r.quantity == q
    requires forall s :: EmployeeItemBalance(cs, emp, id, s) == 0
    ensures EmployeeItemBalance([r, h] + cs, emp, id, New) == q
    ensures EmployeeItemBalance([r, h] + cs, emp, id, Used) == -(q as int)
    ensures ReturnLimit([r, h] + cs, emp, id, New) == q
    ensures ReturnLimit([r, h] + cs, emp, id, Used) == 0
  {
    assert [r, h] + cs == [r] + ([h] + cs);
    forall s ensures EmployeeItemBalance([r, h] + cs, emp, id, s)
                     == (if s == New then q as int else if s == Used then -(q as int) else 0) {
      EmployeeBalancePrepend(h, cs, emp, id, s);
      EmployeeBalancePrepend(r, [h] + cs, emp, id, s);
    }
  }

  // ---------------------------------------------------------------------
  // Hand-over and return
  // ---------------------------------------------------------------------

  /**
   * The custody form: hand-over or return, the item, the employee, the
   * quantity (the digits-only field parsed, 0 when empty), the paper
   * document number, the note and the condition state.
   */
  datatype CustodyForm = CustodyForm(
    kind: CustodyType,
    itemId: string,
    employeeId: string,
    qty: nat,
    docNumber: string,
    note: string,
    state: CustodyState)

  /**
   * The most an employee may return in `state`: what they hold as NEW for a
   * NEW return, what they hold as NEW and USED together otherwise.
   */
  function ReturnLimit(cs: seq<Custody>, emp: string, id: string, state: CustodyState): int {
    if state == New then EmployeeItemBalance(cs, emp, id, New)
    else EmployeeItemBalance(cs, emp, id, New) + EmployeeItemBalance(cs, emp, id, Used)
  }

  /** How a saved event moves the item's `currentBalance`: -q for a hand-over, 0 for a SCRAP return, +q for another return. */
  function BalanceEffect(form: CustodyForm): int {
    if form.kind == Handover then -(form.qty as int)
    else if form.state == Scrap then 0
    else form.qty
  }

  function CustodyEntry(form: CustodyForm, id: string, now: string, performer: string, balanceAfter: int): Custody {
    Custody(id, form.itemId, form.employeeId, form.qty, form.state, form.kind, now, performer, form.docNumber,
            Some(form.note), Some(balanceAfter), false)
  }

  predicate FormIncomplete(form: CustodyForm) {
    form.itemId == [] || form.docNumber == [] || form.qty <= 0
  }

  /**
   * Saves a hand-over or a return. Incomplete forms are refused; an unknown
   * item is ignored; a hand-over above the stock balance in the chosen
   * state, a NEW return above what the employee holds as NEW, and another
   * return above what they hold as NEW and USED are refused. Otherwise the
   * event goes in front of the custody log with the item's new balance, and
   * every item with that id gets that balance.
   */
  method SaveCustody(st: Store, form: CustodyForm, id: string, now: string, performer: string) returns (outcome: Outcome)
    modifies st
    ensures unchanged(st`units, st`warehouses, st`employees, st`suppliers, st`financialYears, st`selectedYear)
    ensures st.movements == old(st.movements)
    ensures outcome != Accepted ==> st.items == old(st.items) && st.custodies == old(st.custodies)
    ensures outcome == Rejected(MissingFields) <==> FormIncomplete(form)
    ensures outcome == Ignored <==> !FormIncomplete(form) && FindItem(old(st.items), form.itemId).None?
    ensures outcome == Rejected(InsufficientStock) <==>
      && !FormIncomplete(form) && FindItem(old(st.items), form.itemId).Some? && form.kind == Handover
      && form.qty > StockBalanceByState(old(st.items), form.itemId, form.state, old(st.movements), old(st.custodies))
    ensures outcome == Rejected(StateTransitionViolation) <==>
      && !FormIncomplete(form) && FindItem(old(st.items), form.itemId).Some? && form.kind != Handover && form.state == New
      && form.qty > ReturnLimit(old(st.custodies), form.employeeId, form.itemId, New)
    ensures outcome == Rejected(InsufficientEmployeeDebt) <==>
      && !FormIncomplete(form) && FindItem(old(st.items), form.itemId).Some? && form.kind != Handover && form.state != New
      && form.qty > ReturnLimit(old(st.custodies), form.employeeId, form.itemId, form.state)
    ensures outcome in {Accepted, Ignored, Rejected(MissingFields), Rejected(InsufficientStock),
                        Rejected(StateTransitionViolation), Rejected(InsufficientEmployeeDebt)}
    ensures outcome == Accepted ==>
      var item := FindItem(old(st.items), form.itemId).value;
      var nb := item.currentBalance + BalanceEffect(form);
      && st.custodies == [CustodyEntry(form, id, now, performer, nb)] + old(st.custodies)
      && st.items == SetBalance(old(st.items), item.id, nb)
  {
    if FormIncomplete(form) {
      return Rejected(MissingFields);
    }
    var found := FindItem(st.items, form.itemId);
    if found.None? {
      return Ignored;
    }
    var item := found.value;
    if form.kind == Handover {
      var available := GetStockBalanceByState(st.items, form.itemId, form.state, st.movements, st.custodies);
      if form.qty > available {
        return Rejected(InsufficientStock);
      }
    } else if form.state == New {
      if form.qty > ReturnLimit(st.custodies, form.employeeId, form.itemId, New) {
        return Rejected(StateTransitionViolation);
      }
    } else {
      if form.qty > ReturnLimit(st.custodies, form.employeeId, form.itemId, form.state) {
        return Rejected(InsufficientEmployeeDebt);
      }
    }
    var nb := item.currentBalance + BalanceEffect(form);
    st.items := SetBalance(st.items, item.id, nb);
    st.custodies := [CustodyEntry(form, id, now, performer, nb)] + st.custodies;
    outcome := Accepted;
  }

  /**
   * An accepted hand-over lowers the item's stock balance in its state by
   * the quantity and, because the quantity was at most that balance, leaves
   * it non-negative; the employee then holds the quantity more in that state.
   */
  lemma HandoverMovesStockToEmployee(items: seq<Item>, ms: seq<Movement>, cs: seq<Custody>, form: CustodyForm,
                                     id: string, now: string, performer: string, nb: int)
    requires form.kind == Handover && !FormIncomplete(form)
    requires form.qty <= StockBalanceByState(items, form.itemId, form.state, ms, cs)
    requires FindItem(items, form.itemId).Some?
    ensures var e := CustodyEntry(form, id, now, performer, nb);
      && StockBalanceByState(SetBalance(items, form.itemId, nb), form.itemId, form.state, ms, [e] + cs)
         == StockBalanceByState(items, form.itemId, form.state, ms, cs) - form.qty
      && StockBalanceByState(SetBalance(items, form.itemId, nb), form.itemId, form.state, ms, [e] + cs) >= 0
      && EmployeeItemBalance([e] + cs, form.employeeId, form.itemId, form.state)
         == EmployeeItemBalance(cs, form.employeeId, form.itemId, form.state) + form.qty
  {
    var e := CustodyEntry(form, id, now, performer, nb);
    SetBalanceKeepsStock(items, form.itemId, nb, form.itemId, form.state, ms, [e] + cs);
    CustodySumPrepend(e, cs, form.itemId, form.state, false);
    EmployeeBalancePrepend(e, cs, form.employeeId, form.itemId, form.state);
  }

  /**
   * An accepted return raises the item's stock balance in the return's state
   * by the quantity (SCRAP included, although `currentBalance` is left alone
   * then) and lowers what the employee holds in that state by the quantity.
   */
  lemma ReturnMovesStockFromEmployee(items: seq<Item>, ms: seq<Movement>, cs: seq<Custody>, form: CustodyForm,
                                     id: string, now: string, performer: string, nb: int)
    requires form.kind == Return && !FormIncomplete(form)
    requires FindItem(items, form.itemId).Some?
    ensures var e := CustodyEntry(form, id, now, performer, nb);
      && StockBalanceByState(SetBalance(items, form.itemId, nb), form.itemId, form.state, ms, [e] + cs)
         == StockBalanceByState(items, form.itemId, form.state, ms, cs) + form.qty
      && EmployeeItemBalance([e] + cs, form.employeeId, form.itemId, form.state)
         == EmployeeItemBalance(cs, form.employeeId, form.itemId, form.state) - form.qty
  {
    var e := CustodyEntry(form, id, now, performer, nb);
    SetBalanceKeepsStock(items, form.itemId, nb, form.itemId, form.state, ms, [e] + cs);
    CustodySumPrepend(e, cs, form.itemId, form.state, false);
    EmployeeBalancePrepend(e, cs, form.employeeId, form.itemId, form.state);
  }

  // ---------------------------------------------------------------------
  // Instant write-off and current holders
  // ---------------------------------------------------------------------

  /** The note of an instant write-off ("تسوية فورية (إعدام ذمة)"). */
  const InstantSettleNote: string := "تسوية" + " فورية" + " (إعدام" + " ذمة)"

  /** The write-off note is not a surplus note, so the write-off subtracts. */
  lemma InstantNoteNotSurplus()
    ensures !IsSurplusNote(Some(InstantSettleNote))
  {
    assert 'ز' !in "تسوية" && 'ز' !in " فورية" && 'ز' !in " (إعدام" && 'ز' !in " ذمة)";
    LacksFirstChar(InstantSettleNote, SurplusMarker);
  }

  /** The last four characters of a string (all of it when shorter). */
  function LastFour(s: string): (r: string)
    ensures |r| == if |s| < 4 then |s| else 4
    ensures s == s[..|s| - |r|] + r
  {
    if |s| <= 4 then s else s[|s| - 4..]
  }

  /** The write-off entry: a SCRAP settlement of the whole quantity, numbered from the clock's last four digits. */
  function InstantSettlement(emp: string, itemId: string, qty: int, id: string, now: string, performer: string, clock: string): Custody {
    Custody(id, itemId, emp, qty, Scrap, Settlement, now, performer, "SETTLE-" + LastFour(clock),
            Some(InstantSettleNote), None, false)
  }

  /**
   * Writes off what an employee holds of an item, once the user confirms:
   * one settlement goes in front of the custody log; no item changes.
   */
  method InstantSettle(st: Store, confirmed: bool, emp: string, itemId: string, qty: int,
                       id: string, now: string, performer: string, clock: string) returns (outcome: Outcome)
    modifies st
    ensures unchanged(st`units, st`warehouses, st`employees, st`suppliers, st`financialYears, st`selectedYear)
    ensures st.items == old(st.items) && st.movements == old(st.movements)
    ensures outcome == (if confirmed then Accepted else Ignored)
    ensures st.custodies == if confirmed then [InstantSettlement(emp, itemId, qty, id, now, performer, clock)] + old(st.custodies)
                            else old(st.custodies)
  {
    if !confirmed {
      return Ignored;
    }
    st.custodies := [InstantSettlement(emp, itemId, qty, id, now, performer, clock)] + st.custodies;
    outcome := Accepted;
  }

  /** The signed contribution of a custody event to the holders' list: + for a hand-over, - for anything else. */
  function HolderTerm(emp: string, id: string): Custody -> int {
    (c: Custody) => if c.employeeId == emp && c.itemId == id then (if c.kind == Handover then c.quantity else -c.quantity) else 0
  }

  /** What the holders' list shows for (employee, item): hand-overs minus everything else, over all states. */
  function HolderTotal(cs: seq<Custody>, emp: string, id: string): int {
    Total(cs, HolderTerm(emp, id))
  }

  /** The holders' total is the sum over the three states of what the employee holds. */
  lemma {:induction false} HolderTotalSumsStates(cs: seq<Custody>, emp: string, id: string)
    ensures HolderTotal(cs, emp, id)
            == EmployeeItemBalance(cs, emp, id, New) + EmployeeItemBalance(cs, emp, id, Used) + EmployeeItemBalance(cs, emp, id, Scrap)
    decreases |cs|
  {
    if cs != [] {
      HolderTotalSumsStates(cs[..|cs| - 1], emp, id);
    }
  }

  /**
   * Writing off the quantity shown for (employee, item) clears the holders'
   * total and the SCRAP holding drops by it; the item's SCRAP stock balance
   * drops by it too, since the note is not a surplus note.
   */
  lemma InstantSettleClears(items: seq<Item>, ms: seq<Movement>, cs: seq<Custody>, emp: string, itemId: string,
                            held: int, s: Custody, id: string, now: string, performer: string, clock: string)
    requires held == HolderTotal(cs, emp, itemId)
    requires s == InstantSettlement(emp, itemId, held, id, now, performer, clock)
    ensures HolderTotal([s] + cs, emp, itemId) == 0
    ensures EmployeeItemBalance([s] + cs, emp, itemId, Scrap) == EmployeeItemBalance(cs, emp, itemId, Scrap) - held
    ensures StockBalanceByState(items, itemId, Scrap, ms, [s] + cs)
            == StockBalanceByState(items, itemId, Scrap, ms, cs) - (if FindItem(items, itemId).Some? then held else 0)
  {
    InstantNoteNotSurplus();
    assert CustodyEffect(s) == -held;
    TotalPrepend(s, cs, HolderTerm(emp, itemId));
    EmployeeBalancePrepend(s, cs, emp, itemId, Scrap);
    CustodySumPrepend(s, cs, itemId, Scrap, false);
    assert CustodyCounts(s, itemId, Scrap, false);
  }

  /** A pair no event concerns has a holders' total of 0. */
  lemma {:induction false} UnconcernedHoldsNothing(cs: seq<Custody>, emp: string, id: string)
    requires !Concerns(cs, emp, id)
    ensures HolderTotal(cs, emp, id) == 0
    decreases |cs|
  {
    if cs != [] {
      var init := cs[..|cs| - 1];
      forall k | 0 <= k < |init| ensures !(init[k].employeeId == emp && init[k].itemId == id) {
        assert cs[k] == init[k];
      }
      assert !(cs[|cs| - 1].employeeId == emp && cs[|cs| - 1].itemId == id);
      UnconcernedHoldsNothing(init, emp, id);
    }
  }

  /**
   * The running totals per (employee, item), filled event by event: a pair
   * gets an entry when its first event is seen, and each event adds its
   * signed quantity.
   */
  method HolderBalances(cs: seq<Custody>) returns (balances: map<(string, string), int>)
    ensures forall key: (string, string) :: key in balances <==> Concerns(cs, key.0, key.1)
    ensures forall key: (string, string) :: key in balances ==> balances[key] == HolderTotal(cs, key.0, key.1)
  {
    balances := map[];
    var i := 0;
    while i < |cs|
      invariant 0 <= i <= |cs|
      invariant forall key: (string, string) :: key in balances <==> Concerns(cs[..i], key.0, key.1)
      invariant forall key: (string, string) :: key in balances ==> balances[key] == HolderTotal(cs[..i], key.0, key.1)
    {
      var c := cs[i];
      assert cs[..i + 1][..i] == cs[..i];
      assert cs[..i + 1] == cs[..i] + [c];
      var before := balances;
      var current := if (c.employeeId, c.itemId) in balances then balances[(c.employeeId, c.itemId)] else 0;
      balances := balances[(c.employeeId, c.itemId) := if c.kind == Handover then current + c.quantity else current - c.quantity];
      forall key: (string, string) ensures key in balances <==> Concerns(cs[..i + 1], key.0, key.1) {
        ConcernsSnoc(cs[..i], c, key.0, key.1);
        assert key in before <==> Concerns(cs[..i], key.0, key.1);
      }
      if (c.employeeId, c.itemId) !in before {
        UnconcernedHoldsNothing(cs[..i], c.employeeId, c.itemId);
      }
      forall key: (string, string) | key in balances ensures balances[key] == HolderTotal(cs[..i + 1], key.0, key.1) {
        assert Total(cs[..i + 1], HolderTerm(key.0, key.1)) == Total(cs[..i], HolderTerm(key.0, key.1)) + HolderTerm(key.0, key.1)(c);
      }
      i := i + 1;
    }
    assert cs[..|cs|] == cs;
  }

  /** One row of the current holders' list. */
  datatype HolderRow = HolderRow(empId: string, itemId: string, empName: string, itemName: string, itemCode: string, qty: int)

  const UnknownName: string := "مجهول"

  function RowFor(key: (string, string), qty: int, items: seq<Item>, employees: seq<Named>): HolderRow {
    var emp := FindNamed(employees, key.0);
    var item := FindItem(items, key.1);
    HolderRow(key.0, key.1,
              if emp.Some? then emp.value.name else UnknownName,
              if item.Some? then item.value.name else UnknownName,
              if item.Some? then item.value.code else "-",
              qty)
  }

  /** The employee filter ("ALL" or one id) and the case-sensitive search on names and code. */
  predicate RowShown(r: HolderRow, filterEmployeeId: string, search: string) {
    (filterEmployeeId == "ALL" || r.empId == filterEmployeeId)
    && (Contains(r.empName, search) || Contains(r.itemName, search) || Contains(r.itemCode, search))
  }

  /** The current holders: pairs with a positive total that pass the filters. */
  function CurrentHolders(balances: map<(string, string), int>, items: seq<Item>, employees: seq<Named>,
                          filterEmployeeId: string, search: string): map<(string, string), HolderRow> {
    map key | key in balances && balances[key] > 0 && RowShown(RowFor(key, balances[key], items, employees), filterEmployeeId, search)
      :: RowFor(key, balances[key], items, employees)
  }

  /**
   * Over the totals of a custody log, every listed row holds a positive
   * total of its own pair, and with no filters every pair holding a
   * positive total is listed.
   */
  lemma CurrentHoldersArePositive(cs: seq<Custody>, balances: map<(string, string), int>, items: seq<Item>, employees: seq<Named>,
                                  filterEmployeeId: string, search: string)
    requires forall key: (string, string) :: key in balances <==> Concerns(cs, key.0, key.1)
    requires forall key: (string, string) :: key in balances ==> balances[key] == HolderTotal(cs, key.0, key.1)
    ensures forall key: (string, string) :: key in CurrentHolders(balances, items, employees, filterEmployeeId, search) ==>
      var r := CurrentHolders(balances, items, employees, filterEmployeeId, search)[key];
      r.empId == key.0 && r.itemId == key.1 && r.qty == HolderTotal(cs, key.0, key.1) > 0
    ensures forall key: (string, string) :: Concerns(cs, key.0, key.1) && HolderTotal(cs, key.0, key.1) > 0 ==>
      key in CurrentHolders(balances, items, employees, "ALL", "")
  {
    forall key: (string, string) | Concerns(cs, key.0, key.1) && HolderTotal(cs, key.0, key.1) > 0
      ensures key in CurrentHolders(balances, items, employees, "ALL", "")
    {
      var r := RowFor(key, balances[key], items, employees);
      assert StartsWith(r.empName, "");
    }
  }
}
