/**
 * The physical-count screen: the book balance of an item in one condition
 * state, the settlement that turns counted quantities into correcting log
 * entries, and the archive of past settlements grouped by document number.
 *
 * A settlement works on the logs as they were when it started: every book
 * balance is computed on the old logs, and every movement's `balanceAfter`
 * on the item's old `currentBalance`. New entries are put in front of the
 * logs one at a time, so the last one created ends up first.
 */
module InventoryAudit {
  import opened Types
  import opened Text
  import opened Ledger

  // ---------------------------------------------------------------------
  // Book balance
  // ---------------------------------------------------------------------

  /** The book balance before clamping: audit-only custody events are skipped. */
  function RawBookBalance(item: Item, state: CustodyState, ms: seq<Movement>, cs: seq<Custody>): int {
    OpeningSeed(item, state)
    + (if state == New then MovementSum(ms, item.id) else 0)
    + CustodySum(cs, item.id, state, true)
  }

  /** The book balance shown and used by the settlement: never below zero. */
  function BookBalance(item: Item, state: CustodyState, ms: seq<Movement>, cs: seq<Custody>): (r: nat)
    ensures r >= RawBookBalance(item, state, ms, cs)
    ensures r == RawBookBalance(item, state, ms, cs) || r == 0
  {
    var raw := RawBookBalance(item, state, ms, cs);
    if raw < 0 then 0 else raw
  }

  /** The accumulating computation of the book balance. */
  method GetBookBalance(item: Item, state: CustodyState, ms: seq<Movement>, cs: seq<Custody>) returns (b: nat)
    ensures b == BookBalance(item, state, ms, cs)
  {
    var balance := OpeningSeed(item, state);
    if state == New {
      var moved := SumMovements(ms, item.id);
      balance := balance + moved;
    }
    var held := SumCustodies(cs, item.id, state, true);
    balance := balance + held;
    b := if balance < 0 then 0 else balance;
  }

  /** Audit-only events put in front of the custody log never change a book balance. */
  lemma BookBalanceIgnoresAuditOnly(item: Item, state: CustodyState, ms: seq<Movement>, extra: seq<Custody>, cs: seq<Custody>)
    requires forall k :: 0 <= k < |extra| ==> extra[k].auditOnly
    ensures BookBalance(item, state, ms, extra + cs) == BookBalance(item, state, ms, cs)
  {
    AuditOnlyPrefixInvisible(extra, cs, item.id, state);
  }

  // ---------------------------------------------------------------------
  // Settlement entries
  // ---------------------------------------------------------------------

  /** The condition states counted for an item: all three for a custody item, NEW otherwise. */
  function ApplicableStates(item: Item): (r: seq<CustodyState>)
    ensures |r| > 0 && r[0] == New
    ensures item.isCustody ==> New in r && Used in r && Scrap in r
    ensures !item.isCustody ==> forall s :: s in r ==> s == New
  {
    if item.isCustody then [New, Used, Scrap] else [New]
  }

  /** What one counted difference becomes: a stock movement or a custody settlement. */
  datatype AuditEntry = StockFix(move: Movement) | CustodyFix(settlement: Custody)

  /**
   * What a settlement takes from outside the logs: the paper document
   * number, the user's name, the clock, and the id given to the entry for
   * each (item id, state) pair.
   */
  datatype AuditContext = AuditContext(
    doc: string,
    performer: string,
    now: string,
    idFor: (string, CustodyState) -> string)

  /** The text every settlement note starts with ("تسوية جردية"). */
  const AuditTag: string := "تسوية" + " جردية"

  const DeficitWord: string := "عجز"

  /** The heading after the tag: empty for stock, "هالك (تقرير مؤقت)" for SCRAP, "مستعمل" for USED. */
  const StockLabel: string := ""
  const ScrapLabel: string := " هالك" + " (تقرير" + " مؤقت)"
  const UsedLabel: string := " مستعمل"

  function SignWord(surplus: bool): string {
    if surplus then SurplusMarker else DeficitWord
  }

  /** The note of a settlement entry: tag, heading, document number and surplus/deficit word. */
  function AuditNote(heading: string, doc: string, surplus: bool): string {
    AuditTag + heading + " (محضر " + doc + "): " + SignWord(surplus)
  }

  /**
   * A note reads as a surplus exactly when it was written as one, as long
   * as the document number does not itself contain the surplus marker's
   * first letter. (The deficit word "عجز" ends in that letter, but is too
   * short to hold the marker.)
   */
  lemma AuditNoteSign(heading: string, doc: string, surplus: bool)
    requires heading == StockLabel || heading == ScrapLabel || heading == UsedLabel
    requires SurplusMarker[0] !in doc
    ensures IsSurplusNote(Some(AuditNote(heading, doc, surplus))) == surplus
  {
    var head := AuditTag + heading + " (محضر " + doc + "): ";
    assert AuditNote(heading, doc, surplus) == head + SignWord(surplus);
    if surplus {
      ContainsSuffix(head, SurplusMarker);
    } else {
      assert SurplusMarker[0] == 'ز';
      assert 'ز' !in AuditTag;
      assert 'ز' !in heading;
      assert 'ز' !in " (محضر ";
      assert 'ز' !in "): ";
      LacksFirstCharBeforeShortTail(head, DeficitWord, SurplusMarker);
    }
  }

  /** Every settlement note carries the tag the archive looks for. */
  lemma AuditNoteTagged(heading: string, doc: string, surplus: bool)
    ensures Contains(AuditNote(heading, doc, surplus), AuditTag)
  {
    var n := AuditNote(heading, doc, surplus);
    assert n == AuditTag + (heading + " (محضر " + doc + "): " + SignWord(surplus));
    assert n[..|AuditTag|] == AuditTag;
  }

  function Abs(x: int): nat {
    if x < 0 then -x else x
  }

  /**
   * The entry for a nonzero difference `diff` between the counted quantity
   * `physical` and the book balance: a movement for a general item or the
   * NEW state, an audit-only settlement for SCRAP, a settlement for USED.
   */
  function EntryFor(item: Item, state: CustodyState, diff: int, physical: nat, ctx: AuditContext): (r: AuditEntry)
    requires diff != 0
    ensures r.StockFix? <==> !item.isCustody || state == New
    ensures r.StockFix? ==>
      && r.move.itemId == item.id && r.move.docNumber == ctx.doc
      && (r.move.kind == Inward <==> diff > 0) && r.move.quantity == Abs(diff)
      && r.move.returnedQuantity == 0 && MovementEffect(r.move) == diff
      && r.move.balanceAfter == item.currentBalance + diff
    ensures r.CustodyFix? ==>
      && r.settlement.itemId == item.id && r.settlement.docNumber == ctx.doc
      && r.settlement.state == state && r.settlement.kind == Settlement
      && r.settlement.employeeId == SystemEmployee && r.settlement.quantity == Abs(diff)
      && (r.settlement.auditOnly <==> state == Scrap)
      && (state == Scrap ==> r.settlement.balanceAfter == Some(physical))
  {
    var qty := Abs(diff);
    var id := ctx.idFor(item.id, state);
    if !item.isCustody || state == New then
      StockFix(Movement(id, item.id, if diff > 0 then Inward else Outward, qty, item.unitId, ctx.doc,
        None, None, None, ctx.performer, ctx.now, item.currentBalance + diff,
        Some(AuditNote(StockLabel, ctx.doc, diff > 0)), None, 0, None, None, None, []))
    else if state == Scrap then
      CustodyFix(Custody(id, item.id, SystemEmployee, qty, state, Settlement, ctx.now, ctx.performer, ctx.doc,
        Some(AuditNote(ScrapLabel, ctx.doc, diff > 0)), Some(physical), true))
    else
      CustodyFix(Custody(id, item.id, SystemEmployee, qty, state, Settlement, ctx.now, ctx.performer, ctx.doc,
        Some(AuditNote(UsedLabel, ctx.doc, diff > 0)), None, false))
  }

  /**
   * Whether (item, state) needs no entry: nothing was counted for it, or the
   * count equals the book balance.
   */
  predicate Agrees(item: Item, state: CustodyState, counts: map<(string, CustodyState), nat>, ms: seq<Movement>, cs: seq<Custody>) {
    (item.id, state) !in counts || counts[(item.id, state)] == BookBalance(item, state, ms, cs)
  }

  /** The entry one (item, state) pair produces, if any. */
  function PairEntry(item: Item, state: CustodyState, counts: map<(string, CustodyState), nat>,
                     ms: seq<Movement>, cs: seq<Custody>, ctx: AuditContext): (r: Option<AuditEntry>)
    ensures r.None? <==> Agrees(item, state, counts, ms, cs)
  {
    if (item.id, state) !in counts then None
    else
      var physical := counts[(item.id, state)];
      var diff := physical - BookBalance(item, state, ms, cs);
      if diff == 0 then None else Some(EntryFor(item, state, diff, physical, ctx))
  }

  function OptionSeq<T>(o: Option<T>): seq<T> {
    if o.Some? then [o.value] else []
  }

  /** The entries of one item, state by state. */
  function ItemEntries(item: Item, states: seq<CustodyState>, counts: map<(string, CustodyState), nat>,
                       ms: seq<Movement>, cs: seq<Custody>, ctx: AuditContext): seq<AuditEntry>
    decreases |states|
  {
    if states == [] then []
    else ItemEntries(item, states[..|states| - 1], counts, ms, cs, ctx)
         + OptionSeq(PairEntry(item, states[|states| - 1], counts, ms, cs, ctx))
  }

  /** The entries of a whole settlement, item by item, in creation order. */
  function PlanEntries(audit: seq<Item>, counts: map<(string, CustodyState), nat>,
                       ms: seq<Movement>, cs: seq<Custody>, ctx: AuditContext): seq<AuditEntry>
    decreases |audit|
  {
    if audit == [] then []
    else PlanEntries(audit[..|audit| - 1], counts, ms, cs, ctx)
         + ItemEntries(audit[|audit| - 1], ApplicableStates(audit[|audit| - 1]), counts, ms, cs, ctx)
  }

  /** The selected items, in the order of the item list. */
  function AuditItems(items: seq<Item>, selectedIds: seq<string>): seq<Item> {
    Filter(items, (it: Item) => it.id in selectedIds)
  }

  /**
   * The movement log after posting `entries` in order, each movement put in
   * front: the last movement created ends up first.
   */
  function PrependMoves(entries: seq<AuditEntry>, ms: seq<Movement>): seq<Movement>
    decreases |entries|
  {
    if entries == [] then ms
    else
      var rest := PrependMoves(entries[..|entries| - 1], ms);
      var e := entries[|entries| - 1];
      if e.StockFix? then [e.move] + rest else rest
  }

  /** The custody log after posting `entries` in order, each settlement put in front. */
  function PrependSettlements(entries: seq<AuditEntry>, cs: seq<Custody>): seq<Custody>
    decreases |entries|
  {
    if entries == [] then cs
    else
      var rest := PrependSettlements(entries[..|entries| - 1], cs);
      var e := entries[|entries| - 1];
      if e.CustodyFix? then [e.settlement] + rest else rest
  }

  /** The item list after posting `entries`: each movement sets its item's `currentBalance` to its `balanceAfter`. */
  function ApplyBalances(items: seq<Item>, entries: seq<AuditEntry>): seq<Item>
    decreases |entries|
  {
    if entries == [] then items
    else
      var rest := ApplyBalances(items, entries[..|entries| - 1]);
      var e := entries[|entries| - 1];
      if e.StockFix? then SetBalance(rest, e.move.itemId, e.move.balanceAfter) else rest
  }

  datatype CommitResult = Refused(reason: Reason) | NothingToReconcile | Reconciled

  /** What the item list and the logs look like once the entries `done` have been posted. */
  ghost predicate Posted(items: seq<Item>, movements: seq<Movement>, custodies: seq<Custody>,
                         done: seq<AuditEntry>, items0: seq<Item>, ms0: seq<Movement>, cs0: seq<Custody>)
  {
    && movements == PrependMoves(done, ms0)
    && custodies == PrependSettlements(done, cs0)
    && items == ApplyBalances(items0, done)
  }

  lemma PostedSnoc(done: seq<AuditEntry>, e: AuditEntry, items0: seq<Item>, ms0: seq<Movement>, cs0: seq<Custody>)
    ensures PrependMoves(done + [e], ms0) == if e.StockFix? then [e.move] + PrependMoves(done, ms0) else PrependMoves(done, ms0)
    ensures PrependSettlements(done + [e], cs0)
            == if e.CustodyFix? then [e.settlement] + PrependSettlements(done, cs0) else PrependSettlements(done, cs0)
    ensures ApplyBalances(items0, done + [e])
            == if e.StockFix? then SetBalance(ApplyBalances(items0, done), e.move.itemId, e.move.balanceAfter)
               else ApplyBalances(items0, done)
  {
    assert (done + [e])[..|done|] == done;
  }

  /**
   * Posts one entry: a movement goes in front of the movement log and sets
   * its item's `currentBalance` to its `balanceAfter`; a settlement goes in
   * front of the custody log.
   */
  method PostEntry(st: Store, e: AuditEntry, ghost done: seq<AuditEntry>,
                   ghost items0: seq<Item>, ghost ms0: seq<Movement>, ghost cs0: seq<Custody>)
    requires Posted(st.items, st.movements, st.custodies, done, items0, ms0, cs0)
    modifies st
    ensures unchanged(st`units, st`warehouses, st`employees, st`suppliers, st`financialYears, st`selectedYear)
    ensures Posted(st.items, st.movements, st.custodies, done + [e], items0, ms0, cs0)
  {
    PostedSnoc(done, e, items0, ms0, cs0);
    match e {
      case StockFix(m) =>
        st.movements := [m] + st.movements;
        st.items := SetBalance(st.items, m.itemId, m.balanceAfter);
      case CustodyFix(c) =>
        st.custodies := [c] + st.custodies;
    }
  }

  /** Posts the entry of one (item, state) pair, if the count disagrees with the book balance on the old logs. */
  method CommitPair(st: Store, item: Item, state: CustodyState, counts: map<(string, CustodyState), nat>, ctx: AuditContext,
                    ghost done: seq<AuditEntry>, ghost items0: seq<Item>, ms0: seq<Movement>, cs0: seq<Custody>)
    returns (posted: Option<AuditEntry>)
    requires Posted(st.items, st.movements, st.custodies, done, items0, ms0, cs0)
    modifies st
    ensures unchanged(st`units, st`warehouses, st`employees, st`suppliers, st`financialYears, st`selectedYear)
    ensures posted == PairEntry(item, state, counts, ms0, cs0, ctx)
    ensures Posted(st.items, st.movements, st.custodies, done + OptionSeq(posted), items0, ms0, cs0)
  {
    posted := None;
    assert done + [] == done;
    if (item.id, state) in counts {
      var physical := counts[(item.id, state)];
      var book := GetBookBalance(item, state, ms0, cs0);
      var diff: int := physical as int - book as int;
      if diff != 0 {
        var e := EntryFor(item, state, diff, physical, ctx);
        PostEntry(st, e, done, items0, ms0, cs0);
        posted := Some(e);
      }
    }
  }

  lemma ItemEntriesSnoc(item: Item, states: seq<CustodyState>, j: nat, counts: map<(string, CustodyState), nat>,
                        ms: seq<Movement>, cs: seq<Custody>, ctx: AuditContext)
    requires j < |states|
    ensures ItemEntries(item, states[..j + 1], counts, ms, cs, ctx)
            == ItemEntries(item, states[..j], counts, ms, cs, ctx) + OptionSeq(PairEntry(item, states[j], counts, ms, cs, ctx))
  {
    assert states[..j + 1][..j] == states[..j];
  }

  /**
   * Where the loop over an item's states stands after `j` states: the entries
   * made so far are the item's entries for those states, they are posted, and
   * `changed` says whether there is any.
   */
  ghost predicate ItemProgress(items: seq<Item>, movements: seq<Movement>, custodies: seq<Custody>,
                               item: Item, states: seq<CustodyState>, j: nat, counts: map<(string, CustodyState), nat>,
                               ctx: AuditContext, done: seq<AuditEntry>, sofar: seq<AuditEntry>, changed: bool,
                               items0: seq<Item>, ms0: seq<Movement>, cs0: seq<Custody>)
  {
    && j <= |states|
    && sofar == ItemEntries(item, states[..j], counts, ms0, cs0, ctx)
    && (changed <==> |sofar| > 0)
    && Posted(items, movements, custodies, done + sofar, items0, ms0, cs0)
  }

  /** One turn of the loop over an item's states: posts the pair's entry and extends the item's entries by it. */
  method CommitNextState(st: Store, item: Item, states: seq<CustodyState>, j: nat, counts: map<(string, CustodyState), nat>,
                         ctx: AuditContext, ghost done: seq<AuditEntry>, ghost sofar: seq<AuditEntry>, changed: bool,
                         ghost items0: seq<Item>, ms0: seq<Movement>, cs0: seq<Custody>)
    returns (changed': bool, ghost next: seq<AuditEntry>)
    requires j < |states|
    requires ItemProgress(st.items, st.movements, st.custodies, item, states, j, counts, ctx, done, sofar, changed, items0, ms0, cs0)
    modifies st
    ensures unchanged(st`units, st`warehouses, st`employees, st`suppliers, st`financialYears, st`selectedYear)
    ensures ItemProgress(st.items, st.movements, st.custodies, item, states, j + 1, counts, ctx, done, next, changed', items0, ms0, cs0)
  {
    assert sofar == ItemEntries(item, states[..j], counts, ms0, cs0, ctx) && (changed <==> |sofar| > 0);
    var posted := CommitPair(st, item, states[j], counts, ctx, done + sofar, items0, ms0, cs0);
    next := sofar + OptionSeq(posted);
    changed' := changed || posted.Some?;
    ProgressStep(st.items, st.movements, st.custodies, item, states, j, counts, ctx, done, sofar, changed, posted,
                 items0, ms0, cs0);
  }

  lemma ProgressStep(items: seq<Item>, movements: seq<Movement>, custodies: seq<Custody>,
                     item: Item, states: seq<CustodyState>, j: nat, counts: map<(string, CustodyState), nat>,
                     ctx: AuditContext, done: seq<AuditEntry>, sofar: seq<AuditEntry>, changed: bool,
                     posted: Option<AuditEntry>, items0: seq<Item>, ms0: seq<Movement>, cs0: seq<Custody>)
    requires j < |states|
    requires sofar == ItemEntries(item, states[..j], counts, ms0, cs0, ctx) && (changed <==> |sofar| > 0)
    requires posted == PairEntry(item, states[j], counts, ms0, cs0, ctx)
    requires Posted(items, movements, custodies, (done + sofar) + OptionSeq(posted), items0, ms0, cs0)
    ensures ItemProgress(items, movements, custodies, item, states, j + 1, counts, ctx, done, sofar + OptionSeq(posted),
                         changed || posted.Some?, items0, ms0, cs0)
  {
    ItemEntriesSnoc(item, states, j, counts, ms0, cs0, ctx);
    assert (done + sofar) + OptionSeq(posted) == done + (sofar + OptionSeq(posted));
  }

  /** Posts the entries of one item, state by state. */
  method CommitItem(st: Store, item: Item, counts: map<(string, CustodyState), nat>, ctx: AuditContext,
                    ghost done: seq<AuditEntry>, ghost items0: seq<Item>, ms0: seq<Movement>, cs0: seq<Custody>)
    returns (changed: bool)
    requires Posted(st.items, st.movements, st.custodies, done, items0, ms0, cs0)
    modifies st
    ensures unchanged(st`units, st`warehouses, st`employees, st`suppliers, st`financialYears, st`selectedYear)
    ensures changed <==> |ItemEntries(item, ApplicableStates(item), counts, ms0, cs0, ctx)| > 0
    ensures Posted(st.items, st.movements, st.custodies, done + ItemEntries(item, ApplicableStates(item), counts, ms0, cs0, ctx), items0, ms0, cs0)
  {
    var states := ApplicableStates(item);
    changed := false;
    var j := 0;
    ghost var sofar: seq<AuditEntry> := [];
    assert states[..0] == [];
    assert done + [] == done;
    while j < |states|
      invariant ItemProgress(st.items, st.movements, st.custodies, item, states, j, counts, ctx, done, sofar, changed, items0, ms0, cs0)
      invariant unchanged(st`units, st`warehouses, st`employees, st`suppliers, st`financialYears, st`selectedYear)
    {
      var changed', next := CommitNextState(st, item, states, j, counts, ctx, done, sofar, changed, items0, ms0, cs0);
      changed, sofar, j := changed', next, j + 1;
    }
    assert states[..|states|] == states;
  }

  lemma PlanEntriesSnoc(audit: seq<Item>, i: nat, counts: map<(string, CustodyState), nat>,
                        ms: seq<Movement>, cs: seq<Custody>, ctx: AuditContext)
    requires i < |audit|
    ensures PlanEntries(audit[..i + 1], counts, ms, cs, ctx)
            == PlanEntries(audit[..i], counts, ms, cs, ctx) + ItemEntries(audit[i], ApplicableStates(audit[i]), counts, ms, cs, ctx)
  {
    assert audit[..i + 1][..i] == audit[..i];
  }

  /** Posts the entries of the selected items, item by item, against the logs as they were before. */
  method CommitItems(st: Store, audit: seq<Item>, counts: map<(string, CustodyState), nat>, ctx: AuditContext)
    returns (hasChanges: bool)
    modifies st
    ensures unchanged(st`units, st`warehouses, st`employees, st`suppliers, st`financialYears, st`selectedYear)
    ensures hasChanges <==> |PlanEntries(audit, counts, old(st.movements), old(st.custodies), ctx)| > 0
    ensures Posted(st.items, st.movements, st.custodies, PlanEntries(audit, counts, old(st.movements), old(st.custodies), ctx),
                   old(st.items), old(st.movements), old(st.custodies))
  {
    var items0, ms0, cs0 := st.items, st.movements, st.custodies;
    hasChanges := false;
    var i := 0;
    ghost var plan: seq<AuditEntry> := [];
    assert Posted(st.items, st.movements, st.custodies, [], items0, ms0, cs0);
    while i < |audit|
      invariant 0 <= i <= |audit|
      invariant plan == PlanEntries(audit[..i], counts, ms0, cs0, ctx)
      invariant hasChanges <==> |plan| > 0
      invariant Posted(st.items, st.movements, st.custodies, plan, items0, ms0, cs0)
      invariant unchanged(st`units, st`warehouses, st`employees, st`suppliers, st`financialYears, st`selectedYear)
    {
      PlanEntriesSnoc(audit, i, counts, ms0, cs0, ctx);
      var changed := CommitItem(st, audit[i], counts, ctx, plan, items0, ms0, cs0);
      plan := plan + ItemEntries(audit[i], ApplicableStates(audit[i]), counts, ms0, cs0, ctx);
      hasChanges := hasChanges || changed;
      i := i + 1;
    }
    assert audit[..|audit|] == audit;
  }

  /**
   * Commits a settlement. It is refused for an empty document number or one
   * any log entry already carries; otherwise every selected item's counted
   * states that disagree with the book produce one entry each, put in front
   * of their log, and stock entries set their item's `currentBalance`.
   */
  method CommitSettlement(st: Store, selectedIds: seq<string>, counts: map<(string, CustodyState), nat>, ctx: AuditContext)
    returns (result: CommitResult)
    modifies st
    ensures unchanged(st`units, st`warehouses, st`employees, st`suppliers, st`financialYears, st`selectedYear)
    ensures result.Refused? <==> ctx.doc == [] || DocNumberUsed(old(st.movements), old(st.custodies), ctx.doc)
    ensures ctx.doc == [] ==> result == Refused(MissingDocNumber)
    ensures ctx.doc != [] && result.Refused? ==> result == Refused(DuplicateDocNumber)
    ensures result.Refused? ==>
      st.items == old(st.items) && st.movements == old(st.movements) && st.custodies == old(st.custodies)
    ensures !result.Refused? ==>
      var plan := PlanEntries(AuditItems(old(st.items), selectedIds), counts, old(st.movements), old(st.custodies), ctx);
      && (result == NothingToReconcile <==> plan == [])
      && st.movements == PrependMoves(plan, old(st.movements))
      && st.custodies == PrependSettlements(plan, old(st.custodies))
      && st.items == ApplyBalances(old(st.items), plan)
  {
    if ctx.doc == [] {
      return Refused(MissingDocNumber);
    }
    if DocNumberUsed(st.movements, st.custodies, ctx.doc) {
      return Refused(DuplicateDocNumber);
    }
    var audit := AuditItems(st.items, selectedIds);
    var hasChanges := CommitItems(st, audit, counts, ctx);
    result := if hasChanges then Reconciled else NothingToReconcile;
  }

  // ---------------------------------------------------------------------
  // What a settlement achieves
  // ---------------------------------------------------------------------

  lemma {:induction false} ItemEntriesEmpty(item: Item, states: seq<CustodyState>, counts: map<(string, CustodyState), nat>,
                                            ms: seq<Movement>, cs: seq<Custody>, ctx: AuditContext)
    ensures ItemEntries(item, states, counts, ms, cs, ctx) == []
            <==> forall j :: 0 <= j < |states| ==> Agrees(item, states[j], counts, ms, cs)
    decreases |states|
  {
    if states != [] {
      var init := states[..|states| - 1];
      ItemEntriesEmpty(item, init, counts, ms, cs, ctx);
      assert forall j :: 0 <= j < |init| ==> init[j] == states[j];
    }
  }

  /** Every state counted for the item has no count or a count equal to the book balance. */
  predicate ItemAgrees(item: Item, counts: map<(string, CustodyState), nat>, ms: seq<Movement>, cs: seq<Custody>) {
    forall s :: s in ApplicableStates(item) ==> Agrees(item, s, counts, ms, cs)
  }

  /** An item produces no entry exactly when it agrees in every state counted for it. */
  lemma ItemNothingToReconcile(item: Item, counts: map<(string, CustodyState), nat>,
                               ms: seq<Movement>, cs: seq<Custody>, ctx: AuditContext)
    ensures ItemEntries(item, ApplicableStates(item), counts, ms, cs, ctx) == [] <==> ItemAgrees(item, counts, ms, cs)
  {
    var states := ApplicableStates(item);
    ItemEntriesEmpty(item, states, counts, ms, cs, ctx);
    assert (forall j :: 0 <= j < |states| ==> Agrees(item, states[j], counts, ms, cs))
           <==> (forall s :: s in states ==> Agrees(item, s, counts, ms, cs));
  }

  /** A property holds of every element exactly when it holds of all but the last and of the last. */
  lemma AllSnoc<T>(s: seq<T>, init: seq<T>, p: T -> bool)
    requires |s| > 0 && init == s[..|s| - 1]
    ensures (forall k :: 0 <= k < |s| ==> p(s[k]))
            <==> (forall k :: 0 <= k < |init| ==> p(init[k])) && p(s[|s| - 1])
  {
    assert forall k :: 0 <= k < |init| ==> init[k] == s[k];
  }

  /**
   * A settlement produces no entry exactly when, for every selected item and
   * every state counted for it, the count is absent or equals the book
   * balance.
   */
  lemma {:induction false} NothingToReconcileIff(audit: seq<Item>, counts: map<(string, CustodyState), nat>,
                                                 ms: seq<Movement>, cs: seq<Custody>, ctx: AuditContext)
    ensures PlanEntries(audit, counts, ms, cs, ctx) == []
            <==> forall k :: 0 <= k < |audit| ==> ItemAgrees(audit[k], counts, ms, cs)
    decreases |audit|
  {
    if audit != [] {
      var init := audit[..|audit| - 1];
      var last := audit[|audit| - 1];
      NothingToReconcileIff(init, counts, ms, cs, ctx);
      ItemNothingToReconcile(last, counts, ms, cs, ctx);
      var before := PlanEntries(init, counts, ms, cs, ctx);
      var own := ItemEntries(last, ApplicableStates(last), counts, ms, cs, ctx);
      assert PlanEntries(audit, counts, ms, cs, ctx) == before + own;
      assert |before + own| == |before| + |own|;
      AllSnoc(audit, init, (it: Item) => ItemAgrees(it, counts, ms, cs));
    }
  }

  /** What every entry of a settlement carries: the settlement's document number and an item id. */
  predicate EntryOf(e: AuditEntry, doc: string, ids: seq<string>) {
    match e
    case StockFix(m) => m.docNumber == doc && m.itemId in ids
    case CustodyFix(c) => c.docNumber == doc && c.itemId in ids
  }

  /** Every entry of a settlement is about a selected item and carries the settlement's document number. */
  lemma {:induction false} PlanEntriesSelected(audit: seq<Item>, selectedIds: seq<string>, counts: map<(string, CustodyState), nat>,
                                               ms: seq<Movement>, cs: seq<Custody>, ctx: AuditContext)
    requires forall k :: 0 <= k < |audit| ==> audit[k].id in selectedIds
    ensures forall e :: e in PlanEntries(audit, counts, ms, cs, ctx) ==> EntryOf(e, ctx.doc, selectedIds)
    decreases |audit|
  {
    if audit != [] {
      var last := audit[|audit| - 1];
      PlanEntriesSelected(audit[..|audit| - 1], selectedIds, counts, ms, cs, ctx);
      ItemEntriesSelected(last, ApplicableStates(last), selectedIds, counts, ms, cs, ctx);
    }
  }

  lemma {:induction false} ItemEntriesSelected(item: Item, states: seq<CustodyState>, selectedIds: seq<string>,
                                               counts: map<(string, CustodyState), nat>, ms: seq<Movement>, cs: seq<Custody>, ctx: AuditContext)
    requires item.id in selectedIds
    ensures forall e :: e in ItemEntries(item, states, counts, ms, cs, ctx) ==> EntryOf(e, ctx.doc, selectedIds)
    decreases |states|
  {
    if states != [] {
      ItemEntriesSelected(item, states[..|states| - 1], selectedIds, counts, ms, cs, ctx);
    }
  }

  /**
   * After the NEW-state movement of a settlement, the recomputed NEW book
   * balance is the counted quantity, provided the raw balance was not below
   * zero (the clamp would otherwise hide part of the shortfall).
   */
  lemma AuditNewReconciles(item: Item, counts: map<(string, CustodyState), nat>, ms: seq<Movement>, cs: seq<Custody>,
                           ctx: AuditContext, m: Movement)
    requires PairEntry(item, New, counts, ms, cs, ctx) == Some(StockFix(m))
    requires RawBookBalance(item, New, ms, cs) >= 0
    ensures BookBalance(item, New, [m] + ms, cs) == counts[(item.id, New)]
  {
    MovementSumPrepend(m, ms, item.id);
  }

  /**
   * When the raw NEW balance was below zero, the movement is computed from
   * the clamped value 0, and afterwards the book balance is the raw balance
   * plus the counted quantity (clamped), not the counted quantity.
   */
  lemma AuditNewFromNegative(item: Item, counts: map<(string, CustodyState), nat>, ms: seq<Movement>, cs: seq<Custody>,
                             ctx: AuditContext, m: Movement)
    requires PairEntry(item, New, counts, ms, cs, ctx) == Some(StockFix(m))
    requires RawBookBalance(item, New, ms, cs) < 0
    ensures RawBookBalance(item, New, [m] + ms, cs) == RawBookBalance(item, New, ms, cs) + counts[(item.id, New)]
    ensures RawBookBalance(item, New, [m] + ms, cs) < counts[(item.id, New)]
  {
    MovementSumPrepend(m, ms, item.id);
  }

  /**
   * After the USED settlement of a custody item, the recomputed USED book
   * balance is the counted quantity (raw balance not below zero, document
   * number free of the surplus marker's first letter).
   */
  lemma AuditUsedReconciles(item: Item, counts: map<(string, CustodyState), nat>, ms: seq<Movement>, cs: seq<Custody>,
                            ctx: AuditContext, c: Custody)
    requires item.isCustody
    requires PairEntry(item, Used, counts, ms, cs, ctx) == Some(CustodyFix(c))
    requires RawBookBalance(item, Used, ms, cs) >= 0
    requires SurplusMarker[0] !in ctx.doc
    ensures BookBalance(item, Used, ms, [c] + cs) == counts[(item.id, Used)]
  {
    var diff := counts[(item.id, Used)] - BookBalance(item, Used, ms, cs);
    AuditNoteSign(UsedLabel, ctx.doc, diff > 0);
    assert CustodyEffect(c) == diff;
    CustodySumPrepend(c, cs, item.id, Used, true);
  }

  /**
   * The SCRAP settlement of a custody item is audit-only: the SCRAP book
   * balance is the same afterwards, so a second count finds the same
   * difference again.
   */
  lemma AuditScrapInvisible(item: Item, counts: map<(string, CustodyState), nat>, ms: seq<Movement>, cs: seq<Custody>,
                            ctx: AuditContext, c: Custody)
    requires item.isCustody
    requires PairEntry(item, Scrap, counts, ms, cs, ctx) == Some(CustodyFix(c))
    ensures c.auditOnly
    ensures BookBalance(item, Scrap, ms, [c] + cs) == BookBalance(item, Scrap, ms, cs)
    ensures PairEntry(item, Scrap, counts, ms, [c] + cs, ctx).Some?
  {
    BookBalanceIgnoresAuditOnly(item, Scrap, ms, [c], cs);
  }

  /**
   * A document number containing the surplus marker makes a USED deficit
   * settlement read as a surplus: its effect on the book is +quantity
   * where the count called for -quantity.
   */
  lemma DocNumberFlipsDeficit(item: Item, counts: map<(string, CustodyState), nat>, ms: seq<Movement>, cs: seq<Custody>,
                              ctx: AuditContext, c: Custody)
    requires item.isCustody
    requires PairEntry(item, Used, counts, ms, cs, ctx) == Some(CustodyFix(c))
    requires counts[(item.id, Used)] < BookBalance(item, Used, ms, cs)
    requires Contains(ctx.doc, SurplusMarker)
    ensures IsSurplusNote(c.note)
    ensures CustodyEffect(c) == BookBalance(item, Used, ms, cs) - counts[(item.id, Used)] > 0
  {
    var note := AuditTag + UsedLabel + " (محضر " + ctx.doc + "): " + DeficitWord;
    assert c.note == Some(note);
    ContainsExtendLeft(AuditTag + UsedLabel + " (محضر ", ctx.doc, SurplusMarker);
    ContainsExtendRight(AuditTag + UsedLabel + " (محضر " + ctx.doc, "): " + DeficitWord, SurplusMarker);
    assert AuditTag + UsedLabel + " (محضر " + ctx.doc + ("): " + DeficitWord) == note;
  }

  // ---------------------------------------------------------------------
  // Archive
  // ---------------------------------------------------------------------

  /**
   * One settlement line of the archive: document, who and when, item, state,
   * signed difference and the balance recorded after it (0 when absent).
   */
  datatype ArchiveLine = ArchiveLine(doc: string, timestamp: string, performedBy: string, itemId: string,
                                     state: CustodyState, diff: int, balanceAfter: int)

  /** A movement belongs to the archive when its note carries the settlement tag. */
  predicate IsAuditMovement(m: Movement) {
    m.note.Some? && Contains(m.note.value, AuditTag)
  }

  /** An INWARD movement or a surplus note counts +quantity, anything else -quantity; movements are NEW. */
  function MovementLine(m: Movement): ArchiveLine {
    ArchiveLine(m.docNumber, m.timestamp, m.performedBy, m.itemId, New,
                if m.kind == Inward || IsSurplusNote(m.note) then m.quantity else -m.quantity,
                m.balanceAfter)
  }

  function CustodyLine(c: Custody): ArchiveLine {
    ArchiveLine(c.docNumber, c.timestamp, c.performedBy, c.itemId, c.state,
                if IsSurplusNote(c.note) then c.quantity else -c.quantity,
                if c.balanceAfter.Some? then c.balanceAfter.value else 0)
  }

  function MovementLines(ms: seq<Movement>): seq<ArchiveLine>
    decreases |ms|
  {
    if ms == [] then []
    else MovementLines(ms[..|ms| - 1])
         + (if IsAuditMovement(ms[|ms| - 1]) then [MovementLine(ms[|ms| - 1])] else [])
  }

  function SettlementLines(cs: seq<Custody>): seq<ArchiveLine>
    decreases |cs|
  {
    if cs == [] then []
    else SettlementLines(cs[..|cs| - 1])
         + (if cs[|cs| - 1].kind == Settlement then [CustodyLine(cs[|cs| - 1])] else [])
  }

  /** The archive's lines: tagged movements, then every custody settlement. */
  function ArchiveLines(ms: seq<Movement>, cs: seq<Custody>): seq<ArchiveLine> {
    MovementLines(ms) + SettlementLines(cs)
  }

  /** The lines of one document, in order. */
  function DocLines(lines: seq<ArchiveLine>, d: string): seq<ArchiveLine>
    decreases |lines|
  {
    if lines == [] then []
    else DocLines(lines[..|lines| - 1], d)
         + (if lines[|lines| - 1].doc == d then [lines[|lines| - 1]] else [])
  }

  function SumDiff(lines: seq<ArchiveLine>): int
    decreases |lines|
  {
    if lines == [] then 0 else SumDiff(lines[..|lines| - 1]) + lines[|lines| - 1].diff
  }

  predicate HasScrapLine(lines: seq<ArchiveLine>) {
    exists k :: 0 <= k < |lines| && lines[k].state == Scrap
  }

  lemma DocLinesSnoc(lines: seq<ArchiveLine>, l: ArchiveLine, d: string)
    ensures DocLines(lines + [l], d) == if l.doc == d then DocLines(lines, d) + [l] else DocLines(lines, d)
  {
    assert (lines + [l])[..|lines|] == lines;
    assert DocLines(lines, d) + [] == DocLines(lines, d);
  }

  lemma {:induction false} DocLinesConcat(a: seq<ArchiveLine>, b: seq<ArchiveLine>, d: string)
    ensures DocLines(a + b, d) == DocLines(a, d) + DocLines(b, d)
    decreases |b|
  {
    if b == [] {
      assert a + b == a;
    } else {
      assert (a + b)[..|a + b| - 1] == a + b[..|b| - 1];
      DocLinesConcat(a, b[..|b| - 1], d);
    }
  }

  lemma {:induction false} DocLinesOfDoc(lines: seq<ArchiveLine>, d: string)
    ensures forall k :: 0 <= k < |DocLines(lines, d)| ==> DocLines(lines, d)[k].doc == d
    ensures DocLines(lines, d) == [] <==> forall k :: 0 <= k < |lines| ==> lines[k].doc != d
    decreases |lines|
  {
    if lines != [] {
      var init := lines[..|lines| - 1];
      DocLinesOfDoc(init, d);
      assert forall k :: 0 <= k < |init| ==> init[k] == lines[k];
    }
  }

  /** One archived document: first line's time and author, number of lines, net difference, any SCRAP line. */
  datatype Group = Group(docNumber: string, timestamp: string, performedBy: string,
                         itemsCount: nat, totalDiff: int, hasScrap: bool)

  /** The group the archive shows for a document whose lines are `dl` (not empty). */
  function GroupFor(d: string, dl: seq<ArchiveLine>): Group
    requires dl != []
  {
    Group(d, dl[0].timestamp, dl[0].performedBy, |dl|, SumDiff(dl), HasScrapLine(dl))
  }

  /** The dictionary `grouped` holds exactly one group per document of `lines`. */
  ghost predicate GroupsOf(grouped: map<string, Group>, lines: seq<ArchiveLine>) {
    && (forall d :: d in grouped <==> DocLines(lines, d) != [])
    && (forall d :: d in grouped ==> grouped[d] == GroupFor(d, DocLines(lines, d)))
  }

  /** One step of the grouping loop: create the line's group if needed, then count the line in it. */
  function AddLine(grouped: map<string, Group>, l: ArchiveLine): map<string, Group> {
    var g := if l.doc in grouped then grouped[l.doc] else Group(l.doc, l.timestamp, l.performedBy, 0, 0, false);
    grouped[l.doc := g.(itemsCount := g.itemsCount + 1, totalDiff := g.totalDiff + l.diff,
                        hasScrap := g.hasScrap || l.state == Scrap)]
  }

  lemma AddLineKeepsGroups(grouped: map<string, Group>, lines: seq<ArchiveLine>, l: ArchiveLine)
    requires GroupsOf(grouped, lines)
    ensures GroupsOf(AddLine(grouped, l), lines + [l])
  {
    var next := AddLine(grouped, l);
    forall d ensures d in next <==> DocLines(lines + [l], d) != [] {
      DocLinesSnoc(lines, l, d);
    }
    forall d | d in next ensures next[d] == GroupFor(d, DocLines(lines + [l], d)) {
      DocLinesSnoc(lines, l, d);
      if d == l.doc {
        GroupForSnoc(d, DocLines(lines, d), l);
      }
    }
  }

  /**
   * Groups archive lines by document number, filling a dictionary line by
   * line: a document's group is created by its first line and every line
   * adds one to the count, its difference to the total and may set the
   * SCRAP flag.
   */
  method GroupArchive(lines: seq<ArchiveLine>) returns (grouped: map<string, Group>)
    ensures forall d :: d in grouped <==> DocLines(lines, d) != []
    ensures forall d :: d in grouped ==> grouped[d] == GroupFor(d, DocLines(lines, d))
  {
    grouped := map[];
    var i := 0;
    while i < |lines|
      invariant 0 <= i <= |lines|
      invariant GroupsOf(grouped, lines[..i])
    {
      var l := lines[i];
      assert lines[..i + 1] == lines[..i] + [l];
      AddLineKeepsGroups(grouped, lines[..i], l);
      grouped := AddLine(grouped, l);
      i := i + 1;
    }
    assert lines[..|lines|] == lines;
  }

  /** What one more line of a document does to its group. */
  lemma GroupForSnoc(d: string, dl: seq<ArchiveLine>, l: ArchiveLine)
    ensures var g := if dl == [] then Group(d, l.timestamp, l.performedBy, 0, 0, false) else GroupFor(d, dl);
            GroupFor(d, dl + [l]) == g.(itemsCount := g.itemsCount + 1, totalDiff := g.totalDiff + l.diff,
                                        hasScrap := g.hasScrap || l.state == Scrap)
  {
    var dl' := dl + [l];
    assert dl'[..|dl|] == dl;
    assert dl'[|dl|] == l;
    assert HasScrapLine(dl') == (HasScrapLine(dl) || l.state == Scrap) by {
      if HasScrapLine(dl) {
        var k :| 0 <= k < |dl| && dl[k].state == Scrap;
        assert dl'[k] == dl[k];
      }
    }
    if dl == [] {
      assert dl' == [l];
      assert SumDiff(dl') == l.diff;
      assert HasScrapLine(dl') == (l.state == Scrap);
    } else {
      assert dl'[0] == dl[0];
    }
  }

  /** The archive's three tabs: every document, documents without SCRAP lines, documents with one. */
  datatype ArchiveFilter = AllDocs | AuditDocs | ScrapDocs

  predicate Shows(f: ArchiveFilter, g: Group) {
    match f
    case AllDocs => true
    case AuditDocs => !g.hasScrap
    case ScrapDocs => g.hasScrap
  }

  function FilterGroups(grouped: map<string, Group>, f: ArchiveFilter): map<string, Group> {
    map d | d in grouped && Shows(f, grouped[d]) :: grouped[d]
  }

  /** The audit and scrap tabs split the documents between them; the first tab shows them all. */
  lemma ArchiveTabsPartition(grouped: map<string, Group>)
    ensures FilterGroups(grouped, AllDocs) == grouped
    ensures FilterGroups(grouped, AuditDocs).Keys !! FilterGroups(grouped, ScrapDocs).Keys
    ensures FilterGroups(grouped, AuditDocs).Keys + FilterGroups(grouped, ScrapDocs).Keys == grouped.Keys
  {
  }

  // ---------------------------------------------------------------------
  // Details of one archived document
  // ---------------------------------------------------------------------

  /** A custody event is listed in the details when its note has the tag or it is a settlement. */
  predicate IsDetailCustody(c: Custody) {
    (c.note.Some? && Contains(c.note.value, AuditTag)) || c.kind == Settlement
  }

  function MovementDetails(ms: seq<Movement>, d: string): seq<ArchiveLine>
    decreases |ms|
  {
    if ms == [] then []
    else MovementDetails(ms[..|ms| - 1], d)
         + (var m := ms[|ms| - 1]; if m.docNumber == d && IsAuditMovement(m) then [MovementLine(m)] else [])
  }

  function CustodyDetails(cs: seq<Custody>, d: string): seq<ArchiveLine>
    decreases |cs|
  {
    if cs == [] then []
    else CustodyDetails(cs[..|cs| - 1], d)
         + (var c := cs[|cs| - 1]; if c.docNumber == d && IsDetailCustody(c) then [CustodyLine(c)] else [])
  }

  /** The lines the details view lists for document `d`. */
  function DetailLines(ms: seq<Movement>, cs: seq<Custody>, d: string): seq<ArchiveLine> {
    MovementDetails(ms, d) + CustodyDetails(cs, d)
  }

  /** Who and when, from the first movement with number `d`, or else the first custody event with it. */
  function FirstMovementStamp(ms: seq<Movement>, d: string): Option<(string, string)>
    decreases |ms|
  {
    if ms == [] then None
    else
      var earlier := FirstMovementStamp(ms[..|ms| - 1], d);
      if earlier.Some? then earlier
      else if ms[|ms| - 1].docNumber == d then Some((ms[|ms| - 1].timestamp, ms[|ms| - 1].performedBy))
      else None
  }

  function FirstCustodyStamp(cs: seq<Custody>, d: string): Option<(string, string)>
    decreases |cs|
  {
    if cs == [] then None
    else
      var earlier := FirstCustodyStamp(cs[..|cs| - 1], d);
      if earlier.Some? then earlier
      else if cs[|cs| - 1].docNumber == d then Some((cs[|cs| - 1].timestamp, cs[|cs| - 1].performedBy))
      else None
  }

  lemma {:induction false} FirstMovementStampFound(ms: seq<Movement>, d: string)
    ensures FirstMovementStamp(ms, d).Some? <==> exists k :: 0 <= k < |ms| && ms[k].docNumber == d
    decreases |ms|
  {
    if ms != [] {
      var init := ms[..|ms| - 1];
      FirstMovementStampFound(init, d);
      assert forall k :: 0 <= k < |init| ==> init[k] == ms[k];
    }
  }

  lemma {:induction false} FirstCustodyStampFound(cs: seq<Custody>, d: string)
    ensures FirstCustodyStamp(cs, d).Some? <==> exists k :: 0 <= k < |cs| && cs[k].docNumber == d
    decreases |cs|
  {
    if cs != [] {
      var init := cs[..|cs| - 1];
      FirstCustodyStampFound(init, d);
      assert forall k :: 0 <= k < |init| ==> init[k] == cs[k];
    }
  }

  /**
   * One row of the details table: the item's name and code when the item
   * exists, the state, the difference, and the quantities before and after
   * the settlement (the book and the counted quantity).
   */
  datatype DetailRow = DetailRow(itemName: Option<string>, itemCode: Option<string>, state: CustodyState,
                                 diff: int, bookQty: int, physicalQty: int)

  function RowOf(l: ArchiveLine, items: seq<Item>): DetailRow {
    var item := FindItem(items, l.itemId);
    DetailRow(if item.Some? then Some(item.value.name) else None,
              if item.Some? then Some(item.value.code) else None,
              l.state, l.diff, l.balanceAfter - l.diff, l.balanceAfter)
  }

  function DetailRows(lines: seq<ArchiveLine>, items: seq<Item>): seq<DetailRow>
    decreases |lines|
  {
    if lines == [] then []
    else DetailRows(lines[..|lines| - 1], items) + [RowOf(lines[|lines| - 1], items)]
  }

  function SumRowDiff(rows: seq<DetailRow>): int
    decreases |rows|
  {
    if rows == [] then 0 else SumRowDiff(rows[..|rows| - 1]) + rows[|rows| - 1].diff
  }

  /**
   * The details table agrees with its lines and its heading: one row per
   * line with the line's state and difference, the counted quantity is the
   * recorded balance and the book quantity plus the difference, and the
   * rows' differences add up to the lines' net difference.
   */
  lemma {:induction false} DetailRowsAgree(lines: seq<ArchiveLine>, items: seq<Item>)
    ensures |DetailRows(lines, items)| == |lines|
    ensures forall i :: 0 <= i < |lines| ==>
              var row := DetailRows(lines, items)[i];
              && row.state == lines[i].state && row.diff == lines[i].diff
              && row.physicalQty == lines[i].balanceAfter
              && row.bookQty + row.diff == row.physicalQty
    ensures SumRowDiff(DetailRows(lines, items)) == SumDiff(lines)
    decreases |lines|
  {
    if lines != [] {
      var init := lines[..|lines| - 1];
      DetailRowsAgree(init, items);
      var rows := DetailRows(lines, items);
      assert rows[..|rows| - 1] == DetailRows(init, items);
      forall i | 0 <= i < |lines|
        ensures rows[i].state == lines[i].state && rows[i].diff == lines[i].diff
        ensures rows[i].physicalQty == lines[i].balanceAfter && rows[i].bookQty + rows[i].diff == rows[i].physicalQty
      {
        if i < |init| {
          assert rows[i] == DetailRows(init, items)[i] && lines[i] == init[i];
        }
      }
    }
  }

  /** A row names the item exactly when the item exists, and then with its own name and code. */
  lemma RowNamesItem(l: ArchiveLine, items: seq<Item>)
    ensures RowOf(l, items).itemName.Some? <==> exists k :: 0 <= k < |items| && items[k].id == l.itemId
    ensures RowOf(l, items).itemName.Some? ==>
              exists k :: 0 <= k < |items| && items[k].id == l.itemId
                          && RowOf(l, items).itemName.value == items[k].name
                          && RowOf(l, items).itemCode == Some(items[k].code)
  {
    var item := FindItem(items, l.itemId);
    if item.Some? {
      var k :| 0 <= k < |items| && items[k] == item.value;
    }
  }

  lemma {:induction false} DetailRowsConcat(a: seq<ArchiveLine>, b: seq<ArchiveLine>, items: seq<Item>)
    ensures DetailRows(a + b, items) == DetailRows(a, items) + DetailRows(b, items)
    decreases |b|
  {
    if b == [] {
      assert a + b == a;
    } else {
      assert (a + b)[..|a + b| - 1] == a + b[..|b| - 1];
      DetailRowsConcat(a, b[..|b| - 1], items);
    }
  }

  /** The details view: document, time, author, line count, net difference and the table of rows. */
  datatype AuditDetails = AuditDetails(docNumber: string, timestamp: string, performedBy: string,
                                       itemsCount: nat, totalDiff: int, details: seq<DetailRow>)

  /** The pass over the movement log: first stamp, count and net difference of the listed movements. */
  method ScanMovements(ms: seq<Movement>, d: string, items: seq<Item>)
    returns (first: Option<(string, string)>, count: nat, total: int, rows: seq<DetailRow>)
    ensures first == FirstMovementStamp(ms, d)
    ensures count == |MovementDetails(ms, d)| && total == SumDiff(MovementDetails(ms, d))
    ensures rows == DetailRows(MovementDetails(ms, d), items)
  {
    first, count, total, rows := None, 0, 0, [];
    var i := 0;
    while i < |ms|
      invariant 0 <= i <= |ms|
      invariant first == FirstMovementStamp(ms[..i], d)
      invariant count == |MovementDetails(ms[..i], d)|
      invariant total == SumDiff(MovementDetails(ms[..i], d))
      invariant rows == DetailRows(MovementDetails(ms[..i], d), items)
    {
      var m := ms[i];
      assert ms[..i + 1][..i] == ms[..i];
      ghost var prev := MovementDetails(ms[..i], d);
      if first.None? && m.docNumber == d {
        first := Some((m.timestamp, m.performedBy));
      }
      if m.docNumber == d && IsAuditMovement(m) {
        assert MovementDetails(ms[..i + 1], d) == prev + [MovementLine(m)];
        assert (prev + [MovementLine(m)])[..|prev|] == prev;
        count := count + 1;
        total := total + MovementLine(m).diff;
        rows := rows + [RowOf(MovementLine(m), items)];
      } else {
        assert MovementDetails(ms[..i + 1], d) == prev + [];
        assert prev + [] == prev;
      }
      i := i + 1;
    }
    assert ms[..|ms|] == ms;
  }

  /** The pass over the custody log. */
  method ScanCustodies(cs: seq<Custody>, d: string, items: seq<Item>)
    returns (first: Option<(string, string)>, count: nat, total: int, rows: seq<DetailRow>)
    ensures first == FirstCustodyStamp(cs, d)
    ensures count == |CustodyDetails(cs, d)| && total == SumDiff(CustodyDetails(cs, d))
    ensures rows == DetailRows(CustodyDetails(cs, d), items)
  {
    first, count, total, rows := None, 0, 0, [];
    var j := 0;
    while j < |cs|
      invariant 0 <= j <= |cs|
      invariant first == FirstCustodyStamp(cs[..j], d)
      invariant count == |CustodyDetails(cs[..j], d)|
      invariant total == SumDiff(CustodyDetails(cs[..j], d))
      invariant rows == DetailRows(CustodyDetails(cs[..j], d), items)
    {
      var c := cs[j];
      assert cs[..j + 1][..j] == cs[..j];
      ghost var prev := CustodyDetails(cs[..j], d);
      if first.None? && c.docNumber == d {
        first := Some((c.timestamp, c.performedBy));
      }
      if c.docNumber == d && IsDetailCustody(c) {
        assert CustodyDetails(cs[..j + 1], d) == prev + [CustodyLine(c)];
        assert (prev + [CustodyLine(c)])[..|prev|] == prev;
        count := count + 1;
        total := total + CustodyLine(c).diff;
        rows := rows + [RowOf(CustodyLine(c), items)];
      } else {
        assert CustodyDetails(cs[..j + 1], d) == prev + [];
        assert prev + [] == prev;
      }
      j := j + 1;
    }
    assert cs[..|cs|] == cs;
  }

  /**
   * The details of document `d`: nothing for an empty number or one no log
   * entry carries; otherwise the first entry's time and author, and the
   * count and net difference of the listed lines, with one table row per
   * line (see `DetailRowsAgree`).
   */
  method SelectedAuditDetails(ms: seq<Movement>, cs: seq<Custody>, items: seq<Item>, d: string)
    returns (r: Option<AuditDetails>)
    ensures r.None? <==> d == [] || !DocNumberUsed(ms, cs, d)
    ensures r.Some? ==>
      var stamp := if FirstMovementStamp(ms, d).Some? then FirstMovementStamp(ms, d) else FirstCustodyStamp(cs, d);
      && stamp.Some?
      && r.value == AuditDetails(d, stamp.value.0, stamp.value.1,
                                 |DetailLines(ms, cs, d)|, SumDiff(DetailLines(ms, cs, d)),
                                 DetailRows(DetailLines(ms, cs, d), items))
  {
    if d == [] {
      return None;
    }
    var mfirst, mcount, mtotal, mrows := ScanMovements(ms, d, items);
    var cfirst, ccount, ctotal, crows := ScanCustodies(cs, d, items);
    FirstMovementStampFound(ms, d);
    FirstCustodyStampFound(cs, d);
    SumDiffConcat(MovementDetails(ms, d), CustodyDetails(cs, d));
    DetailRowsConcat(MovementDetails(ms, d), CustodyDetails(cs, d), items);
    var first := if mfirst.Some? then mfirst else cfirst;
    if first.None? {
      return None;
    }
    r := Some(AuditDetails(d, first.value.0, first.value.1, mcount + ccount, mtotal + ctotal, mrows + crows));
  }

  lemma {:induction false} SumDiffConcat(a: seq<ArchiveLine>, b: seq<ArchiveLine>)
    ensures SumDiff(a + b) == SumDiff(a) + SumDiff(b)
    decreases |b|
  {
    if b == [] {
      assert a + b == a;
    } else {
      assert (a + b)[..|a + b| - 1] == a + b[..|b| - 1];
      SumDiffConcat(a, b[..|b| - 1]);
    }
  }

  lemma {:induction false} MovementDetailsAreArchiveLines(ms: seq<Movement>, d: string)
    ensures MovementDetails(ms, d) == DocLines(MovementLines(ms), d)
    decreases |ms|
  {
    if ms != [] {
      var init := ms[..|ms| - 1];
      var m := ms[|ms| - 1];
      MovementDetailsAreArchiveLines(init, d);
      DocLinesSnoc(MovementLines(init), MovementLine(m), d);
      if !IsAuditMovement(m) {
        assert MovementLines(ms) == MovementLines(init) + [];
        assert MovementLines(init) + [] == MovementLines(init);
      }
    }
  }

  lemma {:induction false} CustodyDetailsAreArchiveLines(cs: seq<Custody>, d: string)
    requires forall k :: 0 <= k < |cs| && cs[k].docNumber == d ==> (IsDetailCustody(cs[k]) ==> cs[k].kind == Settlement)
    ensures CustodyDetails(cs, d) == DocLines(SettlementLines(cs), d)
    decreases |cs|
  {
    if cs != [] {
      var init := cs[..|cs| - 1];
      var c := cs[|cs| - 1];
      assert forall k :: 0 <= k < |init| ==> init[k] == cs[k];
      CustodyDetailsAreArchiveLines(init, d);
      DocLinesSnoc(SettlementLines(init), CustodyLine(c), d);
      if c.kind != Settlement {
        assert SettlementLines(cs) == SettlementLines(init) + [];
        assert SettlementLines(init) + [] == SettlementLines(init);
      }
    }
  }

  /**
   * The details view and the archive agree on a document, as long as no
   * custody event other than a settlement carries its number and the tag:
   * the details list exactly the archive's lines of that document, so the
   * count and net difference match the archive group.
   */
  lemma DetailsMatchArchive(ms: seq<Movement>, cs: seq<Custody>, d: string)
    requires forall k :: 0 <= k < |cs| && cs[k].docNumber == d ==> (IsDetailCustody(cs[k]) ==> cs[k].kind == Settlement)
    ensures DetailLines(ms, cs, d) == DocLines(ArchiveLines(ms, cs), d)
  {
    MovementDetailsAreArchiveLines(ms, d);
    CustodyDetailsAreArchiveLines(cs, d);
    DocLinesConcat(MovementLines(ms), SettlementLines(cs), d);
  }
}
