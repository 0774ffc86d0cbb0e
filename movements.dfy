/**
 * The movement recorder: the input sanitisers of its form, and saving,
 * returning against, editing and deleting a warehouse movement, each of which
 * rewrites the item's `currentBalance` together with the movement log.
 *
 * The partner of the four operations is the drift of an item: its
 * `currentBalance` minus the net effect of its movements. Each accepted
 * operation moves both by the same amount, so the drift is kept.
 */
module Movements {
  import opened Types
  import opened Text
  import opened Ledger

  // ---------------------------------------------------------------------
  // Input sanitisers
  // ---------------------------------------------------------------------

  /** `cleanInt`: leading zeros are dropped first, then every non-digit. */
  function CleanInt(s: string): (r: string)
    ensures AllDigits(r) && |r| <= |s|
  {
    KeepDigits(StripLeadingZeros(s))
  }

  /** Dropping leading zeros never changes the number the digits of the input spell. */
  lemma {:induction false} CleanIntKeepsValue(s: string)
    ensures DigitsValue(CleanInt(s)) == DigitsValue(KeepDigits(s))
    decreases |s|
  {
    if s != [] && s[0] == '0' {
      assert KeepDigits(s) == "0" + KeepDigits(s[1..]);
      LeadingZeroValue(KeepDigits(s[1..]));
      CleanIntKeepsValue(s[1..]);
    }
  }

  predicate IsDigitOrDot(c: char) { IsDigit(c) || c == '.' }

  predicate DigitsAndDots(s: string) {
    forall i :: 0 <= i < |s| ==> IsDigitOrDot(s[i])
  }

  /** `s.replace(/[^0-9.]/g, '')`. */
  function KeepDigitsAndDots(s: string): (r: string)
    ensures DigitsAndDots(r)
    decreases |s|
  {
    if s == [] then [] else (if IsDigitOrDot(s[0]) then [s[0]] else []) + KeepDigitsAndDots(s[1..])
  }

  /** `s.replace(/\./g, '')`: what `join('')` leaves of the parts after the first. */
  function DropDots(s: string): (r: string)
    ensures '.' !in r
    ensures forall i :: 0 <= i < |r| ==> r[i] in s
    decreases |s|
  {
    if s == [] then [] else (if s[0] == '.' then [] else [s[0]]) + DropDots(s[1..])
  }

  /** The text before the first '.' and the text after it (`split('.')` into the first part and the rest). */
  function SplitAtDot(s: string): (r: (string, string))
    ensures '.' !in r.0
    ensures '.' in s ==> s == r.0 + "." + r.1
    ensures '.' !in s ==> r.0 == s && r.1 == []
    decreases |s|
  {
    if s == [] then ([], [])
    else if s[0] == '.' then ([], s[1..])
    else
      var rest := SplitAtDot(s[1..]);
      assert '.' in s[1..] ==> s == [s[0]] + rest.0 + "." + rest.1;
      ([s[0]] + rest.0, rest.1)
  }

  predicate AtMostOneDot(s: string) {
    forall i, j :: 0 <= i < j < |s| && s[i] == '.' ==> s[j] != '.'
  }

  lemma OneDotBetween(a: string, b: string)
    requires '.' !in a && '.' !in b
    ensures AtMostOneDot(a + "." + b)
  {
    var s := a + "." + b;
    assert forall k :: 0 <= k < |a| ==> s[k] == a[k];
    assert forall k :: |a| < k < |s| ==> s[k] == b[k - |a| - 1];
    forall i, j | 0 <= i < j < |s| && s[i] == '.' ensures s[j] != '.' {
      assert i == |a|;
    }
  }

  /** The two sides of the first dot of a string of digits and dots are digits and dots too. */
  lemma SplitKeepsDigitsAndDots(c: string)
    requires DigitsAndDots(c) && '.' in c
    ensures DigitsAndDots(SplitAtDot(c).0) && DigitsAndDots(SplitAtDot(c).1)
  {
    var parts := SplitAtDot(c);
    PartsKeepDigitsAndDots(parts.0, parts.1, c);
  }

  lemma PartsKeepDigitsAndDots(a: string, b: string, c: string)
    requires c == a + "." + b && DigitsAndDots(c)
    ensures DigitsAndDots(a) && DigitsAndDots(b)
  {
    forall i | 0 <= i < |a| ensures IsDigitOrDot(a[i]) { assert a[i] == c[i]; }
    forall j | 0 <= j < |b| ensures IsDigitOrDot(b[j]) { assert b[j] == c[|a| + 1 + j]; }
  }

  lemma DropDotsKeepsDigits(b: string)
    requires DigitsAndDots(b)
    ensures DigitsAndDots(DropDots(b))
  {
    var r := DropDots(b);
    forall i | 0 <= i < |r| ensures IsDigitOrDot(r[i]) {
      assert r[i] in b;
    }
  }

  /** `parts.length > 2 ? parts[0] + '.' + parts.slice(1).join('') : cleaned`: every dot after the first is dropped. */
  function FirstDotOnly(c: string): (r: string)
    requires DigitsAndDots(c)
    ensures DigitsAndDots(r) && AtMostOneDot(r)
  {
    var parts := SplitAtDot(c);
    if '.' in c && '.' in parts.1 then
      SplitKeepsDigitsAndDots(c);
      DropDotsKeepsDigits(parts.1);
      OneDotBetween(parts.0, DropDots(parts.1));
      var r := parts.0 + "." + DropDots(parts.1);
      assert forall i :: 0 <= i < |r| ==> IsDigitOrDot(r[i]) by {
        forall i | 0 <= i < |r| ensures IsDigitOrDot(r[i]) {
          if i < |parts.0| { assert r[i] == parts.0[i]; }
          else if i > |parts.0| { assert r[i] == DropDots(parts.1)[i - |parts.0| - 1]; }
        }
      }
      r
    else
      assert AtMostOneDot(c) by {
        if '.' in c { OneDotBetween(parts.0, parts.1); }
      }
      c
  }

  /**
   * `cleanFloat`: only digits and dots are kept; from a second dot on, every
   * dot after the first is dropped; leading zeros are dropped when the text
   * starts with '0' followed by something other than a dot.
   */
  function CleanFloat(s: string): (r: string)
    ensures DigitsAndDots(r) && AtMostOneDot(r)
    ensures !(StartsWith(r, "0") && |r| > 1 && r[1] != '.')
  {
    TrimZeros(FirstDotOnly(KeepDigitsAndDots(s)))
  }

  /** The last step of `cleanFloat`: leading zeros go when a '0' starts the text and no dot follows it. */
  function TrimZeros(single: string): (r: string)
    requires DigitsAndDots(single) && AtMostOneDot(single)
    ensures DigitsAndDots(r) && AtMostOneDot(r)
    ensures !(StartsWith(r, "0") && |r| > 1 && r[1] != '.')
  {
    if StartsWith(single, "0") && |single| > 1 && single[1] != '.' then
      var r := StripLeadingZeros(single);
      SuffixKeepsShape(single, |single| - |r|);
      r
    else single
  }

  /** Digits and dots are kept. */
  lemma {:induction false} KeepDigitsAndDotsOfClean(c: string)
    requires DigitsAndDots(c)
    ensures KeepDigitsAndDots(c) == c
    decreases |c|
  {
    if c != [] {
      KeepDigitsAndDotsOfClean(c[1..]);
    }
  }

  /** With at most one dot, nothing follows the first dot that is a dot again. */
  lemma FirstDotOnlyOfOneDot(c: string)
    requires DigitsAndDots(c) && AtMostOneDot(c)
    ensures FirstDotOnly(c) == c
  {
    if '.' in c {
      var (a, b) := SplitAtDot(c);
      assert c == a + "." + b;
      assert c[|a|] == '.';
      forall j | 0 <= j < |b| ensures b[j] != '.' {
        assert b[j] == c[|a| + 1 + j];
      }
    }
  }

  /**
   * A text `cleanFloat` could have produced comes back unchanged: digits and
   * dots, at most one dot, no leading '0' before a digit.
   */
  lemma CleanFloatFixedPoint(c: string)
    requires DigitsAndDots(c) && AtMostOneDot(c)
    requires !(StartsWith(c, "0") && |c| > 1 && c[1] != '.')
    ensures CleanFloat(c) == c
  {
    KeepDigitsAndDotsOfClean(c);
    FirstDotOnlyOfOneDot(c);
  }

  /** Cleaning twice is cleaning once. */
  lemma CleanFloatIdempotent(s: string)
    ensures CleanFloat(CleanFloat(s)) == CleanFloat(s)
  {
    CleanFloatFixedPoint(CleanFloat(s));
  }

  /** A suffix of a string of digits and at most one dot is one too. */
  lemma SuffixKeepsShape(c: string, n: nat)
    requires DigitsAndDots(c) && AtMostOneDot(c) && n <= |c|
    ensures DigitsAndDots(c[n..]) && AtMostOneDot(c[n..])
  {
    var r := c[n..];
    assert forall i :: 0 <= i < |r| ==> r[i] == c[n + i];
  }

  // ---------------------------------------------------------------------
  // Balance bookkeeping
  // ---------------------------------------------------------------------

  /** `+q` for an inward movement, `-q` for an outward one. */
  function Signed(kind: MovementType, q: int): int {
    if kind == Inward then q else -q
  }

  /** The `currentBalance` of the first item with that id, 0 for an unknown id. */
  function BalanceOf(items: seq<Item>, id: string): int {
    match FindItem(items, id)
    case Some(item) => item.currentBalance
    case None => 0
  }

  /** An item's `currentBalance` minus the net effect of its movements. */
  function Drift(items: seq<Item>, ms: seq<Movement>, id: string): int {
    BalanceOf(items, id) - MovementSum(ms, id)
  }

  /** The drift is kept when the balance and the movement sum move together. */
  lemma DriftKept(items: seq<Item>, items': seq<Item>, ms: seq<Movement>, ms': seq<Movement>, x: string, d: int)
    requires BalanceOf(items', x) == BalanceOf(items, x) + d
    requires MovementSum(ms', x) == MovementSum(ms, x) + d
    ensures Drift(items', ms', x) == Drift(items, ms, x)
  {
  }

  /** `items.map(it => it.id === id ? f(it) : it)`. */
  function MapItem(items: seq<Item>, id: string, f: Item -> Item): seq<Item> {
    seq(|items|, k requires 0 <= k < |items| => if items[k].id == id then f(items[k]) else items[k])
  }

  /** Rewriting the items with one id, keeping ids, rewrites only the first one `find` sees. */
  lemma {:induction false} FindItemMapItem(items: seq<Item>, id: string, f: Item -> Item, x: string)
    requires forall k :: 0 <= k < |items| ==> f(items[k]).id == items[k].id
    ensures FindItem(MapItem(items, id, f), x)
            == if x == id && FindItem(items, x).Some? then Some(f(FindItem(items, x).value)) else FindItem(items, x)
    decreases |items|
  {
    if items != [] {
      assert MapItem(items, id, f)[1..] == MapItem(items[1..], id, f);
      FindItemMapItem(items[1..], id, f, x);
    }
  }

  /** The balance `find` sees after the items with one id are rewritten, ids kept. */
  lemma BalanceOfMapItem(items: seq<Item>, id: string, f: Item -> Item, x: string)
    requires forall k :: 0 <= k < |items| ==> f(items[k]).id == items[k].id
    requires FindItem(items, id).Some?
    ensures BalanceOf(MapItem(items, id, f), x)
            == if x == id then f(FindItem(items, id).value).currentBalance else BalanceOf(items, x)
  {
    FindItemMapItem(items, id, f, x);
  }

  /** `SetBalance` is `MapItem` with the balance replaced. */
  function SetTo(b: int): Item -> Item {
    (it: Item) => it.(currentBalance := b)
  }

  lemma SetBalanceIsMapItem(items: seq<Item>, id: string, b: int)
    ensures SetBalance(items, id, b) == MapItem(items, id, SetTo(b))
  {
  }

  /** Unique movement ids (they are generated). */
  predicate UniqueIds(ms: seq<Movement>) {
    forall i, j :: 0 <= i < j < |ms| ==> ms[i].id != ms[j].id
  }

  /** `movements.map(m => m.id === id ? f(m) : m)`. */
  function ReplaceMovement(ms: seq<Movement>, id: string, f: Movement -> Movement): seq<Movement> {
    seq(|ms|, k requires 0 <= k < |ms| => if ms[k].id == id then f(ms[k]) else ms[k])
  }

  lemma ReplaceUnique(ms: seq<Movement>, p: nat, f: Movement -> Movement)
    requires UniqueIds(ms) && p < |ms|
    ensures ReplaceMovement(ms, ms[p].id, f) == ms[..p] + [f(ms[p])] + ms[p + 1..]
  {
    var r := ReplaceMovement(ms, ms[p].id, f);
    var t := ms[..p] + [f(ms[p])] + ms[p + 1..];
    assert |r| == |t|;
    forall k | 0 <= k < |r| ensures r[k] == t[k] {
      if k < p { assert t[k] == ms[k]; }
      if k > p { assert t[k] == ms[k]; }
    }
  }

  /** The movement sum after one movement is swapped for another. */
  lemma MovementSumSwap(ms: seq<Movement>, p: nat, x: Movement, id: string)
    requires p < |ms|
    ensures MovementSum(ms[..p] + [x] + ms[p + 1..], id)
            == MovementSum(ms, id) - (if ms[p].itemId == id then MovementEffect(ms[p]) else 0)
               + (if x.itemId == id then MovementEffect(x) else 0)
  {
    assert ms == ms[..p] + [ms[p]] + ms[p + 1..];
    MovementSumConcat(ms[..p] + [ms[p]], ms[p + 1..], id);
    MovementSumConcat(ms[..p], [ms[p]], id);
    MovementSumConcat(ms[..p] + [x], ms[p + 1..], id);
    MovementSumConcat(ms[..p], [x], id);
    assert [ms[p]][..0] == [] && [x][..0] == [];
  }

  /** The balance `find` sees after `SetBalance`. */
  lemma {:induction false} BalanceOfSetBalance(items: seq<Item>, id: string, b: int, x: string)
    ensures BalanceOf(SetBalance(items, id, b), x) == if x == id && FindItem(items, x).Some? then b else BalanceOf(items, x)
    decreases |items|
  {
    if items != [] {
      var items' := SetBalance(items, id, b);
      assert items'[1..] == SetBalance(items[1..], id, b);
      assert items'[0].id == items[0].id;
      BalanceOfSetBalance(items[1..], id, b, x);
    }
  }

  /** Setting the balance of a found item shifts its balance by the difference and no other. */
  lemma SetBalanceShift(items: seq<Item>, item: Item, d: int, x: string)
    requires FindItem(items, item.id) == Some(item)
    ensures BalanceOf(SetBalance(items, item.id, item.currentBalance + d), x) == BalanceOf(items, x) + (if x == item.id then d else 0)
  {
    BalanceOfSetBalance(items, item.id, item.currentBalance + d, x);
  }

  /** Rewriting one movement (ids unique) so that its effect grows by `d` grows its item's sum by `d`. */
  lemma ReplaceShift(ms: seq<Movement>, p: nat, f: Movement -> Movement, d: int, x: string)
    requires UniqueIds(ms) && p < |ms|
    requires f(ms[p]).itemId == ms[p].itemId && MovementEffect(f(ms[p])) == MovementEffect(ms[p]) + d
    ensures MovementSum(ReplaceMovement(ms, ms[p].id, f), x) == MovementSum(ms, x) + (if x == ms[p].itemId then d else 0)
  {
    ReplaceUnique(ms, p, f);
    MovementSumSwap(ms, p, f(ms[p]), x);
  }

  function NotId(id: string): Movement -> bool {
    (m: Movement) => m.id != id
  }

  lemma {:induction false} FilterKeepsOthers(ms: seq<Movement>, id: string)
    requires forall k :: 0 <= k < |ms| ==> ms[k].id != id
    ensures Filter(ms, NotId(id)) == ms
    decreases |ms|
  {
    if ms != [] {
      FilterKeepsOthers(ms[1..], id);
    }
  }

  /** The tail of a log with unique ids has unique ids, none of them the head's. */
  lemma UniqueTail(ms: seq<Movement>)
    requires UniqueIds(ms) && ms != []
    ensures UniqueIds(ms[1..])
    ensures forall k :: 0 <= k < |ms[1..]| ==> ms[1..][k].id != ms[0].id
  {
    forall k | 0 <= k < |ms[1..]| ensures ms[1..][k].id != ms[0].id {
      assert ms[1..][k] == ms[k + 1];
    }
  }

  lemma SpliceHead(ms: seq<Movement>, p: nat)
    requires 0 < p < |ms|
    ensures ms[..p] + ms[p + 1..] == [ms[0]] + (ms[1..][..p - 1] + ms[1..][p..])
  {
  }

  /** With unique ids, filtering one id out removes exactly the movement carrying it. */
  lemma {:induction false} FilterRemovesOne(ms: seq<Movement>, p: nat)
    requires UniqueIds(ms) && p < |ms|
    ensures Filter(ms, NotId(ms[p].id)) == ms[..p] + ms[p + 1..]
    decreases p
  {
    var id := ms[p].id;
    var tail := ms[1..];
    UniqueTail(ms);
    if p == 0 {
      FilterKeepsOthers(tail, id);
    } else {
      assert tail[p - 1] == ms[p];
      FilterRemovesOne(tail, p - 1);
      assert Filter(ms, NotId(id)) == [ms[0]] + Filter(tail, NotId(id));
      SpliceHead(ms, p);
    }
  }

  // ---------------------------------------------------------------------
  // Saving a movement
  // ---------------------------------------------------------------------

  /** The movement form: kind, item, quantity (the digits-only field parsed, 0 when empty), and the rest of its fields. */
  datatype MovementForm = MovementForm(
    kind: MovementType,
    itemId: string,
    qty: nat,
    docNumber: string,
    warehouseId: string,
    supplierId: string,
    employeeId: string,
    note: string,
    unitPrice: real)

  function KindWord(kind: MovementType): string {
    if kind == Inward then "وارد" else "منصرف"
  }

  function CreationChanges(kind: MovementType): string {
    "تسجيل الحركة لأول مرة (" + KindWord(kind) + ")"
  }

  /** The new movement: the warehouse and employee only on an issue, the supplier only on a receipt, nothing returned yet. */
  function NewMovement(form: MovementForm, item: Item, id: string, now: string, performer: string, balanceAfter: int): Movement {
    Movement(id, form.itemId, form.kind, form.qty, item.unitId, form.docNumber,
             if form.kind == Outward then Some(form.warehouseId) else None,
             if form.kind == Inward then Some(form.supplierId) else None,
             if form.kind == Outward then Some(form.employeeId) else None,
             performer, now, balanceAfter, Some(form.note),
             if form.unitPrice > 0.0 then Some(form.unitPrice) else None,
             0, None, None, None,
             [HistoryEntry(performer, now, CreationChanges(form.kind))])
  }

  /** The item after a saved movement: its new balance, and a positive receipt price becomes its price. */
  function Repriced(b: int, form: MovementForm): Item -> Item {
    (it: Item) => it.(currentBalance := b, price := if form.kind == Inward && form.unitPrice > 0.0 then form.unitPrice else it.price)
  }

  /**
   * Saves a new movement. No item selected, a zero quantity, and an issue
   * above the item's `currentBalance` are refused. Otherwise the item gets
   * its new balance (and price), and the movement goes in front of the log.
   */
  method SaveMovement(st: Store, form: MovementForm, id: string, now: string, performer: string) returns (outcome: Outcome)
    modifies st
    ensures unchanged(st`units, st`warehouses, st`employees, st`suppliers, st`financialYears, st`selectedYear)
    ensures st.custodies == old(st.custodies)
    ensures outcome != Accepted ==> st.items == old(st.items) && st.movements == old(st.movements)
    ensures outcome == Rejected(NoItemSelected) <==> FindItem(old(st.items), form.itemId).None?
    ensures outcome == Rejected(InvalidQuantity) <==> FindItem(old(st.items), form.itemId).Some? && form.qty == 0
    ensures outcome == Rejected(InsufficientStock) <==>
      && FindItem(old(st.items), form.itemId).Some? && form.qty > 0 && form.kind == Outward
      && form.qty > FindItem(old(st.items), form.itemId).value.currentBalance
    ensures outcome in {Accepted, Rejected(NoItemSelected), Rejected(InvalidQuantity), Rejected(InsufficientStock)}
    ensures outcome == Accepted ==>
      var item := FindItem(old(st.items), form.itemId).value;
      var nb := item.currentBalance + Signed(form.kind, form.qty);
      && (form.kind == Outward ==> nb >= 0)
      && st.items == MapItem(old(st.items), item.id, Repriced(nb, form))
      && st.movements == [NewMovement(form, item, id, now, performer, nb)] + old(st.movements)
  {
    var found := FindItem(st.items, form.itemId);
    if found.None? {
      return Rejected(NoItemSelected);
    }
    var item := found.value;
    if form.qty <= 0 {
      return Rejected(InvalidQuantity);
    }
    if form.kind == Outward && form.qty > item.currentBalance {
      return Rejected(InsufficientStock);
    }
    var nb := item.currentBalance + Signed(form.kind, form.qty);
    st.items := MapItem(st.items, item.id, Repriced(nb, form));
    st.movements := [NewMovement(form, item, id, now, performer, nb)] + st.movements;
    outcome := Accepted;
  }

  /** A saved movement gives the item its recorded `balanceAfter` and keeps every item's drift. */
  lemma SaveKeepsDrift(items: seq<Item>, ms: seq<Movement>, item: Item, form: MovementForm, id: string, now: string, performer: string,
                       nb: int, x: string)
    requires FindItem(items, form.itemId) == Some(item)
    requires nb == item.currentBalance + Signed(form.kind, form.qty)
    ensures BalanceOf(MapItem(items, item.id, Repriced(nb, form)), form.itemId) == nb
    ensures NewMovement(form, item, id, now, performer, nb).balanceAfter == nb
    ensures Drift(MapItem(items, item.id, Repriced(nb, form)), [NewMovement(form, item, id, now, performer, nb)] + ms, x)
            == Drift(items, ms, x)
  {
    var m := NewMovement(form, item, id, now, performer, nb);
    assert item.id == form.itemId == m.itemId;
    assert MovementEffect(m) == Signed(form.kind, form.qty);
    assert Repriced(nb, form)(item).currentBalance == nb;
    BalanceOfMapItem(items, item.id, Repriced(nb, form), x);
    BalanceOfMapItem(items, item.id, Repriced(nb, form), form.itemId);
    MovementSumPrepend(m, ms, x);
    DriftKept(items, MapItem(items, item.id, Repriced(nb, form)), ms, [m] + ms, x,
              if x == item.id then Signed(form.kind, form.qty) else 0);
  }

  // ---------------------------------------------------------------------
  // Returning against a movement
  // ---------------------------------------------------------------------

  function ReturnChanges(retQty: nat, doc: string): string {
    "تسجيل مرتجع بكمية [" + NatToString(retQty) + "] بسند [" + doc + "]"
  }

  /** The movement after a return of `retQty`: more returned, the return document, the shifted `balanceAfter`, one more history entry. */
  function ReturnApplied(retQty: nat, doc: string, diff: int, entry: HistoryEntry): Movement -> Movement {
    (m: Movement) => m.(returnedQuantity := m.returnedQuantity + retQty, returnDocNumber := Some(doc),
            balanceAfter := m.balanceAfter + diff, history := m.history + [entry])
  }

  /**
   * Records a return against the movement shown in the return dialog. With
   * no movement shown, or its item gone, nothing happens; a quantity that is
   * zero or above what is left to return is refused. Otherwise the item's
   * balance moves back by the quantity (down for a receipt, up for an issue)
   * and every movement with that id records the return.
   */
  method RegisterReturn(st: Store, active: Option<Movement>, retQty: nat, returnDoc: string, now: string, performer: string)
    returns (outcome: Outcome)
    modifies st
    ensures unchanged(st`units, st`warehouses, st`employees, st`suppliers, st`financialYears, st`selectedYear)
    ensures st.custodies == old(st.custodies)
    ensures outcome != Accepted ==> st.items == old(st.items) && st.movements == old(st.movements)
    ensures outcome == Ignored <==> active.None? || FindItem(old(st.items), active.value.itemId).None?
    ensures outcome == Rejected(ReturnExceedsAvailable) <==>
      && active.Some? && FindItem(old(st.items), active.value.itemId).Some?
      && (retQty == 0 || retQty > active.value.quantity - active.value.returnedQuantity)
    ensures outcome in {Accepted, Ignored, Rejected(ReturnExceedsAvailable)}
    ensures outcome == Accepted ==>
      var m := active.value;
      var item := FindItem(old(st.items), m.itemId).value;
      var diff := -Signed(m.kind, retQty);
      && 0 < retQty <= m.quantity - m.returnedQuantity
      && st.items == SetBalance(old(st.items), item.id, item.currentBalance + diff)
      && st.movements == ReplaceMovement(old(st.movements), m.id,
                           ReturnApplied(retQty, returnDoc, diff, HistoryEntry(performer, now, ReturnChanges(retQty, returnDoc))))
  {
    if active.None? {
      return Ignored;
    }
    var m := active.value;
    var found := FindItem(st.items, m.itemId);
    if found.None? {
      return Ignored;
    }
    var item := found.value;
    if retQty <= 0 || retQty > m.quantity - m.returnedQuantity {
      return Rejected(ReturnExceedsAvailable);
    }
    var diff := -Signed(m.kind, retQty);
    st.items := SetBalance(st.items, item.id, item.currentBalance + diff);
    st.movements := ReplaceMovement(st.movements, m.id,
                      ReturnApplied(retQty, returnDoc, diff, HistoryEntry(performer, now, ReturnChanges(retQty, returnDoc))));
    outcome := Accepted;
  }

  /** A return against a movement of the log (ids unique) keeps every item's drift. */
  lemma ReturnKeepsDrift(items: seq<Item>, ms: seq<Movement>, p: nat, item: Item, retQty: nat, doc: string, entry: HistoryEntry,
                         diff: int, x: string)
    requires UniqueIds(ms) && p < |ms|
    requires FindItem(items, ms[p].itemId) == Some(item)
    requires diff == -Signed(ms[p].kind, retQty)
    ensures Drift(SetBalance(items, item.id, item.currentBalance + diff), ReplaceMovement(ms, ms[p].id, ReturnApplied(retQty, doc, diff, entry)), x)
            == Drift(items, ms, x)
  {
    var m := ms[p];
    var f := ReturnApplied(retQty, doc, diff, entry);
    assert f(m).itemId == m.itemId && MovementEffect(f(m)) == MovementEffect(m) + diff;
    SetBalanceShift(items, item, diff, x);
    ReplaceShift(ms, p, f, diff, x);
    DriftKept(items, SetBalance(items, item.id, item.currentBalance + diff), ms, ReplaceMovement(ms, m.id, f), x,
              if x == item.id then diff else 0);
  }

  /** An accepted return leaves the returned quantity of the movement growing and still within its quantity. */
  lemma ReturnStaysWithinQuantity(ms: seq<Movement>, p: nat, retQty: nat, doc: string, entry: HistoryEntry, diff: int)
    requires UniqueIds(ms) && p < |ms|
    requires 0 <= ms[p].returnedQuantity && 0 < retQty <= ms[p].quantity - ms[p].returnedQuantity
    ensures ms[p].returnedQuantity < ReplaceMovement(ms, ms[p].id, ReturnApplied(retQty, doc, diff, entry))[p].returnedQuantity
            <= ReplaceMovement(ms, ms[p].id, ReturnApplied(retQty, doc, diff, entry))[p].quantity
  {
  }

  // ---------------------------------------------------------------------
  // Editing a movement
  // ---------------------------------------------------------------------

  /** The edit dialog: the new quantity (parsed, 0 when empty), document number, note, the parsed price, and whether the price text was changed. */
  datatype EditForm = EditForm(qty: nat, docNumber: string, note: string, unitPrice: real, priceEdited: bool)

  /** The change log of an edit, as the list of what was changed. */
  function EditChanges(m: Movement, form: EditForm): seq<string> {
    (if form.qty != m.quantity then ["تعديل الكمية من [" + IntToString(m.quantity) + "] إلى [" + NatToString(form.qty) + "]"] else [])
    + (if form.docNumber != m.docNumber then ["تعديل السند من [" + m.docNumber + "] إلى [" + form.docNumber + "]"] else [])
    + (if form.priceEdited then ["تعديل السعر"] else [])
  }

  function EditSummary(changes: seq<string>): string {
    if |changes| > 0 then Join(changes, " | ") else "تعديل بيانات الحركة العامة"
  }

  /** The movement after an edit. A zero price keeps the old one. */
  function EditApplied(form: EditForm, adjustment: int, now: string, performer: string, entry: HistoryEntry): Movement -> Movement {
    (m: Movement) => m.(quantity := form.qty, docNumber := form.docNumber, note := Some(form.note),
            unitPrice := if form.unitPrice != 0.0 then Some(form.unitPrice) else m.unitPrice,
            lastModifiedBy := Some(performer), lastModifiedAt := Some(now),
            balanceAfter := m.balanceAfter + adjustment, history := m.history + [entry])
  }

  /** What an edit adds to the item's balance: the signed change of quantity. */
  function EditAdjustment(m: Movement, form: EditForm): int {
    Signed(m.kind, form.qty - m.quantity)
  }

  /** The items after an edit: the item's balance moves by the adjustment. */
  function EditedItems(items: seq<Item>, item: Item, m: Movement, form: EditForm): seq<Item> {
    SetBalance(items, item.id, item.currentBalance + EditAdjustment(m, form))
  }

  /** The log after an edit: the movement with that id takes the new fields and one more history line. */
  function EditedLog(ms: seq<Movement>, m: Movement, form: EditForm, now: string, performer: string): seq<Movement> {
    ReplaceMovement(ms, m.id, EditApplied(form, EditAdjustment(m, form), now, performer,
                                          HistoryEntry(performer, now, EditSummary(EditChanges(m, form)))))
  }

  /** An edit of an OUTWARD movement never takes a non-negative balance below zero. */
  predicate EditKeepsStock(item: Item, m: Movement, form: EditForm) {
    m.kind == Outward && item.currentBalance >= 0 ==> item.currentBalance + EditAdjustment(m, form) >= 0
  }

  /**
   * On an OUTWARD movement of an item whose balance is not negative, the
   * edit guard refuses exactly the edits that would take the balance below
   * zero.
   */
  lemma EditGuardExact(item: Item, m: Movement, form: EditForm)
    ensures m.kind == Outward && item.currentBalance >= 0 ==>
              ((form.qty - m.quantity > 0 && form.qty - m.quantity > item.currentBalance)
               <==> !EditKeepsStock(item, m, form))
  {
  }

  /**
   * Edits the movement shown in the edit dialog. With no movement shown, or
   * its item gone, nothing happens; raising an issue by more than the item's
   * `currentBalance` is refused. Otherwise the item's balance moves by the
   * change of quantity (signed by the movement's kind) and every movement
   * with that id takes the new fields.
   */
  method EditMovement(st: Store, active: Option<Movement>, form: EditForm, now: string, performer: string)
    returns (outcome: Outcome)
    modifies st
    ensures unchanged(st`units, st`warehouses, st`employees, st`suppliers, st`financialYears, st`selectedYear)
    ensures st.custodies == old(st.custodies)
    ensures outcome != Accepted ==> st.items == old(st.items) && st.movements == old(st.movements)
    ensures outcome == Ignored <==> active.None? || FindItem(old(st.items), active.value.itemId).None?
    ensures outcome == Rejected(InsufficientStock) <==>
      && active.Some? && FindItem(old(st.items), active.value.itemId).Some? && active.value.kind == Outward
      && form.qty - active.value.quantity > 0
      && form.qty - active.value.quantity > FindItem(old(st.items), active.value.itemId).value.currentBalance
    ensures outcome in {Accepted, Ignored, Rejected(InsufficientStock)}
    ensures outcome == Accepted ==>
      && active.Some? && FindItem(old(st.items), active.value.itemId).Some?
      && EditKeepsStock(FindItem(old(st.items), active.value.itemId).value, active.value, form)
      && st.items == EditedItems(old(st.items), FindItem(old(st.items), active.value.itemId).value, active.value, form)
      && st.movements == EditedLog(old(st.movements), active.value, form, now, performer)
  {
    if active.None? {
      return Ignored;
    }
    var m := active.value;
    var found := FindItem(st.items, m.itemId);
    if found.None? {
      return Ignored;
    }
    var item := found.value;
    var diff := form.qty - m.quantity;
    if m.kind == Outward && diff > 0 && diff > item.currentBalance {
      return Rejected(InsufficientStock);
    }
    st.items := EditedItems(st.items, item, m, form);
    st.movements := EditedLog(st.movements, m, form, now, performer);
    outcome := Accepted;
  }

  /** An edit of a movement of the log (ids unique) keeps every item's drift. */
  lemma EditKeepsDrift(items: seq<Item>, ms: seq<Movement>, p: nat, item: Item, form: EditForm, now: string, performer: string,
                       entry: HistoryEntry, adjustment: int, x: string)
    requires UniqueIds(ms) && p < |ms|
    requires FindItem(items, ms[p].itemId) == Some(item)
    requires adjustment == Signed(ms[p].kind, form.qty - ms[p].quantity)
    ensures Drift(SetBalance(items, item.id, item.currentBalance + adjustment),
                  ReplaceMovement(ms, ms[p].id, EditApplied(form, adjustment, now, performer, entry)), x)
            == Drift(items, ms, x)
  {
    var m := ms[p];
    var f := EditApplied(form, adjustment, now, performer, entry);
    assert f(m).itemId == m.itemId && MovementEffect(f(m)) == MovementEffect(m) + adjustment;
    SetBalanceShift(items, item, adjustment, x);
    ReplaceShift(ms, p, f, adjustment, x);
    DriftKept(items, SetBalance(items, item.id, item.currentBalance + adjustment), ms, ReplaceMovement(ms, m.id, f), x,
              if x == item.id then adjustment else 0);
  }

  // ---------------------------------------------------------------------
  // Deleting a movement
  // ---------------------------------------------------------------------

  function Shifted(d: int): Item -> Item {
    (it: Item) => it.(currentBalance := it.currentBalance + d)
  }

  /** The items after a movement is deleted: its item, if still there, loses the movement's effect. */
  function DeletedItems(items: seq<Item>, m: Movement): seq<Item> {
    if FindItem(items, m.itemId).Some?
    then MapItem(items, FindItem(items, m.itemId).value.id, Shifted(-MovementEffect(m)))
    else items
  }

  /**
   * Deletes the movement awaiting confirmation. With none, or an id no
   * movement has, nothing happens. Otherwise the net effect of the first
   * movement with that id is taken back from every item with its item id
   * (if its item still exists), and every movement with that id is removed.
   */
  method DeleteMovement(st: Store, deleteId: Option<string>) returns (outcome: Outcome)
    modifies st
    ensures unchanged(st`units, st`warehouses, st`employees, st`suppliers, st`financialYears, st`selectedYear)
    ensures st.custodies == old(st.custodies)
    ensures outcome == (if deleteId.Some? && FindMovement(old(st.movements), deleteId.value).Some? then Accepted else Ignored)
    ensures outcome == Ignored ==> st.items == old(st.items) && st.movements == old(st.movements)
    ensures outcome == Accepted ==>
      && st.items == DeletedItems(old(st.items), FindMovement(old(st.movements), deleteId.value).value)
      && st.movements == Filter(old(st.movements), NotId(deleteId.value))
  {
    if deleteId.None? {
      return Ignored;
    }
    var foundMove := FindMovement(st.movements, deleteId.value);
    if foundMove.None? {
      return Ignored;
    }
    var m := foundMove.value;
    st.items := DeletedItems(st.items, m);
    st.movements := Filter(st.movements, NotId(deleteId.value));
    outcome := Accepted;
  }

  /** The movement sum after one movement is taken out. */
  lemma MovementSumRemove(ms: seq<Movement>, p: nat, id: string)
    requires p < |ms|
    ensures MovementSum(ms[..p] + ms[p + 1..], id)
            == MovementSum(ms, id) - (if ms[p].itemId == id then MovementEffect(ms[p]) else 0)
  {
    assert ms == ms[..p] + [ms[p]] + ms[p + 1..];
    MovementSumConcat(ms[..p] + [ms[p]], ms[p + 1..], id);
    MovementSumConcat(ms[..p], [ms[p]], id);
    MovementSumConcat(ms[..p], ms[p + 1..], id);
    assert [ms[p]][..0] == [];
  }

  /** Deleting a movement of the log (ids unique) whose item exists keeps every item's drift. */
  lemma DeleteKeepsDrift(items: seq<Item>, ms: seq<Movement>, p: nat, item: Item, x: string)
    requires UniqueIds(ms) && p < |ms|
    requires FindItem(items, ms[p].itemId) == Some(item)
    ensures Drift(MapItem(items, item.id, Shifted(-MovementEffect(ms[p]))), Filter(ms, NotId(ms[p].id)), x) == Drift(items, ms, x)
  {
    BalanceOfMapItem(items, item.id, Shifted(-MovementEffect(ms[p])), x);
    FilterRemovesOne(ms, p);
    MovementSumRemove(ms, p, x);
  }

  /** With unique ids the movement `find` returns for an id is the one at its position. */
  lemma FindMovementUnique(ms: seq<Movement>, p: nat)
    requires UniqueIds(ms) && p < |ms|
    ensures FindMovement(ms, ms[p].id) == Some(ms[p])
  {
    var r := FindMovement(ms, ms[p].id);
    assert r.Some?;
    assert r.value in ms;
  }
}
