/**
 * The item-coding screen: the two sanitisers of its numeric fields and
 * saving the coding form, which either adds a new item or rewrites the
 * selected one and appends a line to its history.
 *
 * The partner of saving is uniqueness: no two items share a code or a name.
 * An accepted save keeps that true, because a form that clashes with any
 * other item is refused.
 */
module ItemCoding {
  import opened Types
  import opened Text
  import opened Ledger
  import opened Movements

  // ---------------------------------------------------------------------
  // Sanitisers
  // ---------------------------------------------------------------------

  /**
   * `validateInt`: leading zeros and every non-digit are dropped and the rest
   * is read as a number, 0 when nothing is left. It is the number the digits
   * of the input spell, whatever else the input holds.
   */
  function ValidateInt(val: string): (r: nat)
    ensures r == DigitsValue(KeepDigits(val))
  {
    CleanIntKeepsValue(val);
    var cleaned := CleanInt(val);
    if cleaned == [] then 0 else DigitsValue(cleaned)
  }

  /** A string of digits keeps all its characters. */
  lemma {:induction false} KeepDigitsOfDigits(d: string)
    requires AllDigits(d)
    ensures KeepDigits(d) == d
    decreases |d|
  {
    if d != [] {
      KeepDigitsOfDigits(d[1..]);
    }
  }

  /** What the field shows for a number reads back as that number. */
  lemma ValidateIntRoundTrip(n: nat)
    ensures ValidateInt(NatToString(n)) == n
  {
    KeepDigitsOfDigits(NatToString(n));
  }

  /** Text without a digit counts as 0. */
  lemma {:induction false} ValidateIntNoDigits(val: string)
    requires forall i :: 0 <= i < |val| ==> !IsDigit(val[i])
    ensures KeepDigits(val) == [] && ValidateInt(val) == 0
    decreases |val|
  {
    if val != [] {
      assert forall i :: 0 <= i < |val[1..]| ==> val[1..][i] == val[i + 1];
      ValidateIntNoDigits(val[1..]);
    }
  }

  /** `validateFloat`: `cleanFloat`, with '0' for an empty result. */
  function ValidateFloat(val: string): (r: string)
    ensures r != [] && DigitsAndDots(r) && AtMostOneDot(r)
    ensures !(StartsWith(r, "0") && |r| > 1 && r[1] != '.')
    ensures CleanFloat(val) == [] ==> r == "0"
    ensures CleanFloat(val) != [] ==> r == CleanFloat(val)
  {
    var cleaned := CleanFloat(val);
    if cleaned == [] then "0" else cleaned
  }

  /**
   * Sanitising what the field already shows changes nothing: the handler
   * runs on every keystroke over the whole text, so the shown text is stable.
   */
  lemma ValidateFloatIdempotent(val: string)
    ensures ValidateFloat(ValidateFloat(val)) == ValidateFloat(val)
  {
    var v := ValidateFloat(val);
    KeepDigitsAndDotsOfClean(v);
    FirstDotOnlyOfOneDot(v);
  }

  // ---------------------------------------------------------------------
  // The coding form
  // ---------------------------------------------------------------------

  /**
   * The fields of the coding form. When an item is edited the form starts as
   * a copy of it; the opening balance cannot be changed while editing.
   */
  datatype ItemForm = ItemForm(
    code: string,
    name: string,
    unitId: string,
    openingBalance: int,
    minThreshold: int,
    isThresholdEnabled: bool,
    isCustody: bool,
    initialState: Option<CustodyState>,
    price: real,
    shelfNumber: string,
    boxNumber: string)

  /** Code, name and unit are all filled in. */
  predicate Complete(form: ItemForm) {
    form.code != [] && form.name != [] && form.unitId != []
  }

  /** An item other than the one being edited that has the form's code or name. */
  function ClashesWith(editing: Option<Item>, form: ItemForm): Item -> bool {
    (i: Item) => (editing.None? || i.id != editing.value.id) && (i.code == form.code || i.name == form.name)
  }

  /** Whether the duplicate search finds an item. */
  predicate Clash(items: seq<Item>, editing: Option<Item>, form: ItemForm) {
    Any(items, ClashesWith(editing, form))
  }

  const FirstCodingNote: string := "تكويد" + " الصنف" + " لأول" + " مرة"
  const GeneralEditNote: string := "تعديل" + " بيانات" + " عامة"
  const BlankWord: string := "فارغ"

  /** The state a new item's stock starts in: the chosen one for a custody item (NEW if none), else NEW. */
  function StartState(form: ItemForm): CustodyState {
    if form.isCustody && form.initialState.Some? then form.initialState.value else New
  }

  /** The item a create makes of the form; the whole opening balance is its current balance. */
  function NewItem(form: ItemForm, id: string, now: string, user: string): Item {
    Item(id, form.code, form.name, form.unitId, form.openingBalance, Some(StartState(form)), form.openingBalance,
         form.minThreshold, form.isThresholdEnabled, form.isCustody, now, user, form.price,
         form.shelfNumber, form.boxNumber, [HistoryEntry(user, now, FirstCodingNote)])
  }

  /** `text || 'فارغ'`. */
  function OrBlank(text: string): string {
    if text == [] then BlankWord else text
  }

  /** `[old] إلى [new]`: how a change is written. */
  function FromTo(verb: string, was: string, now: string): string {
    verb + " من [" + was + "] إلى [" + now + "]"
  }

  /**
   * One line per tracked field the form changed: name, code, price, shelf,
   * box and safety threshold, in that order. `showPrice` is how a price is
   * written as text.
   */
  function ChangeLines(sel: Item, form: ItemForm, showPrice: real -> string): (r: seq<string>)
    ensures |r| <= 6
    ensures r == [] <==> (sel.name == form.name && sel.code == form.code && sel.price == form.price
                          && sel.shelfNumber == form.shelfNumber && sel.boxNumber == form.boxNumber
                          && sel.minThreshold == form.minThreshold)
  {
    (if sel.name != form.name then [FromTo("تعديل الاسم", sel.name, form.name)] else [])
    + (if sel.code != form.code then [FromTo("تعديل الكود", sel.code, form.code)] else [])
    + (if sel.price != form.price then [FromTo("تعديل السعر", showPrice(sel.price), showPrice(form.price))] else [])
    + (if sel.shelfNumber != form.shelfNumber
       then [FromTo("تغيير الرف", OrBlank(sel.shelfNumber), OrBlank(form.shelfNumber))] else [])
    + (if sel.boxNumber != form.boxNumber
       then [FromTo("تغيير البوكس", OrBlank(sel.boxNumber), OrBlank(form.boxNumber))] else [])
    + (if sel.minThreshold != form.minThreshold
       then ["تعديل حد الأمان إلى [" + IntToString(form.minThreshold) + "]"] else [])
  }

  /** The history line of an edit: the changes joined by " | ", or the general note when none is tracked. */
  function EditNote(sel: Item, form: ItemForm, showPrice: real -> string): string {
    var lines := ChangeLines(sel, form, showPrice);
    if |lines| > 0 then Join(lines, " | ") else GeneralEditNote
  }

  /**
   * `{ ...selectedItem, ...newItem, history }`: the form's fields over the
   * selected item; id, opening and current balance and creation data stay.
   */
  function Edited(sel: Item, form: ItemForm, now: string, user: string, showPrice: real -> string): Item {
    sel.(code := form.code, name := form.name, unitId := form.unitId, minThreshold := form.minThreshold,
         isThresholdEnabled := form.isThresholdEnabled, isCustody := form.isCustody,
         initialState := form.initialState, price := form.price, shelfNumber := form.shelfNumber,
         boxNumber := form.boxNumber,
         history := sel.history + [HistoryEntry(user, now, EditNote(sel, form, showPrice))])
  }

  /** The function that maps every item to `x`. */
  function Becomes(x: Item): Item -> Item {
    (it: Item) => x
  }

  /**
   * `handleSaveItem`. `editing` is the selected item when the form edits
   * one; `id`, `now` and `user` are the generated id, the clock and the
   * signed-in user's name.
   */
  method SaveItem(st: Store, editing: Option<Item>, form: ItemForm, id: string, now: string, user: string,
                  showPrice: real -> string) returns (outcome: Outcome)
    modifies st
    ensures !Complete(form) ==> outcome == Rejected(MissingFields) && st.items == old(st.items)
    ensures Complete(form) && Clash(old(st.items), editing, form)
            ==> outcome == Rejected(DuplicateItem) && st.items == old(st.items)
    ensures Complete(form) && !Clash(old(st.items), editing, form) && editing.Some?
            ==> outcome == Accepted
                && st.items == MapItem(old(st.items), editing.value.id, Becomes(Edited(editing.value, form, now, user, showPrice)))
    ensures Complete(form) && !Clash(old(st.items), editing, form) && editing.None?
            ==> outcome == Accepted && st.items == old(st.items) + [NewItem(form, id, now, user)]
    ensures unchanged(st`movements, st`custodies, st`units, st`warehouses, st`employees, st`suppliers)
    ensures unchanged(st`financialYears, st`selectedYear)
  {
    if !Complete(form) {
      return Rejected(MissingFields);
    }
    if Clash(st.items, editing, form) {
      return Rejected(DuplicateItem);
    }
    match editing {
      case Some(sel) =>
        st.items := MapItem(st.items, sel.id, Becomes(Edited(sel, form, now, user, showPrice)));
      case None =>
        st.items := st.items + [NewItem(form, id, now, user)];
    }
    outcome := Accepted;
  }

  // ---------------------------------------------------------------------
  // What a save promises
  // ---------------------------------------------------------------------

  /**
   * A new item has one history line, its current balance equal to its
   * opening balance, and all of that balance seeded in exactly the state it
   * starts in: the chosen one for a custody item, NEW otherwise.
   */
  lemma NewItemSeedsOneState(form: ItemForm, id: string, now: string, user: string, state: CustodyState)
    ensures |NewItem(form, id, now, user).history| == 1
    ensures NewItem(form, id, now, user).currentBalance == NewItem(form, id, now, user).openingBalance
    ensures OpeningSeed(NewItem(form, id, now, user), state)
            == (if state == (if form.isCustody then (if form.initialState.Some? then form.initialState.value else New) else New)
                then form.openingBalance else 0)
  {
  }

  /** So the seeds of the three states add up to the new item's balance. */
  lemma NewItemSeedsTotal(form: ItemForm, id: string, now: string, user: string)
    ensures OpeningSeed(NewItem(form, id, now, user), New) + OpeningSeed(NewItem(form, id, now, user), Used)
            + OpeningSeed(NewItem(form, id, now, user), Scrap) == NewItem(form, id, now, user).currentBalance
  {
    NewItemSeedsOneState(form, id, now, user, New);
    NewItemSeedsOneState(form, id, now, user, Used);
    NewItemSeedsOneState(form, id, now, user, Scrap);
  }

  /**
   * An edit keeps the item's id, creation data and both balances, keeps its
   * history and appends exactly one line to it.
   */
  lemma EditKeepsIdentity(sel: Item, form: ItemForm, now: string, user: string, showPrice: real -> string)
    ensures Edited(sel, form, now, user, showPrice).id == sel.id
    ensures Edited(sel, form, now, user, showPrice).openingBalance == sel.openingBalance
    ensures Edited(sel, form, now, user, showPrice).currentBalance == sel.currentBalance
    ensures Edited(sel, form, now, user, showPrice).createdAt == sel.createdAt
    ensures Edited(sel, form, now, user, showPrice).createdBy == sel.createdBy
    ensures |Edited(sel, form, now, user, showPrice).history| == |sel.history| + 1
    ensures Edited(sel, form, now, user, showPrice).history[..|sel.history|] == sel.history
  {
  }

  /** An edit writes the general note exactly when no tracked field changed. */
  lemma EditNoteGeneral(sel: Item, form: ItemForm, showPrice: real -> string)
    ensures (sel.name == form.name && sel.code == form.code && sel.price == form.price
             && sel.shelfNumber == form.shelfNumber && sel.boxNumber == form.boxNumber
             && sel.minThreshold == form.minThreshold)
            ==> EditNote(sel, form, showPrice) == GeneralEditNote
    ensures sel.name != form.name ==> EditNote(sel, form, showPrice) != GeneralEditNote
  {
    if sel.name != form.name {
      var lines := ChangeLines(sel, form, showPrice);
      var first := FromTo("تعديل الاسم", sel.name, form.name);
      assert lines[0] == first;
      JoinStartsWithFirst(lines, " | ");
      assert EditNote(sel, form, showPrice)[..|first|] == first;
      assert |first| > |GeneralEditNote|;
    }
  }

  /** A joined list starts with its first part. */
  lemma {:induction false} JoinStartsWithFirst(parts: seq<string>, sep: string)
    requires |parts| > 0
    ensures StartsWith(Join(parts, sep), parts[0])
  {
    if |parts| > 1 {
      assert Join(parts, sep) == parts[0] + (sep + Join(parts[1..], sep));
    }
  }

  /** `map` by id rewrites the items with that id and keeps the others and the length. */
  lemma MapItemOnlyThat(items: seq<Item>, id: string, x: Item)
    ensures |MapItem(items, id, Becomes(x))| == |items|
    ensures forall k :: 0 <= k < |items| && items[k].id == id ==> MapItem(items, id, Becomes(x))[k] == x
    ensures forall k :: 0 <= k < |items| && items[k].id != id ==> MapItem(items, id, Becomes(x))[k] == items[k]
  {
  }

  /** No two items share a code or a name. */
  predicate DistinctCodesAndNames(items: seq<Item>) {
    forall i, j :: 0 <= i < j < |items| ==> items[i].code != items[j].code && items[i].name != items[j].name
  }

  /** No two items share an id (ids are generated). */
  predicate DistinctIds(items: seq<Item>) {
    forall i, j :: 0 <= i < j < |items| ==> items[i].id != items[j].id
  }

  /** A new item that passed the duplicate search keeps codes and names distinct. */
  lemma CreateKeepsDistinct(items: seq<Item>, form: ItemForm, id: string, now: string, user: string)
    requires DistinctCodesAndNames(items)
    requires !Clash(items, None, form)
    ensures DistinctCodesAndNames(items + [NewItem(form, id, now, user)])
  {
    var r := items + [NewItem(form, id, now, user)];
    forall i, j | 0 <= i < j < |r| ensures r[i].code != r[j].code && r[i].name != r[j].name {
      if j < |items| {
        assert r[i] == items[i] && r[j] == items[j];
      } else {
        assert r[i] == items[i];
        assert !ClashesWith(None, form)(items[i]);
      }
    }
  }

  /**
   * An edit that passed the duplicate search keeps codes and names distinct,
   * as long as ids are distinct (so that only the edited item is rewritten).
   */
  lemma EditKeepsDistinct(items: seq<Item>, sel: Item, form: ItemForm, now: string, user: string,
                          showPrice: real -> string)
    requires DistinctCodesAndNames(items) && DistinctIds(items)
    requires !Clash(items, Some(sel), form)
    ensures DistinctCodesAndNames(MapItem(items, sel.id, Becomes(Edited(sel, form, now, user, showPrice))))
  {
    var x := Edited(sel, form, now, user, showPrice);
    var r := MapItem(items, sel.id, Becomes(x));
    MapItemOnlyThat(items, sel.id, x);
    forall i, j | 0 <= i < j < |r| ensures r[i].code != r[j].code && r[i].name != r[j].name {
      if items[i].id == sel.id {
        assert items[j].id != sel.id;
        assert !ClashesWith(Some(sel), form)(items[j]);
      } else if items[j].id == sel.id {
        assert !ClashesWith(Some(sel), form)(items[i]);
      }
    }
  }

  /** An edit keeps ids distinct. */
  lemma EditKeepsIds(items: seq<Item>, sel: Item, form: ItemForm, now: string, user: string,
                     showPrice: real -> string)
    requires DistinctIds(items)
    ensures DistinctIds(MapItem(items, sel.id, Becomes(Edited(sel, form, now, user, showPrice))))
  {
    MapItemOnlyThat(items, sel.id, Edited(sel, form, now, user, showPrice));
  }
}
