/**
 * The reference lists: units of measure, warehouses, employees and
 * suppliers. An entry can be added, renamed (a supplier edited) and deleted;
 * a delete is offered only when nothing in the ledger refers to the entry.
 */
module BasicData {
  import opened Types
  import opened Text
  import opened Ledger

  /** The four reference lists. */
  datatype Entity = UnitEntity | WarehouseEntity | SupplierEntity | EmployeeEntity

  // ---------------------------------------------------------------------
  // The delete guard
  // ---------------------------------------------------------------------

  function ItemUsesUnit(id: string): Item -> bool { (it: Item) => it.unitId == id }
  function MoveUsesUnit(id: string): Movement -> bool { (m: Movement) => m.unitId == id }
  function MoveUsesWarehouse(id: string): Movement -> bool { (m: Movement) => m.warehouseId == Some(id) }
  function MoveUsesSupplier(id: string): Movement -> bool { (m: Movement) => m.supplierId == Some(id) }
  function MoveUsesEmployee(id: string): Movement -> bool { (m: Movement) => m.employeeId == Some(id) }
  function CustodyUsesEmployee(id: string): Custody -> bool { (c: Custody) => c.employeeId == id }

  /**
   * `canDelete`: a unit no item and no movement uses; a warehouse or a
   * supplier no movement names; an employee no movement and no custody
   * event names.
   */
  predicate CanDelete(kind: Entity, id: string, items: seq<Item>, ms: seq<Movement>, cs: seq<Custody>) {
    match kind
    case UnitEntity => !Any(items, ItemUsesUnit(id)) && !Any(ms, MoveUsesUnit(id))
    case WarehouseEntity => !Any(ms, MoveUsesWarehouse(id))
    case SupplierEntity => !Any(ms, MoveUsesSupplier(id))
    case EmployeeEntity => !Any(ms, MoveUsesEmployee(id)) && !Any(cs, CustodyUsesEmployee(id))
  }

  // ---------------------------------------------------------------------
  // List edits
  // ---------------------------------------------------------------------

  predicate HasId(list: seq<Named>, id: string) {
    exists k :: 0 <= k < |list| && list[k].id == id
  }

  predicate SupplierHasId(list: seq<Supplier>, id: string) {
    exists k :: 0 <= k < |list| && list[k].id == id
  }

  /** `list.map(u => u.id === id ? {...u, name} : u)`. */
  function Rename(list: seq<Named>, id: string, name: string): (r: seq<Named>)
    ensures |r| == |list|
    ensures forall k :: 0 <= k < |list| ==> r[k].id == list[k].id
    ensures forall k :: 0 <= k < |list| ==> r[k].name == if list[k].id == id then name else list[k].name
  {
    seq(|list|, k requires 0 <= k < |list| => if list[k].id == id then list[k].(name := name) else list[k])
  }

  function NamedNotId(id: string): Named -> bool { (u: Named) => u.id != id }
  function SupplierNotId(id: string): Supplier -> bool { (s: Supplier) => s.id != id }

  /** `list.filter(u => u.id !== id)`: the entry is gone and every other entry stays. */
  function RemoveNamed(list: seq<Named>, id: string): (r: seq<Named>)
    ensures !HasId(r, id)
    ensures forall k :: 0 <= k < |list| && list[k].id != id ==> list[k] in r
    ensures forall k :: 0 <= k < |r| ==> r[k] in list
  {
    Filter(list, NamedNotId(id))
  }

  function RemoveSupplier(list: seq<Supplier>, id: string): (r: seq<Supplier>)
    ensures !SupplierHasId(r, id)
    ensures forall k :: 0 <= k < |list| && list[k].id != id ==> list[k] in r
    ensures forall k :: 0 <= k < |r| ==> r[k] in list
  {
    Filter(list, SupplierNotId(id))
  }

  /** `suppliers.map(x => x.id === id ? value : x)`: the edited record replaces the one with that id. */
  function ReplaceSupplier(list: seq<Supplier>, id: string, value: Supplier): (r: seq<Supplier>)
    ensures |r| == |list|
    ensures forall k :: 0 <= k < |list| ==> r[k] == if list[k].id == id then value else list[k]
  {
    seq(|list|, k requires 0 <= k < |list| => if list[k].id == id then value else list[k])
  }

  /** The named list a kind stands for (suppliers have their own record). */
  function NamedList(st: Store, kind: Entity): seq<Named>
    requires kind != SupplierEntity
    reads st
  {
    match kind
    case UnitEntity => st.units
    case WarehouseEntity => st.warehouses
    case EmployeeEntity => st.employees
  }

  /** Adds an entry (from the input box, as typed) at the end of a named list. */
  method AddEntry(st: Store, kind: Entity, id: string, name: string)
    requires kind != SupplierEntity
    modifies st
    ensures NamedList(st, kind) == old(NamedList(st, kind)) + [Named(id, name)]
    ensures forall other :: other != kind && other != SupplierEntity ==> NamedList(st, other) == old(NamedList(st, other))
    ensures unchanged(st`items, st`movements, st`custodies, st`suppliers, st`financialYears, st`selectedYear)
  {
    match kind
    case UnitEntity => st.units := st.units + [Named(id, name)];
    case WarehouseEntity => st.warehouses := st.warehouses + [Named(id, name)];
    case EmployeeEntity => st.employees := st.employees + [Named(id, name)];
  }

  /** Renames the entry with that id in a named list. */
  method RenameEntry(st: Store, kind: Entity, id: string, name: string)
    requires kind != SupplierEntity
    modifies st
    ensures NamedList(st, kind) == Rename(old(NamedList(st, kind)), id, name)
    ensures forall other :: other != kind && other != SupplierEntity ==> NamedList(st, other) == old(NamedList(st, other))
    ensures unchanged(st`items, st`movements, st`custodies, st`suppliers, st`financialYears, st`selectedYear)
  {
    match kind
    case UnitEntity => st.units := Rename(st.units, id, name);
    case WarehouseEntity => st.warehouses := Rename(st.warehouses, id, name);
    case EmployeeEntity => st.employees := Rename(st.employees, id, name);
  }

  /** `handleAddSupplier`: a supplier needs a name; phone and address are kept as typed. */
  method AddSupplier(st: Store, id: string, name: string, phone: string, address: string) returns (outcome: Outcome)
    modifies st
    ensures outcome == (if name == [] then Ignored else Accepted)
    ensures st.suppliers == if name == [] then old(st.suppliers)
                            else old(st.suppliers) + [Supplier(id, name, Some(phone), Some(address))]
    ensures unchanged(st`items, st`movements, st`custodies, st`units, st`warehouses, st`employees, st`financialYears, st`selectedYear)
  {
    if name == [] {
      return Ignored;
    }
    st.suppliers := st.suppliers + [Supplier(id, name, Some(phone), Some(address))];
    outcome := Accepted;
  }

  /** Saves the edited supplier record over the one with that id. */
  method UpdateSupplier(st: Store, id: string, value: Supplier)
    modifies st
    ensures st.suppliers == ReplaceSupplier(old(st.suppliers), id, value)
    ensures unchanged(st`items, st`movements, st`custodies, st`units, st`warehouses, st`employees, st`financialYears, st`selectedYear)
  {
    st.suppliers := ReplaceSupplier(st.suppliers, id, value);
  }

  /**
   * A delete attempt and its confirmation dialog: an entry something refers
   * to is refused and no dialog opens; otherwise the entry is removed once
   * the user confirms, and nothing happens if they cancel.
   */
  method DeleteEntity(st: Store, kind: Entity, id: string, confirmed: bool) returns (outcome: Outcome)
    modifies st
    ensures outcome == (if !CanDelete(kind, id, old(st.items), old(st.movements), old(st.custodies)) then Rejected(EntityInUse)
                        else if confirmed then Accepted else Ignored)
    ensures unchanged(st`items, st`movements, st`custodies, st`financialYears, st`selectedYear)
    ensures st.units == if outcome == Accepted && kind == UnitEntity then RemoveNamed(old(st.units), id) else old(st.units)
    ensures st.warehouses == if outcome == Accepted && kind == WarehouseEntity then RemoveNamed(old(st.warehouses), id) else old(st.warehouses)
    ensures st.employees == if outcome == Accepted && kind == EmployeeEntity then RemoveNamed(old(st.employees), id) else old(st.employees)
    ensures st.suppliers == if outcome == Accepted && kind == SupplierEntity then RemoveSupplier(old(st.suppliers), id) else old(st.suppliers)
  {
    if !CanDelete(kind, id, st.items, st.movements, st.custodies) {
      return Rejected(EntityInUse);
    }
    if !confirmed {
      return Ignored;
    }
    match kind {
      case UnitEntity => st.units := RemoveNamed(st.units, id);
      case WarehouseEntity => st.warehouses := RemoveNamed(st.warehouses, id);
      case EmployeeEntity => st.employees := RemoveNamed(st.employees, id);
      case SupplierEntity => st.suppliers := RemoveSupplier(st.suppliers, id);
    }
    outcome := Accepted;
  }

  // ---------------------------------------------------------------------
  // Referential integrity
  // ---------------------------------------------------------------------

  /** Every unit an item or a movement uses is in the unit list. */
  predicate UnitsResolved(units: seq<Named>, items: seq<Item>, ms: seq<Movement>) {
    (forall k :: 0 <= k < |items| ==> HasId(units, items[k].unitId))
    && (forall k :: 0 <= k < |ms| ==> HasId(units, ms[k].unitId))
  }

  /** Every warehouse a movement names is in the warehouse list. */
  predicate WarehousesResolved(warehouses: seq<Named>, ms: seq<Movement>) {
    forall k :: 0 <= k < |ms| && ms[k].warehouseId.Some? ==> HasId(warehouses, ms[k].warehouseId.value)
  }

  /** Every supplier a movement names is in the supplier list. */
  predicate SuppliersResolved(suppliers: seq<Supplier>, ms: seq<Movement>) {
    forall k :: 0 <= k < |ms| && ms[k].supplierId.Some? ==> SupplierHasId(suppliers, ms[k].supplierId.value)
  }

  /** Every employee a movement or a custody event names is in the employee list, the system's own ids apart. */
  predicate EmployeesResolved(employees: seq<Named>, ms: seq<Movement>, cs: seq<Custody>) {
    (forall k :: 0 <= k < |ms| && ms[k].employeeId.Some? ==> HasId(employees, ms[k].employeeId.value))
    && (forall k :: 0 <= k < |cs| && cs[k].employeeId != SystemEmployee && cs[k].employeeId != SystemScrapEmployee ==>
          HasId(employees, cs[k].employeeId))
  }

  lemma RemoveKeepsOtherIds(list: seq<Named>, id: string, other: string)
    requires HasId(list, other) && other != id
    ensures HasId(RemoveNamed(list, id), other)
  {
    var k :| 0 <= k < |list| && list[k].id == other;
    var r := RemoveNamed(list, id);
    assert list[k] in r;
    var j :| 0 <= j < |r| && r[j] == list[k];
  }

  lemma RemoveSupplierKeepsOtherIds(list: seq<Supplier>, id: string, other: string)
    requires SupplierHasId(list, other) && other != id
    ensures SupplierHasId(RemoveSupplier(list, id), other)
  {
    var k :| 0 <= k < |list| && list[k].id == other;
    var r := RemoveSupplier(list, id);
    assert list[k] in r;
    var j :| 0 <= j < |r| && r[j] == list[k];
  }

  /**
   * The delete guard keeps the ledger's references resolved: deleting an
   * entry `CanDelete` allows leaves every reference pointing at a listed
   * entry, for each of the four lists.
   */
  lemma DeleteKeepsReferencesResolved(kind: Entity, id: string, units: seq<Named>, warehouses: seq<Named>, employees: seq<Named>,
                                      suppliers: seq<Supplier>, items: seq<Item>, ms: seq<Movement>, cs: seq<Custody>)
    requires CanDelete(kind, id, items, ms, cs)
    ensures kind == UnitEntity && UnitsResolved(units, items, ms) ==> UnitsResolved(RemoveNamed(units, id), items, ms)
    ensures kind == WarehouseEntity && WarehousesResolved(warehouses, ms) ==> WarehousesResolved(RemoveNamed(warehouses, id), ms)
    ensures kind == SupplierEntity && SuppliersResolved(suppliers, ms) ==> SuppliersResolved(RemoveSupplier(suppliers, id), ms)
    ensures kind == EmployeeEntity && EmployeesResolved(employees, ms, cs) ==> EmployeesResolved(RemoveNamed(employees, id), ms, cs)
  {
    match kind
    case UnitEntity =>
      if UnitsResolved(units, items, ms) {
        forall k | 0 <= k < |items| ensures HasId(RemoveNamed(units, id), items[k].unitId) {
          assert !ItemUsesUnit(id)(items[k]);
          RemoveKeepsOtherIds(units, id, items[k].unitId);
        }
        forall k | 0 <= k < |ms| ensures HasId(RemoveNamed(units, id), ms[k].unitId) {
          assert !MoveUsesUnit(id)(ms[k]);
          RemoveKeepsOtherIds(units, id, ms[k].unitId);
        }
      }
    case WarehouseEntity =>
      if WarehousesResolved(warehouses, ms) {
        forall k | 0 <= k < |ms| && ms[k].warehouseId.Some? ensures HasId(RemoveNamed(warehouses, id), ms[k].warehouseId.value) {
          assert !MoveUsesWarehouse(id)(ms[k]);
          RemoveKeepsOtherIds(warehouses, id, ms[k].warehouseId.value);
        }
      }
    case SupplierEntity =>
      if SuppliersResolved(suppliers, ms) {
        forall k | 0 <= k < |ms| && ms[k].supplierId.Some? ensures SupplierHasId(RemoveSupplier(suppliers, id), ms[k].supplierId.value) {
          assert !MoveUsesSupplier(id)(ms[k]);
          RemoveSupplierKeepsOtherIds(suppliers, id, ms[k].supplierId.value);
        }
      }
    case EmployeeEntity =>
      if EmployeesResolved(employees, ms, cs) {
        forall k | 0 <= k < |ms| && ms[k].employeeId.Some? ensures HasId(RemoveNamed(employees, id), ms[k].employeeId.value) {
          assert !MoveUsesEmployee(id)(ms[k]);
          RemoveKeepsOtherIds(employees, id, ms[k].employeeId.value);
        }
        forall k | 0 <= k < |cs| && cs[k].employeeId != SystemEmployee && cs[k].employeeId != SystemScrapEmployee
          ensures HasId(RemoveNamed(employees, id), cs[k].employeeId) {
          assert !CustodyUsesEmployee(id)(cs[k]);
          RemoveKeepsOtherIds(employees, id, cs[k].employeeId);
        }
      }
  }

  /** An entry something refers to cannot be deleted: the guard is exact. */
  lemma ReferencedNotDeletable(kind: Entity, id: string, items: seq<Item>, ms: seq<Movement>, cs: seq<Custody>)
    ensures kind == UnitEntity ==>
      (CanDelete(kind, id, items, ms, cs) <==>
        (forall k :: 0 <= k < |items| ==> items[k].unitId != id) && (forall k :: 0 <= k < |ms| ==> ms[k].unitId != id))
    ensures kind == WarehouseEntity ==>
      (CanDelete(kind, id, items, ms, cs) <==> forall k :: 0 <= k < |ms| ==> ms[k].warehouseId != Some(id))
    ensures kind == SupplierEntity ==>
      (CanDelete(kind, id, items, ms, cs) <==> forall k :: 0 <= k < |ms| ==> ms[k].supplierId != Some(id))
    ensures kind == EmployeeEntity ==>
      (CanDelete(kind, id, items, ms, cs) <==>
        (forall k :: 0 <= k < |ms| ==> ms[k].employeeId != Some(id)) && (forall k :: 0 <= k < |cs| ==> cs[k].employeeId != id))
  {
    if kind == UnitEntity {
      assert Any(items, ItemUsesUnit(id)) <==> exists k :: 0 <= k < |items| && items[k].unitId == id;
      assert Any(ms, MoveUsesUnit(id)) <==> exists k :: 0 <= k < |ms| && ms[k].unitId == id;
    } else if kind == EmployeeEntity {
      assert Any(ms, MoveUsesEmployee(id)) <==> exists k :: 0 <= k < |ms| && ms[k].employeeId == Some(id);
      assert Any(cs, CustodyUsesEmployee(id)) <==> exists k :: 0 <= k < |cs| && cs[k].employeeId == id;
    } else if kind == WarehouseEntity {
      assert Any(ms, MoveUsesWarehouse(id)) <==> exists k :: 0 <= k < |ms| && ms[k].warehouseId == Some(id);
    } else {
      assert Any(ms, MoveUsesSupplier(id)) <==> exists k :: 0 <= k < |ms| && ms[k].supplierId == Some(id);
    }
  }

  /** A fresh id added to a list is found there with its name. */
  lemma AddedEntryFound(list: seq<Named>, id: string, name: string)
    requires !HasId(list, id)
    ensures HasId(list + [Named(id, name)], id)
    ensures forall k :: 0 <= k < |list| + 1 && (list + [Named(id, name)])[k].id == id ==> (list + [Named(id, name)])[k].name == name
  {
    assert (list + [Named(id, name)])[|list|].id == id;
  }
}
