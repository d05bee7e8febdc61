/// The cell records the DGGRID adapters build (`CellGEO`, `CellsGEO`,
/// `IdArray`) and `assign_field`, which attaches children or neighbours to
/// the cells in place (src/adapters/dggrid/common.rs:219-235; the same
/// function is src/adapters/dggrid.rs:204-220).
module DggridCells {
  import opened Outcomes
  import opened ZoneIds

  /** `geo::Point`. */
  datatype Point = Point(x: real, y: real)

  /** `CellGEO`; `region` is the exterior ring of the cell's polygon. */
  datatype CellGeo = CellGeo(id: ZoneId, region: seq<Point>, center: Point, vertexCount: nat,
                             children: Option<seq<string>>, neighbors: Option<seq<string>>)

  /** `IdArray`: one line of a children or neighbours file. */
  datatype IdArray = IdArray(id: Option<string>, arr: Option<seq<string>>)

  const CHILDREN: string := "children"
  const NEIGHBORS: string := "neighbors"

  predicate KnownField(field: string) {
    field == CHILDREN || field == NEIGHBORS
  }

  function UnknownFieldMessage(field: string): string {
    "Unknown field: " + field
  }

  /** `iter().find(|c| c.id.to_string() == id)`: the first cell displaying `id`. */
  function FindCell(cells: seq<CellGeo>, id: string): (r: Option<nat>)
    ensures r.Some? ==> r.value < |cells| && Display(cells[r.value].id) == id
    ensures r.Some? ==> forall j :: 0 <= j < r.value ==> Display(cells[j].id) != id
    ensures r.None? ==> forall j :: 0 <= j < |cells| ==> Display(cells[j].id) != id
  {
    if cells == [] then None
    else if Display(cells[0].id) == id then Some(0)
    else
      match FindCell(cells[1..], id)
      case None => None
      case Some(i) => Some(i + 1)
  }

  /** `cell.children = arr` or `cell.neighbors = arr`. */
  function SetField(c: CellGeo, field: string, arr: Option<seq<string>>): CellGeo
    requires KnownField(field)
  {
    if field == CHILDREN then c.(children := arr) else c.(neighbors := arr)
  }

  /** One iteration of the loop of `assign_field`: an item without an id, or
      whose id no cell displays, changes nothing; otherwise the first matching
      cell gets the item's array, or the call panics on an unknown field. */
  function AssignItem(cells: seq<CellGeo>, item: IdArray, field: string): (r: Run<seq<CellGeo>>)
    ensures r.Panicked? <==> !KnownField(field) && item.id.Some? && FindCell(cells, item.id.value).Some?
    ensures r.Panicked? ==> r.message == UnknownFieldMessage(field)
    ensures r.Completed? ==> |r.value| == |cells|
  {
    if item.id.None? then Completed(cells)
    else
      match FindCell(cells, item.id.value)
      case None => Completed(cells)
      case Some(i) =>
        if KnownField(field) then Completed(cells[i := SetField(cells[i], field, item.arr)])
        else Panicked(UnknownFieldMessage(field))
  }

  /** The whole loop of `assign_field`: the items in order, stopping at the first panic. */
  function AssignAll(cells: seq<CellGeo>, items: seq<IdArray>, field: string): (r: Run<seq<CellGeo>>)
    ensures KnownField(field) ==> r.Completed?
    ensures r.Panicked? ==> r.message == UnknownFieldMessage(field)
    ensures r.Completed? ==> |r.value| == |cells|
    decreases |items|
  {
    if items == [] then Completed(cells)
    else
      match AssignItem(cells, items[0], field)
      case Panicked(m) => Panicked(m)
      case Completed(next) => AssignAll(next, items[1..], field)
  }

  /** The cells agree on everything `assign_field` of `field` must leave alone. */
  predicate SameShape(a: seq<CellGeo>, b: seq<CellGeo>, field: string) {
    |a| == |b| &&
    forall i :: 0 <= i < |a| ==>
      a[i].id == b[i].id && a[i].region == b[i].region && a[i].center == b[i].center &&
      a[i].vertexCount == b[i].vertexCount &&
      (field == CHILDREN ==> a[i].neighbors == b[i].neighbors) &&
      (field == NEIGHBORS ==> a[i].children == b[i].children)
  }

  /** Cells with the same ids in the same order are searched alike. */
  lemma {:induction false} FindCellSameIds(a: seq<CellGeo>, b: seq<CellGeo>, id: string)
    requires |a| == |b| && forall i :: 0 <= i < |a| ==> a[i].id == b[i].id
    ensures FindCell(a, id) == FindCell(b, id)
  {
    if a != [] {
      FindCellSameIds(a[1..], b[1..], id);
    }
  }

  /** With a known field nothing panics, and the number, order, ids, regions,
      centres and vertex counts of the cells are kept, as is the other field. */
  lemma {:induction false} AssignAllKeepsShape(cells: seq<CellGeo>, items: seq<IdArray>, field: string)
    requires KnownField(field)
    ensures AssignAll(cells, items, field).Completed?
    ensures SameShape(cells, AssignAll(cells, items, field).value, field)
    decreases |items|
  {
    if items != [] {
      var next := AssignItem(cells, items[0], field).value;
      AssignAllKeepsShape(next, items[1..], field);
    }
  }

  /** Running the items of `a + b` is running `a`, then `b` on the result. */
  lemma {:induction false} AssignAllAppend(cells: seq<CellGeo>, a: seq<IdArray>, b: seq<IdArray>, field: string)
    ensures AssignAll(cells, a + b, field) ==
      match AssignAll(cells, a, field)
      case Panicked(m) => Panicked(m)
      case Completed(mid) => AssignAll(mid, b, field)
    decreases |a|
  {
    if a != [] {
      assert (a + b)[0] == a[0] && (a + b)[1..] == a[1..] + b;
      match AssignItem(cells, a[0], field)
      case Panicked(m) =>
      case Completed(next) => AssignAllAppend(next, a[1..], b, field);
    } else {
      assert a + b == b;
    }
  }

  /** The last item, if any, whose id is `id`. */
  function LastItemFor(items: seq<IdArray>, id: string): (r: Option<IdArray>)
    ensures r.Some? ==> r.value in items && r.value.id == Some(id)
  {
    if items == [] then None
    else if items[|items| - 1].id == Some(id) then Some(items[|items| - 1])
    else LastItemFor(items[..|items| - 1], id)
  }

  /** What `assign_field` leaves in cell `i`: the array of the last item naming
      that cell's id, provided the cell is the first one displaying that id. */
  function ExpectedCell(cells: seq<CellGeo>, items: seq<IdArray>, field: string, i: nat): CellGeo
    requires KnownField(field) && i < |cells|
  {
    var id := Display(cells[i].id);
    var last := LastItemFor(items, id);
    if FindCell(cells, id) == Some(i) && last.Some? then SetField(cells[i], field, last.value.arr) else cells[i]
  }

  function ExpectedCells(cells: seq<CellGeo>, items: seq<IdArray>, field: string): (r: seq<CellGeo>)
    requires KnownField(field)
    ensures |r| == |cells|
  {
    seq(|cells|, i requires 0 <= i < |cells| => ExpectedCell(cells, items, field, i))
  }

  /** `assign_field` with a known field is the cell-by-cell update above:
      only the first cell displaying an id is written, items without an id or
      without a matching cell change nothing, and a later item for the same
      id overwrites an earlier one. */
  lemma {:induction false} AssignAllCharacterization(cells: seq<CellGeo>, items: seq<IdArray>, field: string)
    requires KnownField(field)
    ensures AssignAll(cells, items, field) == Completed(ExpectedCells(cells, items, field))
    decreases |items|
  {
    if items == [] {
      assert ExpectedCells(cells, items, field) == cells;
    } else {
      var init := items[..|items| - 1];
      var x := items[|items| - 1];
      assert items == init + [x];
      AssignAllCharacterization(cells, init, field);
      AssignAllAppend(cells, init, [x], field);
      assert [x][1..] == [];
      ExpectedCellsStep(cells, init, x, field);
    }
  }

  /** One more item moves the expected cells from `init` to `init + [x]`. */
  lemma ExpectedCellsStep(cells: seq<CellGeo>, init: seq<IdArray>, x: IdArray, field: string)
    requires KnownField(field)
    ensures AssignItem(ExpectedCells(cells, init, field), x, field) == Completed(ExpectedCells(cells, init + [x], field))
  {
    var items := init + [x];
    var mid := ExpectedCells(cells, init, field);
    assert forall i :: 0 <= i < |cells| ==> mid[i].id == cells[i].id;
    var r := AssignItem(mid, x, field).value;
    forall i | 0 <= i < |cells|
      ensures r[i] == ExpectedCell(cells, items, field, i)
    {
      var id := Display(cells[i].id);
      assert items[..|items| - 1] == init;
      assert LastItemFor(items, id) == if x.id == Some(id) then Some(x) else LastItemFor(init, id);
      if x.id.Some? {
        FindCellSameIds(mid, cells, x.id.value);
      }
    }
    assert r == ExpectedCells(cells, items, field);
  }

  /** With any other field name the call panics exactly when some item's id is
      displayed by some cell, and otherwise changes nothing. */
  lemma {:induction false} UnknownFieldPanics(cells: seq<CellGeo>, items: seq<IdArray>, field: string)
    requires !KnownField(field)
    ensures AssignAll(cells, items, field).Panicked? <==>
      exists j :: 0 <= j < |items| && items[j].id.Some? && FindCell(cells, items[j].id.value).Some?
    ensures AssignAll(cells, items, field).Panicked? ==>
      AssignAll(cells, items, field).message == UnknownFieldMessage(field)
    ensures AssignAll(cells, items, field).Completed? ==> AssignAll(cells, items, field).value == cells
    decreases |items|
  {
    if items != [] {
      UnknownFieldPanics(cells, items[1..], field);
      if !(items[0].id.Some? && FindCell(cells, items[0].id.value).Some?) {
        assert forall j :: 1 <= j < |items| ==> items[j] == items[1..][j - 1];
      }
    }
  }

  /** `CellsGEO`: the list of cells the adapters fill and then update in place. */
  class CellsGeo {
    var cells: seq<CellGeo>

    constructor (cells: seq<CellGeo>)
      ensures this.cells == cells
    {
      this.cells := cells;
    }

    /** The search of `iter_mut().find`, cell by cell. */
    method Find(id: string) returns (found: Option<nat>)
      ensures found == FindCell(cells, id)
    {
      var k := 0;
      while k < |cells|
        invariant 0 <= k <= |cells|
        invariant forall j :: 0 <= j < k ==> Display(cells[j].id) != id
      {
        if Display(cells[k].id) == id {
          return Some(k);
        }
        k := k + 1;
      }
      return None;
    }

    /** `assign_field`: the items in order; returns the panic message when the
        call panics, and otherwise leaves the cells as the specification says. */
    method AssignField(data: seq<IdArray>, field: string) returns (panic: Option<string>)
      modifies this
      ensures AssignAll(old(cells), data, field).Completed? ==>
        panic == None && cells == AssignAll(old(cells), data, field).value
      ensures AssignAll(old(cells), data, field).Panicked? ==>
        panic == Some(AssignAll(old(cells), data, field).message)
    {
      var k := 0;
      while k < |data|
        invariant 0 <= k <= |data|
        invariant AssignAll(old(cells), data, field) == AssignAll(cells, data[k..], field)
      {
        var item := data[k];
        assert data[k..][0] == item && data[k..][1..] == data[k + 1..];
        if item.id.Some? {
          var found := Find(item.id.value);
          if found.Some? {
            var i := found.value;
            if field == CHILDREN {
              cells := cells[i := cells[i].(children := item.arr)];
            } else if field == NEIGHBORS {
              cells := cells[i := cells[i].(neighbors := item.arr)];
            } else {
              return Some(UnknownFieldMessage(field));
            }
          }
        }
        k := k + 1;
      }
      assert data[k..] == [];
      return None;
    }
  }
}
