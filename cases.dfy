/**
  The cleaned case table shared by the similarity engine and the suspect ranker.
  A categorical cell may be missing (pandas NaN); a missing cell is equal to nothing,
  not even to another missing cell.
*/
module Cases {
  import opened Wrappers

  /** A text cell of a data frame; `None` is NaN. */
  type Cell = Option<string>

  /**
    One row of the cleaned table, restricted to the columns the core reads:
    `dr_no`, the day of `datetime` as a day number, `area_name`, `weapon_desc`, `mo_text`.
  */
  datatype Case = Case(drNo: int, day: int, areaName: Cell, weaponDesc: Cell, moText: Cell)

  /** pandas `==` between two cells: NaN compares unequal to everything. */
  predicate CellEquals(a: Cell, b: Cell)
  {
    a.Some? && b.Some? && a.value == b.value
  }

  /** The first row position whose `dr_no` is `id`, or None when no row has it. */
  function FirstIndexOf(rows: seq<Case>, id: int): (r: Option<nat>)
    ensures r.Some? ==> r.value < |rows| && rows[r.value].drNo == id
    ensures r.Some? ==> forall j :: 0 <= j < r.value ==> rows[j].drNo != id
    ensures r.None? <==> forall j :: 0 <= j < |rows| ==> rows[j].drNo != id
  {
    if |rows| == 0 then None
    else if rows[0].drNo == id then Some(0)
    else match FirstIndexOf(rows[1..], id)
      case None => None
      case Some(i) => Some(i + 1)
  }

  /** Absolute difference of two day numbers. */
  function DayGap(a: int, b: int): (r: nat)
    ensures r == a - b || r == b - a
  {
    if a >= b then a - b else b - a
  }
}
