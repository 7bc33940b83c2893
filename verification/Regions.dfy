/** Finding the tables of a worksheet: its occupied rows in maximal consecutive runs. */
module Regions {
  datatype Region = Region(startRow: int, endRow: int, minColumn: int, maxColumn: int, headerCandidates: seq<int>)

  /** Which cells of the sheet hold a value. */
  type Sheet = (int, int) -> bool

  /** The columns of each row that has any. */
  type RowColumns = m: map<int, seq<int>> | forall r :: r in m ==> m[r] != []

  // --- What the regions of a sheet are --------------------------------------------------------------

  predicate Within(region: Region, row: int) {
    region.startRow <= row <= region.endRow
  }

  /** In order, each with an empty row before the next. */
  predicate Separated(regions: seq<Region>) {
    && (forall i :: 0 <= i < |regions| ==> regions[i].startRow <= regions[i].endRow)
    && forall i, j :: 0 <= i < j < |regions| ==> regions[i].endRow + 1 < regions[j].startRow
  }

  predicate CoveredBy(regions: seq<Region>, row: int) {
    exists i :: 0 <= i < |regions| && Within(regions[i], row)
  }

  /** The regions span exactly the maximal consecutive runs of the occupied rows. */
  ghost predicate RunsOf(regions: seq<Region>, occupied: seq<int>) {
    Separated(regions) && forall r :: r in occupied <==> CoveredBy(regions, r)
  }

  /** The box is as tight as its rows allow. */
  ghost predicate Tight(rows: RowColumns, region: Region) {
    && (forall r, c :: Within(region, r) && r in rows && c in rows[r] ==> region.minColumn <= c <= region.maxColumn)
    && (exists r :: Within(region, r) && r in rows && region.minColumn in rows[r])
    && (exists r :: Within(region, r) && r in rows && region.maxColumn in rows[r])
  }

  /** The header candidates are the region's first rows, three at most. */
  ghost predicate HeadersLead(region: Region) {
    var size := region.endRow - region.startRow + 1;
    && |region.headerCandidates| == (if size < 3 then size else 3)
    && forall i :: 0 <= i < |region.headerCandidates| ==> region.headerCandidates[i] == region.startRow + i
  }

  ghost predicate WellBoxed(rows: RowColumns, region: Region) {
    Tight(rows, region) && HeadersLead(region)
  }

  // --- Lists of regions ------------------------------------------------------------------------------

  lemma CoveredByConcat(regions: seq<Region>, region: Region, row: int)
    ensures CoveredBy(regions + [region], row) <==> CoveredBy(regions, row) || Within(region, row)
  {
    var all := regions + [region];
    if CoveredBy(regions, row) {
      var i :| 0 <= i < |regions| && Within(regions[i], row);
      assert Within(all[i], row);
    }
    if Within(region, row) {
      assert Within(all[|regions|], row);
    }
  }

  lemma SeparatedIff(regions: seq<Region>, region: Region)
    ensures Separated(regions + [region])
       <==> Separated(regions) && region.startRow <= region.endRow && forall i :: 0 <= i < |regions| ==> regions[i].endRow + 1 < region.startRow
  {
    var all := regions + [region];
    assert all[|regions|] == region;
    assert forall i :: 0 <= i < |regions| ==> all[i] == regions[i];
  }

  lemma AllEndBefore(regions: seq<Region>, row: int)
    requires Separated(regions) && regions != [] && regions[|regions| - 1].endRow + 1 < row
    ensures forall i :: 0 <= i < |regions| ==> regions[i].endRow + 1 < row
  {
    forall i | 0 <= i < |regions| - 1 ensures regions[i].endRow + 1 < row {
      assert regions[i].endRow + 1 < regions[|regions| - 1].startRow <= regions[|regions| - 1].endRow;
    }
  }

  /** Lengthening the last region to the next row. */
  lemma RunContinues(regions: seq<Region>, region: Region, longer: Region, occupied: seq<int>)
    requires RunsOf(regions + [region], occupied)
    requires longer.startRow == region.startRow && longer.endRow == region.endRow + 1
    ensures RunsOf(regions + [longer], occupied + [longer.endRow])
  {
    SeparatedIff(regions, region);
    SeparatedIff(regions, longer);
    forall r ensures r in occupied + [longer.endRow] <==> CoveredBy(regions + [longer], r) {
      CoveredByConcat(regions, region, r);
      CoveredByConcat(regions, longer, r);
    }
  }

  /** Only the spans count. */
  lemma SameSpan(regions: seq<Region>, region: Region, other: Region, occupied: seq<int>)
    requires RunsOf(regions + [region], occupied)
    requires other.startRow == region.startRow && other.endRow == region.endRow
    ensures RunsOf(regions + [other], occupied)
  {
    SeparatedIff(regions, region);
    SeparatedIff(regions, other);
    forall r ensures r in occupied <==> CoveredBy(regions + [other], r) {
      CoveredByConcat(regions, region, r);
      CoveredByConcat(regions, other, r);
    }
  }

  /** A new region for a row past the last one's end and one more. */
  lemma RunStarts(regions: seq<Region>, region: Region, occupied: seq<int>)
    requires RunsOf(regions, occupied) && region.startRow == region.endRow
    requires regions != [] ==> regions[|regions| - 1].endRow + 1 < region.startRow
    ensures RunsOf(regions + [region], occupied + [region.startRow])
  {
    if regions != [] {
      AllEndBefore(regions, region.startRow);
    }
    SeparatedIff(regions, region);
    forall r ensures r in occupied + [region.startRow] <==> CoveredBy(regions + [region], r) {
      CoveredByConcat(regions, region, r);
    }
  }

  // --- The box of a run --------------------------------------------------------------------------------

  function Min(s: seq<int>): (r: int)
    requires s != []
    ensures r in s && forall x :: x in s ==> r <= x
  {
    if |s| == 1 then s[0]
    else
      var last, earlier := s[|s| - 1], s[..|s| - 1];
      var m := Min(earlier);
      assert s == earlier + [last];
      if last < m then last else m
  }

  function Max(s: seq<int>): (r: int)
    requires s != []
    ensures r in s && forall x :: x in s ==> x <= r
  {
    if |s| == 1 then s[0]
    else
      var last, earlier := s[|s| - 1], s[..|s| - 1];
      var m := Max(earlier);
      assert s == earlier + [last];
      if m < last then last else m
  }

  predicate AllOccupied(rows: RowColumns, start: int, end: int) {
    forall r :: start <= r <= end ==> r in rows
  }

  /** The columns of n rows from `start` on. */
  function ColumnsOf(rows: RowColumns, start: int, n: nat): seq<int>
    requires AllOccupied(rows, start, start + n - 1)
  {
    if n == 0 then [] else ColumnsOf(rows, start, n - 1) + rows[start + n - 1]
  }

  lemma {:induction false} ColumnsOfHas(rows: RowColumns, start: int, n: nat, c: int)
    requires AllOccupied(rows, start, start + n - 1)
    ensures c in ColumnsOf(rows, start, n) <==> exists r :: start <= r < start + n && c in rows[r]
    ensures n > 0 ==> ColumnsOf(rows, start, n) != []
  {
    if n == 0 {
    } else {
      ColumnsOfHas(rows, start, n - 1, c);
    }
  }

  function Range(first: int, n: nat): (r: seq<int>)
    ensures |r| == n && forall i :: 0 <= i < n ==> r[i] == first + i
  {
    seq(n, i => first + i)
  }

  /** The region of a closed run. */
  method CloseRegion(rows: RowColumns, start: int, end: int) returns (region: Region)
    requires start <= end && AllOccupied(rows, start, end)
    ensures region.startRow == start && region.endRow == end && WellBoxed(rows, region)
  {
    ColumnsOfHas(rows, start, end - start + 1, 0);
    var columns := ColumnsOf(rows, start, end - start + 1);
    var lastHeader := if end < start + 2 then end else start + 2;
    region := Region(start, end, Min(columns), Max(columns), Range(start, lastHeader - start + 1));
    forall r, c | Within(region, r) && c in rows[r] ensures region.minColumn <= c <= region.maxColumn {
      ColumnsOfHas(rows, start, end - start + 1, c);
    }
    ColumnsOfHas(rows, start, end - start + 1, region.minColumn);
    ColumnsOfHas(rows, start, end - start + 1, region.maxColumn);
  }

  // --- The region loop ----------------------------------------------------------------------------------

  predicate Ascending(s: seq<int>) {
    forall i, j :: 0 <= i < j < |s| ==> s[i] < s[j]
  }

  /** A run still open: its span, not yet boxed. */
  function Open(start: int, end: int): Region {
    Region(start, end, 0, 0, [])
  }

  /** The loop's state: with the open run, the regions are the runs of the first i rows. */
  ghost predicate Runs(regions: seq<Region>, start: int, previous: int, occupied: seq<int>, i: nat)
    requires 1 <= i <= |occupied|
  {
    start <= previous == occupied[i - 1] && RunsOf(regions + [Open(start, previous)], occupied[..i])
  }

  lemma RunsContinue(regions: seq<Region>, start: int, previous: int, occupied: seq<int>, i: nat)
    requires 1 <= i < |occupied| && Runs(regions, start, previous, occupied, i) && occupied[i] == previous + 1
    ensures Runs(regions, start, occupied[i], occupied, i + 1)
  {
    RunContinues(regions, Open(start, previous), Open(start, previous + 1), occupied[..i]);
    assert occupied[..i + 1] == occupied[..i] + [previous + 1];
  }

  lemma RunsStart(closed: seq<Region>, occupied: seq<int>, i: nat)
    requires i < |occupied| && RunsOf(closed, occupied[..i])
    requires closed != [] ==> closed[|closed| - 1].endRow + 1 < occupied[i]
    ensures Runs(closed, occupied[i], occupied[i], occupied, i + 1)
  {
    RunStarts(closed, Open(occupied[i], occupied[i]), occupied[..i]);
    assert occupied[..i + 1] == occupied[..i] + [occupied[i]];
  }

  /** The region loop over a sheet's occupied rows, in ascending order; the last round closes the open run. */
  method FindRegions(rows: RowColumns, occupiedRows: seq<int>) returns (regions: seq<Region>)
    requires Ascending(occupiedRows) && forall r :: r in occupiedRows <==> r in rows
    ensures RunsOf(regions, occupiedRows)
    ensures forall i :: 0 <= i < |regions| ==> WellBoxed(rows, regions[i])
  {
    regions := [];
    if occupiedRows == [] {
      return;
    }
    var start, previous := occupiedRows[0], occupiedRows[0];
    RunsStart([], occupiedRows, 0);
    var i := 1;
    while i <= |occupiedRows|
      invariant 1 <= i <= |occupiedRows| + 1
      invariant i <= |occupiedRows| ==> Runs(regions, start, previous, occupiedRows, i) && AllOccupied(rows, start, previous)
      invariant i == |occupiedRows| + 1 ==> RunsOf(regions, occupiedRows[..|occupiedRows|])
      invariant forall k :: 0 <= k < |regions| ==> WellBoxed(rows, regions[k])
    {
      if i < |occupiedRows| && occupiedRows[i] == previous + 1 {
        RunsContinue(regions, start, previous, occupiedRows, i);
        previous := occupiedRows[i];
      } else {
        var region := CloseRegion(rows, start, previous);
        SameSpan(regions, Open(start, previous), region, occupiedRows[..i]);
        regions := regions + [region];
        if i < |occupiedRows| {
          RunsStart(regions, occupiedRows, i);
          start, previous := occupiedRows[i], occupiedRows[i];
        }
      }
      i := i + 1;
    }
    assert occupiedRows[..|occupiedRows|] == occupiedRows;
  }

  // --- The runs are determined --------------------------------------------------------------------------

  lemma LastEndsLast(a: seq<Region>, row: int)
    requires Separated(a) && CoveredBy(a, row)
    ensures a != [] && row <= a[|a| - 1].endRow
  {
    var i :| 0 <= i < |a| && Within(a[i], row);
    if i < |a| - 1 {
      assert a[i].endRow + 1 < a[|a| - 1].startRow;
    }
  }

  lemma EndIsCovered(a: seq<Region>)
    requires Separated(a) && a != []
    ensures CoveredBy(a, a[|a| - 1].endRow)
  {
    assert Within(a[|a| - 1], a[|a| - 1].endRow);
  }

  lemma GapIsEmpty(b: seq<Region>)
    requires Separated(b) && b != []
    ensures !CoveredBy(b, b[|b| - 1].startRow - 1)
  {
    forall j | 0 <= j < |b| ensures !Within(b[j], b[|b| - 1].startRow - 1) {
      if j < |b| - 1 {
        assert b[j].endRow + 1 < b[|b| - 1].startRow;
      }
    }
  }

  /** The row before the last region is empty, so no other list's last region reaches past it. */
  lemma LastStartsNoEarlier(a: seq<Region>, b: seq<Region>)
    requires Separated(a) && Separated(b) && a != [] && b != [] && a[|a| - 1].endRow == b[|b| - 1].endRow
    requires forall r :: CoveredBy(a, r) ==> CoveredBy(b, r)
    ensures a[|a| - 1].startRow >= b[|b| - 1].startRow
  {
    GapIsEmpty(b);
    assert !Within(a[|a| - 1], b[|b| - 1].startRow - 1);
  }

  lemma WithoutLast(a: seq<Region>, row: int)
    requires Separated(a) && a != []
    ensures CoveredBy(a[..|a| - 1], row) <==> CoveredBy(a, row) && row < a[|a| - 1].startRow
  {
    var last := |a| - 1;
    assert a == a[..last] + [a[last]];
    CoveredByConcat(a[..last], a[last], row);
    if CoveredBy(a[..last], row) {
      var i :| 0 <= i < last && Within(a[..last][i], row);
      assert a[i].endRow + 1 < a[last].startRow;
    }
  }

  /** Separated regions over the same rows have the same spans: the maximal runs are unique. */
  lemma {:induction false} RunsAreUnique(a: seq<Region>, b: seq<Region>)
    requires Separated(a) && Separated(b) && forall r :: CoveredBy(a, r) <==> CoveredBy(b, r)
    ensures |a| == |b| && forall i :: 0 <= i < |a| ==> a[i].startRow == b[i].startRow && a[i].endRow == b[i].endRow
    decreases |a|
  {
    if a == [] {
      if b != [] {
        EndIsCovered(b);
      }
    } else {
      EndIsCovered(a);
      LastEndsLast(b, a[|a| - 1].endRow);
      EndIsCovered(b);
      LastEndsLast(a, b[|b| - 1].endRow);
      LastStartsNoEarlier(a, b);
      LastStartsNoEarlier(b, a);
      var earlierA, earlierB := a[..|a| - 1], b[..|b| - 1];
      forall r ensures CoveredBy(earlierA, r) <==> CoveredBy(earlierB, r) {
        WithoutLast(a, r);
        WithoutLast(b, r);
      }
      RunsAreUnique(earlierA, earlierB);
    }
  }

  // --- Scanning a sheet -----------------------------------------------------------------------------------

  /** The columns up to n with a value in the row, ascending. */
  function Occupied(sheet: Sheet, row: int, n: nat): seq<int> {
    if n == 0 then [] else Occupied(sheet, row, n - 1) + (if sheet(row, n) then [n] else [])
  }

  lemma {:induction false} OccupiedHas(sheet: Sheet, row: int, n: nat, c: int)
    ensures c in Occupied(sheet, row, n) <==> 1 <= c <= n && sheet(row, c)
  {
    if n == 0 {
    } else {
      OccupiedHas(sheet, row, n - 1, c);
    }
  }

  ghost predicate HasValue(sheet: Sheet, row: int, maxColumn: nat) {
    exists c :: 1 <= c <= maxColumn && sheet(row, c)
  }

  /** The cell loop of one row. */
  method ScanRow(sheet: Sheet, row: int, maxColumn: nat) returns (columns: seq<int>)
    ensures columns == Occupied(sheet, row, maxColumn)
    ensures columns != [] <==> HasValue(sheet, row, maxColumn)
  {
    columns := [];
    for column := 1 to maxColumn + 1
      invariant columns == Occupied(sheet, row, column - 1)
    {
      if sheet(row, column) {
        columns := columns + [column];
      }
    }
    if columns != [] {
      OccupiedHas(sheet, row, maxColumn, columns[0]);
    }
    if c :| 1 <= c <= maxColumn && sheet(row, c) {
      OccupiedHas(sheet, row, maxColumn, c);
    }
  }

  /** The row loop: the rows that hold a value, with their columns. */
  method ScanRows(sheet: Sheet, maxRow: nat, maxColumn: nat) returns (rows: RowColumns, occupiedRows: seq<int>)
    ensures forall r :: r in rows <==> 1 <= r <= maxRow && HasValue(sheet, r, maxColumn)
    ensures forall r :: r in rows ==> rows[r] == Occupied(sheet, r, maxColumn)
    ensures Ascending(occupiedRows) && forall r :: r in occupiedRows <==> r in rows
  {
    rows, occupiedRows := map[], [];
    for row := 1 to maxRow + 1
      invariant forall r :: r in rows <==> 1 <= r < row && HasValue(sheet, r, maxColumn)
      invariant forall r :: r in rows ==> rows[r] == Occupied(sheet, r, maxColumn)
      invariant Ascending(occupiedRows) && forall r :: r in occupiedRows <==> r in rows
    {
      var columns := ScanRow(sheet, row, maxColumn);
      if columns != [] {
        rows, occupiedRows := rows[row := columns], occupiedRows + [row];
      }
    }
  }

  /** The regions of a sheet: the maximal runs of its rows that hold a value, each boxed tightly by its cells. */
  method ScanSheet(sheet: Sheet, maxRow: nat, maxColumn: nat) returns (rows: RowColumns, regions: seq<Region>)
    ensures forall r :: r in rows ==> rows[r] == Occupied(sheet, r, maxColumn)
    ensures Separated(regions)
    ensures forall r :: CoveredBy(regions, r) <==> 1 <= r <= maxRow && HasValue(sheet, r, maxColumn)
    ensures forall i :: 0 <= i < |regions| ==> WellBoxed(rows, regions[i])
  {
    var occupiedRows;
    rows, occupiedRows := ScanRows(sheet, maxRow, maxColumn);
    regions := FindRegions(rows, occupiedRows);
  }
}
