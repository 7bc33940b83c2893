/** Slippy-map tiles of an offline area, over exact reals; the Mercator projection of latitude is a parameter. */
module Tiles {
  import opened Prelude

  datatype Bounds = Bounds(west: real, south: real, east: real, north: real)

  datatype Tile = Tile(z: nat, x: int, y: int)

  const MAX_LATITUDE := 85.05112878
  const MAX_TILES := 5000

  /** Latitude to map height, 0 at the northern edge and 1 at the southern one. */
  type Projection = real -> real

  ghost predicate IsMercator(proj: Projection) {
    && (forall a, b :: -MAX_LATITUDE <= a < b <= MAX_LATITUDE ==> proj(a) > proj(b))
    && (forall a :: -MAX_LATITUDE <= a <= MAX_LATITUDE ==> 0.0 <= proj(a) <= 1.0)
  }

  function Pow2(z: nat): (r: nat)
    ensures r >= 1
  {
    if z == 0 then 1 else 2 * Pow2(z - 1)
  }

  function MinReal(a: real, b: real): real { if a <= b then a else b }

  function MaxReal(a: real, b: real): real { if a >= b then a else b }

  function Clamp(k: int, hi: int): int {
    var m := if k < hi then k else hi;
    if m > 0 then m else 0
  }

  function Ceil(r: real): int { -(-r).Floor }

  function ClampLatitude(latitude: real): real { MaxReal(-MAX_LATITUDE, MinReal(MAX_LATITUDE, latitude)) }

  // --- Where a place falls on the map, from 0 to 1 ------------------------------------------------

  function AcrossMap(longitude: real): real { (longitude + 180.0) / 360.0 }

  function DownMap(proj: Projection, latitude: real): real { proj(ClampLatitude(latitude)) }

  /** A map coordinate in tiles of zoom z: the coordinate times two to the z, by doubling. */
  function OnGrid(a: real, z: nat): real {
    if z == 0 then a else 2.0 * OnGrid(a, z - 1)
  }

  lemma {:induction false} OnGridIsProduct(a: real, z: nat)
    ensures OnGrid(a, z) == a * Pow2(z) as real
  {
    if z == 0 {
    } else {
      OnGridIsProduct(a, z - 1);
      Double(a, Pow2(z - 1) as real);
    }
  }

  lemma Double(a: real, s: real)
    ensures 2.0 * (a * s) == a * (2.0 * s)
  {
  }

  function TileX(longitude: real, z: nat): int { OnGrid(AcrossMap(longitude), z).Floor }

  function TileY(proj: Projection, latitude: real, z: nat): int { OnGrid(DownMap(proj, latitude), z).Floor }

  function TileEndX(longitude: real, z: nat): int { Clamp(Ceil(OnGrid(AcrossMap(longitude), z)) - 1, Pow2(z) - 1) }

  function TileEndY(proj: Projection, latitude: real, z: nat): int {
    Clamp(Ceil(OnGrid(DownMap(proj, latitude), z)) - 1, Pow2(z) - 1)
  }

  function FirstX(b: Bounds, z: nat): int { Clamp(TileX(b.west, z), Pow2(z) - 1) }

  function LastX(b: Bounds, z: nat): int { TileEndX(b.east, z) }

  function FirstY(proj: Projection, b: Bounds, z: nat): int { Clamp(TileY(proj, b.north, z), Pow2(z) - 1) }

  function LastY(proj: Projection, b: Bounds, z: nat): int { TileEndY(proj, b.south, z) }

  // --- The tiles in order -------------------------------------------------------------------------

  /** n tiles down from firstY. */
  function Column(z: nat, x: int, firstY: int, n: nat): (r: seq<Tile>)
    ensures |r| == n
    ensures forall i :: 0 <= i < n ==> r[i] == Tile(z, x, firstY + i)
  {
    if n == 0 then [] else Column(z, x, firstY, n - 1) + [Tile(z, x, firstY + n - 1)]
  }

  /** How many steps a loop from first to last takes. */
  function Extent(first: int, last: int): nat {
    if last < first then 0 else last - first + 1
  }

  /** n columns from firstX on, each of `height` tiles. */
  function Columns(z: nat, firstX: int, n: nat, firstY: int, height: nat): seq<Tile> {
    if n == 0 then [] else Columns(z, firstX, n - 1, firstY, height) + Column(z, firstX + n - 1, firstY, height)
  }

  function AtZoom(proj: Projection, b: Bounds, z: nat): seq<Tile> {
    Columns(z, FirstX(b, z), Extent(FirstX(b, z), LastX(b, z)), FirstY(proj, b, z), Extent(FirstY(proj, b, z), LastY(proj, b, z)))
  }

  /** The tiles of n zoom levels from minZoom up. */
  function AllTiles(proj: Projection, b: Bounds, minZoom: nat, n: nat): seq<Tile> {
    if n == 0 then [] else AllTiles(proj, b, minZoom, n - 1) + AtZoom(proj, b, minZoom + n - 1)
  }

  lemma Associate(a: seq<Tile>, b: seq<Tile>, c: seq<Tile>)
    ensures (a + b) + c == a + (b + c)
  {
  }

  method TilesForBounds(proj: Projection, b: Bounds, minZoom: nat, maxZoom: int) returns (tiles: seq<Tile>)
    ensures tiles == AllTiles(proj, b, minZoom, Extent(minZoom, maxZoom))
  {
    tiles := [];
    var z := minZoom;
    while z <= maxZoom
      invariant minZoom <= z <= minZoom + Extent(minZoom, maxZoom)
      invariant tiles == AllTiles(proj, b, minZoom, z - minZoom)
      decreases maxZoom - z
    {
      var level := PushLevel(z, FirstX(b, z), LastX(b, z), FirstY(proj, b, z), LastY(proj, b, z));
      tiles := tiles + level;
      z := z + 1;
    }
  }

  /** The two inner loops: column by column, top to bottom. */
  method PushLevel(z: nat, firstX: int, lastX: int, firstY: int, lastY: int) returns (tiles: seq<Tile>)
    ensures tiles == Columns(z, firstX, Extent(firstX, lastX), firstY, Extent(firstY, lastY))
  {
    tiles := [];
    ghost var height := Extent(firstY, lastY);
    var x := firstX;
    while x <= lastX
      invariant firstX <= x <= firstX + Extent(firstX, lastX)
      invariant tiles == Columns(z, firstX, x - firstX, firstY, height)
    {
      ghost var before := tiles;
      var y := firstY;
      while y <= lastY
        invariant firstY <= y <= firstY + height
        invariant tiles == before + Column(z, x, firstY, y - firstY)
      {
        tiles := tiles + [Tile(z, x, y)];
        y := y + 1;
        Associate(before, Column(z, x, firstY, y - firstY - 1), [Tile(z, x, y - 1)]);
      }
      x := x + 1;
    }
  }

  // --- What a tile covers ---------------------------------------------------------------------------

  /** Some point of the map lies inside both the open area and the open tile. */
  ghost predicate Meets(proj: Projection, b: Bounds, t: Tile) {
    exists u, v :: PointIn(proj, b, t, u, v)
  }

  ghost predicate PointIn(proj: Projection, b: Bounds, t: Tile, u: real, v: real) {
    && AcrossMap(b.west) < u < AcrossMap(b.east) && DownMap(proj, b.north) < v < DownMap(proj, b.south)
    && t.x as real < OnGrid(u, t.z) < (t.x + 1) as real
    && t.y as real < OnGrid(v, t.z) < (t.y + 1) as real
  }

  /** The area has an inside and lies on the map. */
  predicate OnMap(b: Bounds) {
    b.west < b.east && b.south < b.north && -180.0 <= b.west && b.east <= 180.0 && -MAX_LATITUDE <= b.south && b.north <= MAX_LATITUDE
  }

  /** The clamped range of tiles over a stretch of one axis is exactly the tiles that overlap it. */
  lemma ClampedRange(lo: real, hi: real, size: nat, k: int)
    requires size >= 1 && 0.0 <= lo < hi <= size as real
    ensures Clamp(lo.Floor, size - 1) <= k <= Clamp(Ceil(hi) - 1, size - 1) <==> lo < (k + 1) as real && k as real < hi
    ensures lo < (k + 1) as real && k as real < hi ==> 0 <= k < size
  {
    assert lo.Floor as real <= lo < (lo.Floor + 1) as real;
    assert Ceil(hi) as real >= hi > (Ceil(hi) - 1) as real;
  }

  ghost predicate Overlaps(lo: real, hi: real, z: nat, k: int) {
    exists u :: Inside(lo, hi, z, k, u)
  }

  /** u is inside the open stretch and inside tile k. */
  predicate Inside(lo: real, hi: real, z: nat, k: int, u: real) {
    lo < u < hi && k as real < OnGrid(u, z) < (k + 1) as real
  }

  lemma {:induction false} GridKeepsOrder(a: real, b: real, z: nat)
    ensures a < b <==> OnGrid(a, z) < OnGrid(b, z)
  {
    if z == 0 {
    } else {
      GridKeepsOrder(a, b, z - 1);
    }
  }

  lemma {:induction false} GridBounds(a: real, z: nat)
    requires 0.0 <= a <= 1.0
    ensures 0.0 <= OnGrid(a, z) <= Pow2(z) as real
  {
    if z == 0 {
    } else {
      GridBounds(a, z - 1);
    }
  }

  /** The map coordinate of a grid coordinate. */
  function OffGrid(w: real, z: nat): real {
    if z == 0 then w else OffGrid(w, z - 1) / 2.0
  }

  lemma {:induction false} GridHalves(a: real, z: nat)
    ensures OnGrid(a / 2.0, z) == OnGrid(a, z) / 2.0
  {
    if z == 0 {
    } else {
      GridHalves(a, z - 1);
    }
  }

  lemma {:induction false} OnOffGrid(w: real, z: nat)
    ensures OnGrid(OffGrid(w, z), z) == w
  {
    if z == 0 {
    } else {
      OnOffGrid(w, z - 1);
      GridHalves(OffGrid(w, z - 1), z - 1);
    }
  }

  lemma OverlapsIff(lo: real, hi: real, z: nat, k: int)
    requires lo < hi
    ensures Overlaps(lo, hi, z, k) <==> OnGrid(lo, z) < (k + 1) as real && k as real < OnGrid(hi, z)
  {
    if Overlaps(lo, hi, z, k) {
      var u :| Inside(lo, hi, z, k, u);
      GridKeepsOrder(lo, u, z);
      GridKeepsOrder(u, hi, z);
    }
    if OnGrid(lo, z) < (k + 1) as real && k as real < OnGrid(hi, z) {
      GridKeepsOrder(lo, hi, z);
      var w := (MaxReal(OnGrid(lo, z), k as real) + MinReal(OnGrid(hi, z), (k + 1) as real)) / 2.0;
      OnOffGrid(w, z);
      GridKeepsOrder(lo, OffGrid(w, z), z);
      GridKeepsOrder(OffGrid(w, z), hi, z);
      assert Inside(lo, hi, z, k, OffGrid(w, z));
    }
  }

  /** Over a stretch of one axis: from the clamped first to the clamped last tile are the tiles with a point in it. */
  lemma AxisIsCovered(lo: real, hi: real, z: nat, k: int)
    requires 0.0 <= lo < hi <= 1.0
    ensures Clamp(OnGrid(lo, z).Floor, Pow2(z) - 1) <= k <= Clamp(Ceil(OnGrid(hi, z)) - 1, Pow2(z) - 1) <==> Overlaps(lo, hi, z, k)
  {
    GridKeepsOrder(lo, hi, z);
    GridBounds(lo, z);
    GridBounds(hi, z);
    ClampedRange(OnGrid(lo, z), OnGrid(hi, z), Pow2(z), k);
    OverlapsIff(lo, hi, z, k);
  }

  /** A tile meets the area exactly when it lies in the ranges of both axes. */
  lemma MeetsIff(proj: Projection, b: Bounds, t: Tile)
    requires IsMercator(proj) && OnMap(b)
    ensures Meets(proj, b, t) <==> FirstX(b, t.z) <= t.x <= LastX(b, t.z) && FirstY(proj, b, t.z) <= t.y <= LastY(proj, b, t.z)
  {
    var west, east, north, south := AcrossMap(b.west), AcrossMap(b.east), DownMap(proj, b.north), DownMap(proj, b.south);
    assert 0.0 <= north < south <= 1.0;
    AxisIsCovered(west, east, t.z, t.x);
    AxisIsCovered(north, south, t.z, t.y);
    if Meets(proj, b, t) {
      var u, v :| PointIn(proj, b, t, u, v);
      assert Inside(west, east, t.z, t.x, u) && Inside(north, south, t.z, t.y, v);
    }
    if Overlaps(west, east, t.z, t.x) && Overlaps(north, south, t.z, t.y) {
      var u :| Inside(west, east, t.z, t.x, u);
      var v :| Inside(north, south, t.z, t.y, v);
      assert PointIn(proj, b, t, u, v);
    }
  }

  // --- The list is exactly the cover -------------------------------------------------------------------

  lemma {:induction false} ColumnsHold(z: nat, firstX: int, n: nat, firstY: int, height: nat, t: Tile)
    ensures t in Columns(z, firstX, n, firstY, height) <==> t.z == z && firstX <= t.x < firstX + n && firstY <= t.y < firstY + height
    ensures |Columns(z, firstX, n, firstY, height)| == n * height
  {
    if n == 0 {
    } else {
      ColumnsHold(z, firstX, n - 1, firstY, height, t);
      var column := Column(z, firstX + n - 1, firstY, height);
      if t.z == z && t.x == firstX + n - 1 && firstY <= t.y < firstY + height {
        assert column[t.y - firstY] == t;
      }
    }
  }

  lemma LevelHolds(proj: Projection, b: Bounds, z: nat, t: Tile)
    ensures t in AtZoom(proj, b, z)
       <==> t.z == z && FirstX(b, z) <= t.x <= LastX(b, z) && FirstY(proj, b, z) <= t.y <= LastY(proj, b, z)
    ensures |AtZoom(proj, b, z)| == Extent(FirstX(b, z), LastX(b, z)) * Extent(FirstY(proj, b, z), LastY(proj, b, z))
  {
    ColumnsHold(z, FirstX(b, z), Extent(FirstX(b, z), LastX(b, z)), FirstY(proj, b, z), Extent(FirstY(proj, b, z), LastY(proj, b, z)), t);
  }

  lemma {:induction false} AllTilesHold(proj: Projection, b: Bounds, minZoom: nat, n: nat, t: Tile)
    ensures t in AllTiles(proj, b, minZoom, n) <==> minZoom <= t.z < minZoom + n && t in AtZoom(proj, b, t.z)
  {
    if n == 0 {
    } else {
      AllTilesHold(proj, b, minZoom, n - 1, t);
      var z := minZoom + n - 1;
      LevelHolds(proj, b, z, t);
    }
  }

  /** For an area on the map the list has exactly the tiles of its zoom levels that meet the area. */
  lemma ExactCover(proj: Projection, b: Bounds, minZoom: nat, n: nat, t: Tile)
    requires IsMercator(proj) && OnMap(b)
    ensures t in AllTiles(proj, b, minZoom, n) <==> minZoom <= t.z < minZoom + n && Meets(proj, b, t)
  {
    var z := t.z;
    AllTilesHold(proj, b, minZoom, n, t);
    LevelHolds(proj, b, z, t);
    MeetsIff(proj, b, t);
  }

  /** By zoom, then column, then row. */
  predicate Before(s: Tile, t: Tile) {
    s.z < t.z || (s.z == t.z && (s.x < t.x || (s.x == t.x && s.y < t.y)))
  }

  ghost predicate Ordered(tiles: seq<Tile>) {
    forall i, j :: 0 <= i < j < |tiles| ==> Before(tiles[i], tiles[j])
  }

  ghost predicate AllBefore(a: seq<Tile>, b: seq<Tile>) {
    forall s, t :: s in a && t in b ==> Before(s, t)
  }

  lemma OrderedConcat(a: seq<Tile>, b: seq<Tile>, whole: seq<Tile>)
    requires Ordered(a) && Ordered(b) && AllBefore(a, b) && whole == a + b
    ensures Ordered(whole)
  {
  }

  lemma {:induction false} ColumnsAreOrdered(z: nat, firstX: int, n: nat, firstY: int, height: nat)
    ensures Ordered(Columns(z, firstX, n, firstY, height))
  {
    if n == 0 {
    } else {
      ColumnsAreOrdered(z, firstX, n - 1, firstY, height);
      var left, column := Columns(z, firstX, n - 1, firstY, height), Column(z, firstX + n - 1, firstY, height);
      forall s, t | s in left && t in column ensures Before(s, t) {
        ColumnsHold(z, firstX, n - 1, firstY, height, s);
      }
      OrderedConcat(left, column, left + column);
    }
  }

  lemma LevelIsOrdered(proj: Projection, b: Bounds, z: nat)
    ensures Ordered(AtZoom(proj, b, z))
  {
    ColumnsAreOrdered(z, FirstX(b, z), Extent(FirstX(b, z), LastX(b, z)), FirstY(proj, b, z), Extent(FirstY(proj, b, z), LastY(proj, b, z)));
  }

  lemma LowerLevelsComeFirst(proj: Projection, b: Bounds, minZoom: nat, n: nat)
    ensures AllBefore(AllTiles(proj, b, minZoom, n), AtZoom(proj, b, minZoom + n))
  {
    forall s, t | s in AllTiles(proj, b, minZoom, n) && t in AtZoom(proj, b, minZoom + n) ensures Before(s, t) {
      AllTilesHold(proj, b, minZoom, n, s);
      LevelHolds(proj, b, minZoom + n, t);
    }
  }

  lemma OneMoreLevel(proj: Projection, b: Bounds, minZoom: nat, n: nat)
    requires Ordered(AllTiles(proj, b, minZoom, n))
    ensures Ordered(AllTiles(proj, b, minZoom, n + 1))
  {
    var lower, level := AllTiles(proj, b, minZoom, n), AtZoom(proj, b, minZoom + n);
    LevelIsOrdered(proj, b, minZoom + n);
    LowerLevelsComeFirst(proj, b, minZoom, n);
    OrderedConcat(lower, level, lower + level);
  }

  /** The list is in strictly increasing order, so no tile occurs twice. */
  lemma {:induction false} NoRepeats(proj: Projection, b: Bounds, minZoom: nat, n: nat)
    ensures Ordered(AllTiles(proj, b, minZoom, n))
  {
    if n == 0 {
    } else {
      NoRepeats(proj, b, minZoom, n - 1);
      OneMoreLevel(proj, b, minZoom, n - 1);
    }
  }

  lemma HalfTile(a: real, z: nat, k: int)
    requires k as real < OnGrid(a, z + 1) < (k + 1) as real
    ensures (k / 2) as real < OnGrid(a, z) < (k / 2 + 1) as real
  {
    assert 2 * (k / 2) <= k <= 2 * (k / 2) + 1;
  }

  /** With a tile the list has its parent, down to the lowest zoom. */
  lemma ClosedUnderParents(proj: Projection, b: Bounds, minZoom: nat, n: nat, t: Tile)
    requires IsMercator(proj) && OnMap(b) && t in AllTiles(proj, b, minZoom, n) && t.z > minZoom
    ensures Tile(t.z - 1, t.x / 2, t.y / 2) in AllTiles(proj, b, minZoom, n)
  {
    var parent := Tile(t.z - 1, t.x / 2, t.y / 2);
    ExactCover(proj, b, minZoom, n, t);
    ExactCover(proj, b, minZoom, n, parent);
    var u, v :| PointIn(proj, b, t, u, v);
    HalfTile(u, t.z - 1, t.x);
    HalfTile(v, t.z - 1, t.y);
    assert PointIn(proj, b, parent, u, v);
  }

  // --- The validator's count ---------------------------------------------------------------------------

  /** The validator's term for one zoom level. */
  function LevelCount(proj: Projection, b: Bounds, z: nat): int {
    (LastX(b, z) - FirstX(b, z) + 1) * (LastY(proj, b, z) - FirstY(proj, b, z) + 1)
  }

  lemma LevelHasItsCount(proj: Projection, b: Bounds, z: nat)
    requires IsMercator(proj) && OnMap(b)
    ensures |AtZoom(proj, b, z)| == LevelCount(proj, b, z) >= 1
  {
    LevelHolds(proj, b, z, Tile(z, 0, 0));
    RangeIsProper(AcrossMap(b.west), AcrossMap(b.east), z);
    RangeIsProper(DownMap(proj, b.north), DownMap(proj, b.south), z);
  }

  lemma RangeIsProper(lo: real, hi: real, z: nat)
    requires 0.0 <= lo < hi <= 1.0
    ensures Clamp(OnGrid(lo, z).Floor, Pow2(z) - 1) <= Clamp(Ceil(OnGrid(hi, z)) - 1, Pow2(z) - 1)
  {
    GridKeepsOrder(lo, hi, z);
    GridBounds(lo, z);
    GridBounds(hi, z);
    ClampedRange(OnGrid(lo, z), OnGrid(hi, z), Pow2(z), Clamp(OnGrid(lo, z).Floor, Pow2(z) - 1));
  }

  /** The validator's sum over n zoom levels. */
  function TileCount(proj: Projection, b: Bounds, minZoom: nat, n: nat): int {
    if n == 0 then 0 else TileCount(proj, b, minZoom, n - 1) + LevelCount(proj, b, minZoom + n - 1)
  }

  /** The sum is the length of the list, and grows with every level. */
  lemma {:induction false} CountIsLength(proj: Projection, b: Bounds, minZoom: nat, n: nat)
    requires IsMercator(proj) && OnMap(b)
    ensures TileCount(proj, b, minZoom, n) == |AllTiles(proj, b, minZoom, n)|
  {
    if n == 0 {
    } else {
      CountIsLength(proj, b, minZoom, n - 1);
      LevelHasItsCount(proj, b, minZoom + n - 1);
    }
  }

  lemma {:induction false} CountGrows(proj: Projection, b: Bounds, minZoom: nat, m: nat, n: nat)
    requires IsMercator(proj) && OnMap(b) && m <= n
    ensures TileCount(proj, b, minZoom, m) <= TileCount(proj, b, minZoom, n)
    decreases n
  {
    if m == n {
    } else {
      CountGrows(proj, b, minZoom, m, n - 1);
      LevelHasItsCount(proj, b, minZoom + n - 1);
    }
  }

  lemma CountBoundsLength(proj: Projection, b: Bounds, minZoom: nat, m: nat, n: nat)
    requires IsMercator(proj) && OnMap(b) && m <= n
    ensures TileCount(proj, b, minZoom, m) <= TileCount(proj, b, minZoom, n) == |AllTiles(proj, b, minZoom, n)|
  {
    CountIsLength(proj, b, minZoom, n);
    CountGrows(proj, b, minZoom, m, n);
  }

  datatype Rejection = NoArea | OffTheMap | BadZooms | OutsideZoomLimits | TooManyTiles(count: int)

  /** The checks before the count. */
  function BeforeCounting(b: Bounds, minZoom: int, maxZoom: int, lowest: int, highest: int): Option<Rejection> {
    if b.west >= b.east || b.south >= b.north then Some(NoArea)
    else if b.west < -180.0 || b.east > 180.0 || b.south < -MAX_LATITUDE || b.north > MAX_LATITUDE then Some(OffTheMap)
    else if minZoom < 0 || maxZoom > 24 || minZoom > maxZoom then Some(BadZooms)
    else if minZoom < lowest || maxZoom > highest then Some(OutsideZoomLimits)
    else None
  }

  predicate IsArea(b: Bounds) {
    b.west < b.east && b.south < b.north
  }

  predicate IsZoomRange(minZoom: int, maxZoom: int) {
    0 <= minZoom <= maxZoom <= 24
  }

  /** Which check an area fails before it is counted: it must be an area on the map, in a range of zooms that exists and is allowed. */
  lemma RejectedEarlyIff(b: Bounds, minZoom: int, maxZoom: int, lowest: int, highest: int)
    ensures var r := BeforeCounting(b, minZoom, maxZoom, lowest, highest);
            && (r == Some(NoArea) <==> !IsArea(b))
            && (r == Some(OffTheMap) <==> IsArea(b) && !OnMap(b))
            && (r == Some(BadZooms) <==> IsArea(b) && OnMap(b) && !IsZoomRange(minZoom, maxZoom))
            && (r == Some(OutsideZoomLimits)
                <==> IsArea(b) && OnMap(b) && IsZoomRange(minZoom, maxZoom) && !(lowest <= minZoom && maxZoom <= highest))
            && (r == None <==> IsArea(b) && OnMap(b) && IsZoomRange(minZoom, maxZoom) && lowest <= minZoom && maxZoom <= highest)
            && (r.Some? ==> !r.value.TooManyTiles?)
  {
  }

  /** Past the earlier checks, an area is accepted exactly when its list of tiles is within the limit. */
  method ValidateOfflineSelection(proj: Projection, b: Bounds, minZoom: int, maxZoom: int, lowest: int, highest: int)
    returns (r: Option<Rejection>)
    requires IsMercator(proj)
    ensures var early := BeforeCounting(b, minZoom, maxZoom, lowest, highest);
            if early.Some? then r == early
            else r == None <==> |AllTiles(proj, b, minZoom, maxZoom - minZoom + 1)| <= MAX_TILES
    ensures r.Some? && r.value.TooManyTiles? ==>
              0 <= minZoom <= maxZoom && MAX_TILES < r.value.count <= |AllTiles(proj, b, minZoom, maxZoom - minZoom + 1)|
  {
    r := BeforeCounting(b, minZoom, maxZoom, lowest, highest);
    if r.Some? {
      return;
    }
    r := CheckCount(proj, b, minZoom, maxZoom);
  }

  method CheckCount(proj: Projection, b: Bounds, minZoom: nat, maxZoom: int) returns (r: Option<Rejection>)
    requires IsMercator(proj) && OnMap(b) && minZoom <= maxZoom
    ensures r == None <==> |AllTiles(proj, b, minZoom, maxZoom - minZoom + 1)| <= MAX_TILES
    ensures r.Some? ==> r.value.TooManyTiles? && MAX_TILES < r.value.count <= |AllTiles(proj, b, minZoom, maxZoom - minZoom + 1)|
  {
    ghost var all := maxZoom - minZoom + 1;
    var tileCount, zooms := CountTiles(proj, b, minZoom, maxZoom);
    CountBoundsLength(proj, b, minZoom, zooms, all);
    r := if tileCount > MAX_TILES then Some(TooManyTiles(tileCount)) else None;
  }

  /** The counting loop, which stops once the limit is passed: the count of the zoom levels it got to. */
  method CountTiles(proj: Projection, b: Bounds, minZoom: nat, maxZoom: int) returns (tileCount: int, zooms: nat)
    requires minZoom <= maxZoom
    ensures zooms <= maxZoom - minZoom + 1 && tileCount == TileCount(proj, b, minZoom, zooms)
    ensures tileCount <= MAX_TILES ==> zooms == maxZoom - minZoom + 1
  {
    tileCount, zooms := 0, 0;
    while minZoom + zooms <= maxZoom
      invariant zooms <= maxZoom - minZoom + 1 && tileCount == TileCount(proj, b, minZoom, zooms)
    {
      tileCount := tileCount + LevelCount(proj, b, minZoom + zooms);
      zooms := zooms + 1;
      if tileCount > MAX_TILES {
        break;
      }
    }
  }
}
