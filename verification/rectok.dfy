/** The older builder in build.py: layers described by revolved polyline
    profiles, a list chunker for the configuration rows, the port-shape
    dispatch and the plasma ring. */
module Rectok {
  import opened Outcomes
  import opened Python
  import opened Parameters
  import opened Solids
  import LayerStack
  import Plasma

  // ------------------------------------------------------ thickness columns

  /** A row of the layer table: columns 1 to 4 of a chunk, the upper, lower,
      outer and inner thickness of a layer. */
  datatype Row = Row(upper: real, lower: real, outer: real, inner: real)

  datatype Column = Upper | Lower | Outer | Inner

  function Cell(r: Row, c: Column): real {
    match c
    case Upper => r.upper
    case Lower => r.lower
    case Outer => r.outer
    case Inner => r.inner
  }

  /** `containment_rest[i][1..4]` read from a chunk. */
  function RowOf(chunk: seq<real>): Result<Row> {
    var upper :- Index(chunk, 1);
    var lower :- Index(chunk, 2);
    var outer :- Index(chunk, 3);
    var inner :- Index(chunk, 4);
    Ok(Row(upper, lower, outer, inner))
  }

  /** A row can be read exactly from a chunk of at least five values, and
      then holds the chunk's values 1 to 4. */
  lemma RowOfChunk(chunk: seq<real>)
    ensures RowOf(chunk).Ok? <==> |chunk| >= 5
    ensures |chunk| >= 5 ==> RowOf(chunk) == Ok(Row(chunk[1], chunk[2], chunk[3], chunk[4]))
  {
  }

  /** Sum of one column over the given rows. */
  function ColumnSum(rows: seq<Row>, c: Column): real
    decreases |rows|
  {
    if |rows| == 0 then 0.0 else ColumnSum(rows[..|rows| - 1], c) + Cell(rows[|rows| - 1], c)
  }

  /** The four totals of `SumOfThicknesess`. */
  datatype Sums = Sums(outer: real, upper: real, lower: real, inner: real)

  /** `SumOfThicknesess`: each column summed over rows `0 .. n-1` in its own
      loop, the outer column first; a table shorter than `n` raises
      IndexError at its end in that first loop. */
  function TableSums(rows: seq<Row>, n: int): (s: Result<Sums>)
    ensures s.Ok? <==> n <= |rows|
    ensures s.Err? ==> s.error == IndexError(|rows|)
  {
    if n > |rows| then Err(IndexError(|rows|))
    else
      var k := if n > 0 then n else 0;
      Ok(Sums(ColumnSum(rows[..k], Outer), ColumnSum(rows[..k], Upper),
              ColumnSum(rows[..k], Lower), ColumnSum(rows[..k], Inner)))
  }

  lemma ColumnSumStep(rows: seq<Row>, i: nat, c: Column)
    requires i < |rows|
    ensures ColumnSum(rows[..i + 1], c) == ColumnSum(rows[..i], c) + Cell(rows[i], c)
  {
    assert rows[..i + 1][..i] == rows[..i];
  }

  /** The position of a column within a chunk. */
  function Slot(c: Column): nat {
    match c
    case Upper => 1
    case Lower => 2
    case Outer => 3
    case Inner => 4
  }

  /** One loop of `SumOfThicknesess` on the raw table: `chunks[i][col]`
      added for `i` in `0 .. k-1`, stopping at the first row that is
      missing (IndexError at the table's length) or too short to hold the
      column (IndexError at the column). */
  function ColumnOf(chunks: seq<seq<real>>, k: nat, col: nat): Result<real>
    decreases k
  {
    if k == 0 then Ok(0.0)
    else
      var before :- ColumnOf(chunks, k - 1, col);
      var x :- if k - 1 < |chunks| then Index(chunks[k - 1], col) else Err(IndexError(k - 1));
      Ok(before + x)
  }

  /** `SumOfThicknesess` on the raw table of chunks: four loops over
      `range(nr_layers)`, outer column 3 first, then upper 1, lower 2 and
      inner 4; the first failing loop decides the error. */
  function ChunkSums(chunks: seq<seq<real>>, n: int): Result<Sums> {
    var k := if n > 0 then n else 0;
    var outer :- ColumnOf(chunks, k, Slot(Outer));
    var upper :- ColumnOf(chunks, k, Slot(Upper));
    var lower :- ColumnOf(chunks, k, Slot(Lower));
    var inner :- ColumnOf(chunks, k, Slot(Inner));
    Ok(Sums(outer, upper, lower, inner))
  }

  /** The rows of the first `k` chunks, each read by `RowOf`. */
  function RowsOfChunks(chunks: seq<seq<real>>, k: nat): (rows: seq<Row>)
    requires k <= |chunks|
    requires forall i :: 0 <= i < k ==> |chunks[i]| >= 5
    ensures |rows| == k
    ensures forall i :: 0 <= i < k ==> Ok(rows[i]) == RowOf(chunks[i])
  {
    seq(k, i requires 0 <= i < k => Row(chunks[i][1], chunks[i][2], chunks[i][3], chunks[i][4]))
  }

  /** A column loop succeeds exactly when each of the first `k` rows exists
      and holds the column; a short row met first raises IndexError at the
      column, a table that runs out first raises it at the table's length. */
  lemma {:induction false} ColumnOfOutcome(chunks: seq<seq<real>>, k: nat, col: nat)
    ensures ColumnOf(chunks, k, col).Ok? <==> k <= |chunks| && forall i :: 0 <= i < k ==> col < |chunks[i]|
    ensures (exists i :: 0 <= i < k && i < |chunks| && |chunks[i]| <= col) ==> ColumnOf(chunks, k, col) == Err(IndexError(col))
    ensures k > |chunks| && (forall i :: 0 <= i < |chunks| ==> col < |chunks[i]|) ==> ColumnOf(chunks, k, col) == Err(IndexError(|chunks|))
    decreases k
  {
    if k > 0 {
      ColumnOfOutcome(chunks, k - 1, col);
      if k - 1 < |chunks| && |chunks[k - 1]| <= col && ColumnOf(chunks, k - 1, col).Ok? {
        assert Index(chunks[k - 1], col) == Err(IndexError(col));
      }
      if k > |chunks| && (forall i :: 0 <= i < |chunks| ==> col < |chunks[i]|) && k - 1 > |chunks| {
        assert ColumnOf(chunks, k - 1, col) == Err(IndexError(|chunks|));
      }
    }
  }

  /** A successful column loop yields the column sum of the rows read from
      the chunks. */
  lemma {:induction false} ColumnOfRows(chunks: seq<seq<real>>, k: nat, c: Column)
    requires k <= |chunks|
    requires forall i :: 0 <= i < k ==> |chunks[i]| >= 5
    ensures ColumnOf(chunks, k, Slot(c)) == Ok(ColumnSum(RowsOfChunks(chunks, k), c))
    decreases k
  {
    if k > 0 {
      ColumnOfRows(chunks, k - 1, c);
      assert RowsOfChunks(chunks, k)[..k - 1] == RowsOfChunks(chunks, k - 1);
      RowOfChunk(chunks[k - 1]);
    }
  }

  /** The raw-table sums succeed exactly when the table has at least
      `nr_layers` rows and each of them has five values, and then agree with
      the row-level sums; otherwise the error is the one the first failing
      loop raises. */
  lemma ChunkSumsOutcome(chunks: seq<seq<real>>, n: int)
    ensures ChunkSums(chunks, n).Ok? <==> n <= |chunks| && forall i :: 0 <= i < n ==> |chunks[i]| >= 5
    ensures ChunkSums(chunks, n).Ok? ==>
      var k := if n > 0 then n else 0;
      ChunkSums(chunks, n) == TableSums(RowsOfChunks(chunks, k), n)
    ensures (exists i :: 0 <= i < n && i < |chunks| && |chunks[i]| < 4) ==> ChunkSums(chunks, n) == Err(IndexError(3))
    ensures n > |chunks| && (forall i :: 0 <= i < |chunks| ==> |chunks[i]| >= 4) ==> ChunkSums(chunks, n) == Err(IndexError(|chunks|))
    ensures n <= |chunks| && (forall i :: 0 <= i < n ==> |chunks[i]| >= 4) && (exists i :: 0 <= i < n && |chunks[i]| == 4)
      ==> ChunkSums(chunks, n) == Err(IndexError(4))
  {
    var k := if n > 0 then n else 0;
    ColumnOfOutcome(chunks, k, 3);
    ColumnOfOutcome(chunks, k, 1);
    ColumnOfOutcome(chunks, k, 2);
    ColumnOfOutcome(chunks, k, 4);
    if k <= |chunks| && forall i :: 0 <= i < k ==> |chunks[i]| >= 5 {
      ColumnOfRows(chunks, k, Outer);
      ColumnOfRows(chunks, k, Upper);
      ColumnOfRows(chunks, k, Lower);
      ColumnOfRows(chunks, k, Inner);
      assert RowsOfChunks(chunks, k)[..k] == RowsOfChunks(chunks, k);
    }
  }

  /** The layer table built from the configuration layers, one row per
      layer with the single outer thickness used above, below and outside. */
  function RowsOfLayers(layers: seq<Layer>): seq<Row> {
    seq(|layers|, k requires 0 <= k < |layers| => Row(layers[k].outer, layers[k].outer, layers[k].outer, layers[k].inner))
  }

  lemma {:induction false} ColumnSumOfLayers(layers: seq<Layer>)
    ensures ColumnSum(RowsOfLayers(layers), Outer) == Cumulative(layers, OuterSide)
    ensures ColumnSum(RowsOfLayers(layers), Upper) == Cumulative(layers, OuterSide)
    ensures ColumnSum(RowsOfLayers(layers), Lower) == Cumulative(layers, OuterSide)
    ensures ColumnSum(RowsOfLayers(layers), Inner) == Cumulative(layers, InnerSide)
    decreases |layers|
  {
    if |layers| > 0 {
      var front := layers[..|layers| - 1];
      ColumnSumOfLayers(front);
      assert RowsOfLayers(layers)[..|layers| - 1] == RowsOfLayers(front);
    }
  }

  // -------------------------------------------------------------- profiles

  /** A point of a profile in the x-z half plane that is revolved about z. */
  datatype Point2 = Point2(x: real, z: real)

  /** The profiles of one layer: the revolved outline and the outline cut from it. */
  datatype Profiles = Profiles(outer: seq<Point2>, inner: seq<Point2>)

  /** The source's five points of a rectangle: top right, bottom right,
      bottom left, top left, and top right again. */
  function Rectangle(left: real, right: real, bottom: real, top: real): seq<Point2> {
    [Point2(right, top), Point2(right, bottom), Point2(left, bottom), Point2(left, top), Point2(right, top)]
  }

  /** `containment_constructor(index)`, as written. The running sums cover
      rows `0 .. index-1`; the width `sirina` and height `visina` shrink by
      the sums of both horizontal and both vertical columns; the outer
      outline is `visina` tall and centred, and the inner outline is that
      outline inset by the row's own four thicknesses. An index past the
      table raises IndexError, and a negative one counts from the end with
      no running sums. */
  function ContainmentProfiles(rows: seq<Row>, outerRadius: real, height: real, solenoidRadius: real, index: int): Result<Profiles> {
    var k := if index > 0 then index else 0;
    if k > |rows| then Err(IndexError(|rows|))
    else
      var before := rows[..k];
      var upper, lower := ColumnSum(before, Upper), ColumnSum(before, Lower);
      var outer, inner := ColumnSum(before, Outer), ColumnSum(before, Inner);
      var horizontal := outer + inner;
      var vertical := upper + lower;
      var row :- RowAt(rows, index);
      var sirina := outerRadius - solenoidRadius - horizontal;
      var visina := height - vertical;
      var innerR := solenoidRadius + inner;
      var pointsOuter := [
        Point2(sirina / 2.0 + innerR + sirina / 2.0, visina / 2.0),
        Point2(sirina / 2.0 + innerR + sirina / 2.0, -visina / 2.0),
        Point2(-sirina / 2.0 + innerR + sirina / 2.0, -visina / 2.0),
        Point2(-sirina / 2.0 + innerR + sirina / 2.0, visina / 2.0),
        Point2(sirina / 2.0 + innerR + sirina / 2.0, visina / 2.0)];
      var pointsInner := [
        Point2(sirina / 2.0 - row.outer + innerR + sirina / 2.0, visina / 2.0 - row.upper),
        Point2(sirina / 2.0 - row.outer + innerR + sirina / 2.0, -visina / 2.0 + row.lower),
        Point2(-sirina / 2.0 + row.inner + innerR + sirina / 2.0, -visina / 2.0 + row.lower),
        Point2(-sirina / 2.0 + row.inner + innerR + sirina / 2.0, visina / 2.0 - row.upper),
        Point2(sirina / 2.0 - row.outer + innerR + sirina / 2.0, visina / 2.0 - row.upper)];
      Ok(Profiles(pointsOuter, pointsInner))
  }

  /** `containment_rest[index]` with Python's negative indices. */
  function RowAt(rows: seq<Row>, index: int): Result<Row> {
    if 0 <= index < |rows| then Ok(rows[index])
    else if -|rows| <= index < 0 then Ok(rows[|rows| + index])
    else Err(IndexError(index))
  }

  /** For a layer in the table, both outlines are closed rectangles; the
      outer one reaches from the solenoid radius plus the inner thicknesses
      of the layers inside it out to the outer radius less their outer
      thicknesses, and is centred vertically with the height less their
      upper and lower thicknesses; the inner one is the outer one inset by
      the layer's own outer, inner, upper and lower thickness on the right,
      left, top and bottom. An index past the table fails. */
  lemma ProfilesShape(rows: seq<Row>, outerRadius: real, height: real, solenoidRadius: real, index: int)
    ensures ContainmentProfiles(rows, outerRadius, height, solenoidRadius, index).Ok? <==> -|rows| <= index < |rows|
    ensures 0 <= index < |rows| ==>
      var pr := ContainmentProfiles(rows, outerRadius, height, solenoidRadius, index).value;
      var before, row := rows[..index], rows[index];
      var left := solenoidRadius + ColumnSum(before, Inner);
      var right := outerRadius - ColumnSum(before, Outer);
      var half := (height - ColumnSum(before, Upper) - ColumnSum(before, Lower)) / 2.0;
      && pr.outer == Rectangle(left, right, -half, half)
      && pr.inner == Rectangle(left + row.inner, right - row.outer, -half + row.lower, half - row.upper)
      && pr.outer[0] == pr.outer[4] && pr.inner[0] == pr.inner[4]
  {
  }

  /** Radially the layers nest: the inside of layer `i`'s outline is at the
      same radii as the outside of layer `i + 1`'s. */
  lemma ProfilesNestRadially(rows: seq<Row>, outerRadius: real, height: real, solenoidRadius: real, i: nat)
    requires i + 1 < |rows|
    ensures var a := ContainmentProfiles(rows, outerRadius, height, solenoidRadius, i).value;
            var b := ContainmentProfiles(rows, outerRadius, height, solenoidRadius, i + 1).value;
            forall k :: 0 <= k < 5 ==> a.inner[k].x == b.outer[k].x
  {
    ProfilesShape(rows, outerRadius, height, solenoidRadius, i);
    ProfilesShape(rows, outerRadius, height, solenoidRadius, i + 1);
    ColumnSumStep(rows, i, Inner);
    ColumnSumStep(rows, i, Outer);
  }

  /** Vertically they nest only for a layer as thick above as below: the
      outer outline of layer `i + 1` is centred, but the inner outline of
      layer `i` is inset by `upper` at the top and `lower` at the bottom, so
      the two tops differ by half the difference. */
  lemma ProfilesNestVerticallyOnlyWhenSymmetric(rows: seq<Row>, outerRadius: real, height: real, solenoidRadius: real, i: nat)
    requires i + 1 < |rows|
    ensures var a := ContainmentProfiles(rows, outerRadius, height, solenoidRadius, i).value;
            var b := ContainmentProfiles(rows, outerRadius, height, solenoidRadius, i + 1).value;
            && a.inner[0].z - b.outer[0].z == (rows[i].lower - rows[i].upper) / 2.0
            && (a.inner == b.outer <==> rows[i].upper == rows[i].lower)
  {
    ProfilesShape(rows, outerRadius, height, solenoidRadius, i);
    ProfilesShape(rows, outerRadius, height, solenoidRadius, i + 1);
    ColumnSumStep(rows, i, Inner);
    ColumnSumStep(rows, i, Outer);
    ColumnSumStep(rows, i, Upper);
    ColumnSumStep(rows, i, Lower);
    var a := ContainmentProfiles(rows, outerRadius, height, solenoidRadius, i).value;
    var b := ContainmentProfiles(rows, outerRadius, height, solenoidRadius, i + 1).value;
    if a.inner == b.outer {
      assert a.inner[0].z == b.outer[0].z;
    }
  }

  /** A two-layer table whose first layer is 20 thick above and 10 below.
      Layer 0's solid spans z 280 to 300 at the top and -300 to -290 at the
      bottom, but layer 1's outer outline runs from -285 to 285: at the top
      it reaches 5 units into layer 0 (an overlap), and at the bottom it
      stops 5 units short of layer 0's cavity floor (a gap). */
  lemma ProfilesGapExample()
    ensures var rows := [Row(20.0, 10.0, 15.0, 5.0), Row(10.0, 10.0, 10.0, 5.0)];
            var a := ContainmentProfiles(rows, 500.0, 600.0, 100.0, 0).value;
            var b := ContainmentProfiles(rows, 500.0, 600.0, 100.0, 1).value;
            && a.outer[0].z == 300.0 && a.inner[0].z == 280.0 && b.outer[0].z == 285.0
            && a.outer[1].z == -300.0 && a.inner[1].z == -290.0 && b.outer[1].z == -285.0
  {
    var rows := [Row(20.0, 10.0, 15.0, 5.0), Row(10.0, 10.0, 10.0, 5.0)];
    assert rows[..1] == [rows[0]] && rows[..1][..0] == [];
  }

  /** The intended outer outline of layer `index`: the containment's extent
      less the thicknesses of the layers outside it on each of its four
      sides, top and bottom separately. */
  function StackedProfiles(rows: seq<Row>, outerRadius: real, height: real, solenoidRadius: real, index: nat): Profiles
    requires index < |rows|
  {
    var before, row := rows[..index], rows[index];
    var left := solenoidRadius + ColumnSum(before, Inner);
    var right := outerRadius - ColumnSum(before, Outer);
    var bottom := -height / 2.0 + ColumnSum(before, Lower);
    var top := height / 2.0 - ColumnSum(before, Upper);
    Profiles(Rectangle(left, right, bottom, top),
             Rectangle(left + row.inner, right - row.outer, bottom + row.lower, top - row.upper))
  }

  /** With the outlines stacked, the inside of every layer is exactly the
      outside of the next, and each layer is still its outer outline inset
      by its own thicknesses. */
  lemma StackedProfilesNest(rows: seq<Row>, outerRadius: real, height: real, solenoidRadius: real, i: nat)
    requires i + 1 < |rows|
    ensures StackedProfiles(rows, outerRadius, height, solenoidRadius, i).inner
         == StackedProfiles(rows, outerRadius, height, solenoidRadius, i + 1).outer
  {
    ColumnSumStep(rows, i, Inner);
    ColumnSumStep(rows, i, Outer);
    ColumnSumStep(rows, i, Upper);
    ColumnSumStep(rows, i, Lower);
  }

  /** When the layers outside a layer are each as thick above as below, the
      stacked outlines are the ones the code builds. */
  lemma {:induction false} StackedAgreesWhenSymmetric(rows: seq<Row>, outerRadius: real, height: real, solenoidRadius: real, index: nat)
    requires index < |rows|
    requires forall k :: 0 <= k < index ==> rows[k].upper == rows[k].lower
    ensures ContainmentProfiles(rows, outerRadius, height, solenoidRadius, index)
         == Ok(StackedProfiles(rows, outerRadius, height, solenoidRadius, index))
  {
    UpperEqualsLower(rows, index);
    ProfilesShape(rows, outerRadius, height, solenoidRadius, index);
  }

  lemma {:induction false} UpperEqualsLower(rows: seq<Row>, n: nat)
    requires n <= |rows|
    requires forall k :: 0 <= k < n ==> rows[k].upper == rows[k].lower
    ensures ColumnSum(rows[..n], Upper) == ColumnSum(rows[..n], Lower)
    decreases n
  {
    if n > 0 {
      UpperEqualsLower(rows, n - 1);
      ColumnSumStep(rows, n - 1, Upper);
      ColumnSumStep(rows, n - 1, Lower);
    }
  }

  // ------------------------------------------------------------------ ports

  /** The cross-section of a port box, across the port (y) and vertically (z). */
  datatype CrossSection = CrossSection(y: real, z: real)

  /** The port-shape dispatch of `Rectok.openings`: a square port is `side`
      by `side`, a rectangle is `longer` in the named direction, and any
      other shape raises. */
  function PortCrossSection(shape: string, side: real, longer: real): (r: Result<CrossSection>)
    ensures r.Ok? <==> shape in ["square", "rectangle_z", "rectangle_y"]
    ensures r.Err? ==> r.error == UnknownShape(shape)
    ensures r.Ok? ==> (r.value.y == side || r.value.z == side)
    ensures shape == "rectangle_y" ==> r == Ok(CrossSection(longer, side))
    ensures shape == "rectangle_z" ==> r == Ok(CrossSection(side, longer))
    ensures shape == "square" ==> r == Ok(CrossSection(side, side))
  {
    if shape == "square" then Ok(CrossSection(side, side))
    else if shape == "rectangle_z" then Ok(CrossSection(side, longer))
    else if shape == "rectangle_y" then Ok(CrossSection(longer, side))
    else Err(UnknownShape(shape))
  }

  // ----------------------------------------------------------------- plasma

  /** `Rectok.plasma_source(distance)`: a centred ring inside the whole
      stack, set back by the distance from each of its four walls. */
  function RectokPlasma(s: Sums, outerRadius: real, height: real, solenoidRadius: real, distance: real): Torus {
    CreateTorus(solenoidRadius + s.inner + distance,
                outerRadius - s.outer - distance,
                height - s.lower - s.upper - 2.0 * distance)
  }

  /** The plasma of build.py keeps the distance from the innermost
      layer's cavity (as the stacked outlines bound it) radially and is
      twice the distance less tall, but it is centred at z = 0 while that
      cavity is centred half the difference of the lower and upper totals
      higher. */
  lemma RectokPlasmaClearance(rows: seq<Row>, outerRadius: real, height: real, solenoidRadius: real, distance: real)
    requires |rows| > 0
    ensures TableSums(rows, |rows|).Ok?
    ensures var s := TableSums(rows, |rows|).value;
            var t := RectokPlasma(s, outerRadius, height, solenoidRadius, distance);
            var cavity := StackedProfiles(rows, outerRadius, height, solenoidRadius, |rows| - 1).inner;
            && t.innerRadius - cavity[2].x == distance
            && cavity[0].x - t.outerRadius == distance
            && (cavity[0].z - cavity[1].z) - t.height == 2.0 * distance
            && (cavity[0].z + cavity[1].z) / 2.0 - t.zCentre == (s.lower - s.upper) / 2.0
  {
    var n := |rows| - 1;
    ColumnSumStep(rows, n, Inner);
    ColumnSumStep(rows, n, Outer);
    ColumnSumStep(rows, n, Upper);
    ColumnSumStep(rows, n, Lower);
    assert rows[..n + 1] == rows;
  }

  /** With one thickness above, below and outside each layer, the build.py
      plasma is the plasma of the STOK builder. */
  lemma RectokPlasmaAgrees(p: Parameters)
    ensures var rows := RowsOfLayers(p.containment.layers);
            TableSums(rows, |rows|).Ok?
            && RectokPlasma(TableSums(rows, |rows|).value, p.containment.outerRadius, p.containment.height,
                            p.solenoid.radius, p.containment.distanceFromPlasma)
               == Plasma.PlasmaSource(p)
  {
    var rows := RowsOfLayers(p.containment.layers);
    ColumnSumOfLayers(p.containment.layers);
    assert rows[..|rows|] == rows;
    Plasma.PlasmaClearance(p);
    Plasma.PlasmaClosedForm(p);
  }
}
