/** The features cut into or added around the layer stack: port openings,
    the limiter, the transformer limbs with their detector spheres, the
    bounding box, and the stack with its cuts applied. */
module Features {
  import opened Outcomes
  import opened Parameters
  import opened Solids
  import opened LayerStack
  import opened DivertorBuild

  /** `opening`: a port cutter `gap` smaller than the port in each dimension,
      one and a half stack-thicknesses deep, starting a tenth of the stack
      thickness outside the containment's outer surface on the -x side. */
  function Opening(p: Parameters, gap: real): Prism {
    var depth := OuterSum(p);
    Prism(p.ports.ySide - gap, p.ports.zSide - gap, depth + depth * 0.5,
          -p.containment.outerRadius - depth * 0.1)
  }

  /** The angle of copy `i` of `n` equally spaced copies, as the ports and
      sphere pairs compute it: `i*360/n`. */
  function SpacedAngle(i: int, n: int): real
    requires n != 0
  {
    (i * 360) as real / n as real
  }

  /** A cutter and its copies turned clockwise (seen from above) by `i*360/n`
      for `i` in `1 .. n-1`, as the loop over `range(1, n)` builds them;
      the copies are unioned in the source. */
  function PortArray(cutter: Prism, n: int): seq<Placed<Prism>> {
    var m := if n > 1 then n else 1;
    seq(m, i requires 0 <= i < m => Placed(cutter, PortTurns(i, n)))
  }

  /** The turn of copy `i`: none for the first, `i*360/n` clockwise for the rest. */
  function PortTurns(i: int, n: int): seq<Turn> {
    if i <= 0 || n == 0 then [] else [Turn(Down, SpacedAngle(i, n))]
  }

  /** The clockwise angle, seen from above, by which a placement turns its solid. */
  function Bearing<S>(pl: Placed<S>): real {
    -TotalCcw(pl.turns)
  }

  /** `openings`: the port cutters, without a gap. */
  function Openings(p: Parameters): seq<Placed<Prism>> {
    PortArray(Opening(p, 0.0), p.ports.nrPorts)
  }

  /** `limiter_firstwall_openings`: the port cutters shrunk by the limiter gap. */
  function LimiterOpenings(p: Parameters): seq<Placed<Prism>> {
    PortArray(Opening(p, p.limiter.gap), p.ports.nrPorts)
  }

  lemma SpacedAngleOrder(i: int, j: int, n: int)
    requires n > 0 && i < j
    ensures SpacedAngle(i, n) < SpacedAngle(j, n)
    ensures SpacedAngle(j, n) - SpacedAngle(i, n) == SpacedAngle(j - i, n)
  {
    var a, b, d := (i * 360) as real, (j * 360) as real, n as real;
    assert a / d * d == a && b / d * d == b;
    assert (b - a) / d * d == b - a;
    assert (b / d - a / d) * d == b - a;
  }

  lemma FullTurn(n: int)
    requires n > 0
    ensures SpacedAngle(n, n) == 360.0
    ensures SpacedAngle(1, n) == 360.0 / n as real
  {
    var d := n as real;
    assert (n * 360) as real == d * 360.0;
    assert d * 360.0 / d == 360.0;
  }

  /** Copy `i` of `n` lies within one turn, one spacing after copy `i - 1`. */
  lemma SpacedAngleStep(i: int, n: int)
    requires 0 <= i < n
    ensures 0.0 <= SpacedAngle(i, n) < 360.0
    ensures SpacedAngle(i + 1, n) - SpacedAngle(i, n) == 360.0 / n as real
  {
    if i > 0 {
      SpacedAngleOrder(0, i, n);
    }
    SpacedAngleOrder(i, n, n);
    SpacedAngleOrder(i, i + 1, n);
    FullTurn(n);
  }

  lemma PortArrayShape(cutter: Prism, n: int)
    ensures n <= 1 ==> PortArray(cutter, n) == [Placed(cutter, [])]
    ensures |PortArray(cutter, n)| == if n > 1 then n else 1
    ensures forall i :: 0 <= i < |PortArray(cutter, n)| ==> PortArray(cutter, n)[i].solid == cutter
  {
  }

  lemma PortBearing(cutter: Prism, n: int, i: int)
    requires 0 <= i < n
    ensures |PortArray(cutter, n)| == n
    ensures Bearing(PortArray(cutter, n)[i]) == SpacedAngle(i, n)
    ensures 0.0 <= Bearing(PortArray(cutter, n)[i]) < 360.0
    ensures i + 1 < n ==> Bearing(PortArray(cutter, n)[i + 1]) - Bearing(PortArray(cutter, n)[i]) == 360.0 / n as real
  {
    var a := PortArray(cutter, n);
    assert a[i].turns == PortTurns(i, n);
    if i == 0 {
      assert SpacedAngle(0, n) == 0.0;
    } else {
      assert TotalCcw(a[i].turns) == -SpacedAngle(i, n) + TotalCcw([]);
    }
    if i + 1 < n {
      assert a[i + 1].turns == PortTurns(i + 1, n) == [Turn(Down, SpacedAngle(i + 1, n))];
      assert TotalCcw(a[i + 1].turns) == -SpacedAngle(i + 1, n) + TotalCcw([]);
    }
    SpacedAngleStep(i, n);
  }

  /** There is one cutter when `n` is at most 1, and otherwise `n` cutters
      whose clockwise bearings are `i*360/n` in increasing order from 0,
      all within one turn, each one spacing after the previous, and the
      last one spacing short of a full turn. */
  lemma PortArrayBearings(cutter: Prism, n: int)
    ensures n <= 1 ==> PortArray(cutter, n) == [Placed(cutter, [])]
    ensures |PortArray(cutter, n)| == if n > 1 then n else 1
    ensures forall i :: 0 <= i < |PortArray(cutter, n)| ==> PortArray(cutter, n)[i].solid == cutter
    ensures n > 0 ==> forall i :: 0 <= i < n ==> Bearing(PortArray(cutter, n)[i]) == SpacedAngle(i, n)
    ensures n > 0 ==> forall i :: 0 <= i < n ==> 0.0 <= Bearing(PortArray(cutter, n)[i]) < 360.0
    ensures n > 0 ==> forall i, j :: 0 <= i < j < n ==> Bearing(PortArray(cutter, n)[i]) < Bearing(PortArray(cutter, n)[j])
    ensures n > 0 ==> forall i :: 0 < i < n ==>
      Bearing(PortArray(cutter, n)[i]) - Bearing(PortArray(cutter, n)[i - 1]) == 360.0 / n as real
    ensures n > 0 ==> Bearing(PortArray(cutter, n)[n - 1]) + 360.0 / n as real == 360.0
  {
    PortArrayShape(cutter, n);
    var a := PortArray(cutter, n);
    if n > 0 {
      forall i | 0 <= i < n
        ensures Bearing(a[i]) == SpacedAngle(i, n)
        ensures 0.0 <= Bearing(a[i]) < 360.0
      {
        PortBearing(cutter, n, i);
      }
      forall i, j | 0 <= i < j < n
        ensures Bearing(a[i]) < Bearing(a[j])
      {
        PortBearing(cutter, n, i);
        PortBearing(cutter, n, j);
        SpacedAngleOrder(i, j, n);
      }
      forall i | 0 < i < n
        ensures Bearing(a[i]) - Bearing(a[i - 1]) == 360.0 / n as real
      {
        PortBearing(cutter, n, i - 1);
      }
      PortBearing(cutter, n, n - 1);
      SpacedAngleStep(n - 1, n);
      FullTurn(n);
    }
  }

  /** The port cutter pierces the whole stack on the -x side: it starts
      outside the containment's outer surface and ends inside the cavity
      exactly when the stack has positive thickness. */
  lemma OpeningPiercesStack(p: Parameters, gap: real)
    ensures (Opening(p, gap).xStart < -p.containment.outerRadius
             && -p.containment.outerRadius + OuterSum(p) < XEnd(Opening(p, gap)))
        <==> OuterSum(p) > 0.0
    ensures XEnd(Opening(p, gap)) - (-p.containment.outerRadius + OuterSum(p)) == 0.4 * OuterSum(p)
    ensures Opening(p, gap).ySide == p.ports.ySide - gap && Opening(p, gap).zSide == p.ports.zSide - gap
  {
  }

  /** The limiter's windows sit where the ports are, with the same depth
      and start, and a cross-section `gap` smaller in each direction. */
  lemma LimiterWindowsFollowPorts(p: Parameters)
    ensures |LimiterOpenings(p)| == |Openings(p)|
    ensures forall i :: 0 <= i < |Openings(p)| ==> LimiterOpenings(p)[i].turns == Openings(p)[i].turns
    ensures forall i :: 0 <= i < |Openings(p)| ==>
      && Openings(p)[i].solid.ySide - LimiterOpenings(p)[i].solid.ySide == p.limiter.gap
      && Openings(p)[i].solid.zSide - LimiterOpenings(p)[i].solid.zSide == p.limiter.gap
      && Openings(p)[i].solid.xStart == LimiterOpenings(p)[i].solid.xStart
      && Openings(p)[i].solid.depth == LimiterOpenings(p)[i].solid.depth
  {
    PortArrayBearings(Opening(p, 0.0), p.ports.nrPorts);
    PortArrayBearings(Opening(p, p.limiter.gap), p.ports.nrPorts);
  }

  /** A limiter part: a ring intersected with the union of the windows. */
  datatype LimiterPart = LimiterPart(ring: Torus, windows: seq<Placed<Prism>>)

  /** `limiter_firstwall`: a ring on the cavity's outer wall,
      `firstwall_thickness` thick and as tall as the solenoid. */
  function LimiterFirstwall(p: Parameters): LimiterPart {
    var r := p.containment.outerRadius - OuterSum(p);
    LimiterPart(CreateTorus(r, r + p.limiter.firstwallThickness, p.solenoid.height), LimiterOpenings(p))
  }

  /** `limiter_backwall`: the ring behind the firstwall, `limiter_thickness` thick. */
  function LimiterBackwall(p: Parameters): LimiterPart {
    var r := p.containment.outerRadius - OuterSum(p);
    LimiterPart(CreateTorus(r + p.limiter.firstwallThickness,
                            r + p.limiter.thickness + p.limiter.firstwallThickness,
                            p.solenoid.height),
                LimiterOpenings(p))
  }

  /** The firstwall ring starts at the cavity's outer radius, the backwall
      starts where the firstwall ends, both are centred and as tall as the
      solenoid, each is as thick as its parameter says, and both are cut by
      the same windows. */
  lemma LimiterFlush(p: Parameters)
    ensures LimiterFirstwall(p).ring.innerRadius == Cavity(p).outerRadius
    ensures LimiterBackwall(p).ring.innerRadius == LimiterFirstwall(p).ring.outerRadius
    ensures LimiterFirstwall(p).ring.outerRadius - LimiterFirstwall(p).ring.innerRadius == p.limiter.firstwallThickness
    ensures LimiterBackwall(p).ring.outerRadius - LimiterBackwall(p).ring.innerRadius == p.limiter.thickness
    ensures LimiterFirstwall(p).ring.height == LimiterBackwall(p).ring.height == p.solenoid.height
    ensures LimiterFirstwall(p).ring.zCentre == LimiterBackwall(p).ring.zCentre == 0.0
    ensures LimiterFirstwall(p).windows == LimiterBackwall(p).windows
  {
    ShrunkByClosedForm(BaseTorus(p), p.containment.layers);
  }

  /** `transformer_limbs`: a box at `limb_radius + outer_radius` on the x
      axis; copy `i` in `1 .. n-1` turned counter-clockwise by `360/n*i`;
      then the whole union turned clockwise by 22.5 degrees. */
  function TransformerLimbs(p: Parameters): seq<Placed<Box>> {
    var d := p.limbs.dims;
    var box := Box(d.length, d.width, d.height, Point3(p.limbs.limbRadius + p.containment.outerRadius, 0.0, 0.0));
    var n := p.limbs.nrLimbs;
    var m := if n > 1 then n else 1;
    seq(m, i requires 0 <= i < m => Placed(box, LimbTurns(i, n)))
  }

  /** The turns of limb `i`: `360/n*i` counter-clockwise for all but the
      first, then 22.5 degrees clockwise for all. */
  function LimbTurns(i: int, n: int): seq<Turn> {
    if i <= 0 || n == 0 then [Turn(Down, 22.5)]
    else [Turn(Up, 360.0 / n as real * i as real), Turn(Down, 22.5)]
  }

  /** Two detector spheres beside a limb, one on each side. */
  datatype SpherePair = SpherePair(right: Sphere, left: Sphere)

  /** `sphere_pair`: spheres on the limb's radius, one on each side of the
      untilted limb, a sphere radius beyond half its width. */
  function SpherePairAt(p: Parameters): SpherePair {
    var x := p.limbs.limbRadius + p.containment.outerRadius;
    var r := p.limbs.sphereRadius;
    var y := r + p.limbs.dims.width / 2.0;
    SpherePair(Sphere(Point3(x, y, 0.0), r), Sphere(Point3(x, -y, 0.0), r))
  }

  datatype PlacedPair = PlacedPair(right: Placed<Sphere>, left: Placed<Sphere>)

  /** `sphere_pair_array`: pair `i` in `0 .. n-1` turned clockwise by
      `i*360/n + 22.5`. */
  function SpherePairArray(p: Parameters): seq<PlacedPair> {
    var n := p.limbs.nrLimbs;
    var m := if n > 0 then n else 0;
    var pair := SpherePairAt(p);
    seq(m, i requires 0 <= i < m =>
      var t := [Turn(Down, SpacedAngle(i, n) + 22.5)];
      PlacedPair(Placed(pair.right, t), Placed(pair.left, t)))
  }

  /** Before any turn, each sphere touches one long side face of the limb
      box from outside, level with the box centre. */
  lemma SpheresTouchLimb(p: Parameters)
    ensures var box := TransformerLimbs(p)[0].solid;
            var pair := SpherePairAt(p);
            && pair.right.centre.x == pair.left.centre.x == box.centre.x
            && pair.right.centre.z == pair.left.centre.z == box.centre.z
            && pair.right.centre.y - pair.right.radius == box.centre.y + box.dy / 2.0
            && pair.left.centre.y + pair.left.radius == box.centre.y - box.dy / 2.0
  {
  }

  /** The spacing `i*360/n` equals `360/n*i`, the form the limb loop uses. */
  lemma SpacedAngleProduct(i: int, n: int)
    requires n > 0
    ensures SpacedAngle(i, n) == 360.0 / n as real * i as real
  {
    var d := n as real;
    assert 360.0 / d * d == 360.0;
    assert (i * 360) as real / d * d == (i * 360) as real;
    assert (360.0 / d * i as real) * d == 360.0 * i as real;
  }

  /** The counter-clockwise turn of limb `i`: `i*360/n - 22.5`. */
  lemma LimbTurn(p: Parameters, i: int)
    requires 0 <= i < p.limbs.nrLimbs
    ensures |TransformerLimbs(p)| == p.limbs.nrLimbs
    ensures TotalCcw(TransformerLimbs(p)[i].turns) == SpacedAngle(i, p.limbs.nrLimbs) - 22.5
  {
    var n := p.limbs.nrLimbs;
    var t := TransformerLimbs(p)[i].turns;
    assert t == LimbTurns(i, n);
    if i == 0 {
      assert TotalCcw(t) == -22.5 + TotalCcw([]);
      assert SpacedAngle(0, n) == 0.0;
    } else {
      assert t[1..] == [Turn(Down, 22.5)];
      assert TotalCcw(t[1..]) == -22.5 + TotalCcw([]);
      assert TotalCcw(t) == 360.0 / n as real * i as real - 22.5;
      SpacedAngleProduct(i, n);
    }
  }

  /** The counter-clockwise turn of sphere pair `j`: `-(j*360/n + 22.5)`. */
  lemma SphereTurn(p: Parameters, j: int)
    requires 0 <= j < p.limbs.nrLimbs
    ensures |SpherePairArray(p)| == p.limbs.nrLimbs
    ensures SpherePairArray(p)[j].left.turns == SpherePairArray(p)[j].right.turns
    ensures TotalCcw(SpherePairArray(p)[j].right.turns) == -(SpacedAngle(j, p.limbs.nrLimbs) + 22.5)
  {
    var t := SpherePairArray(p)[j].right.turns;
    assert t == [Turn(Down, SpacedAngle(j, p.limbs.nrLimbs) + 22.5)];
    assert TotalCcw(t) == -(SpacedAngle(j, p.limbs.nrLimbs) + 22.5) + TotalCcw([]);
  }

  lemma LimbsAndSpheresShape(p: Parameters)
    ensures var n := p.limbs.nrLimbs;
            |TransformerLimbs(p)| == (if n > 1 then n else 1) && |SpherePairArray(p)| == (if n > 0 then n else 0)
    ensures forall i :: 0 <= i < |TransformerLimbs(p)| ==> TransformerLimbs(p)[i].solid == TransformerLimbs(p)[0].solid
    ensures forall i :: 0 <= i < |SpherePairArray(p)| ==>
      && SpherePairArray(p)[i].right == Placed(SpherePairAt(p).right, SpherePairArray(p)[i].right.turns)
      && SpherePairArray(p)[i].left == Placed(SpherePairAt(p).left, SpherePairArray(p)[i].right.turns)
  {
  }

  /** The sphere pair that goes with limb `i` of `n`: the limbs are laid out
      counter-clockwise and the pairs clockwise, so pair `n - i`, and pair 0
      for limb 0. */
  function Mirror(i: int, n: int): int {
    if i == 0 then 0 else n - i
  }

  /** Limb `i` and sphere pair `Mirror(i, n)` are turned to the same place:
      the limbs are `n` boxes (one when `n` is at most 1), there are `n`
      sphere pairs (none when `n` is at most 0), and the two turns differ by
      0 or a full turn. */
  lemma SpheresFollowLimbs(p: Parameters)
    ensures var n := p.limbs.nrLimbs;
            |TransformerLimbs(p)| == (if n > 1 then n else 1) && |SpherePairArray(p)| == (if n > 0 then n else 0)
    ensures var n := p.limbs.nrLimbs;
            forall i :: 0 <= i < n ==> 0 <= Mirror(i, n) < n && Mirror(Mirror(i, n), n) == i
    ensures var n := p.limbs.nrLimbs;
            n > 0 ==> forall i :: 0 <= i < n ==>
              TotalCcw(TransformerLimbs(p)[i].turns)
                == TotalCcw(SpherePairArray(p)[Mirror(i, n)].right.turns) + (if i == 0 then 0.0 else 360.0)
  {
    LimbsAndSpheresShape(p);
    var n := p.limbs.nrLimbs;
    if n > 0 {
      forall i | 0 <= i < n
        ensures TotalCcw(TransformerLimbs(p)[i].turns)
                == TotalCcw(SpherePairArray(p)[Mirror(i, n)].right.turns) + (if i == 0 then 0.0 else 360.0)
      {
        LimbMeetsSpheres(p, i);
      }
    }
  }

  lemma LimbMeetsSpheres(p: Parameters, i: int)
    requires 0 <= i < p.limbs.nrLimbs
    ensures |TransformerLimbs(p)| == |SpherePairArray(p)| == p.limbs.nrLimbs
    ensures var n := p.limbs.nrLimbs;
            TotalCcw(TransformerLimbs(p)[i].turns)
              == TotalCcw(SpherePairArray(p)[Mirror(i, n)].right.turns) + (if i == 0 then 0.0 else 360.0)
  {
    var n := p.limbs.nrLimbs;
    var j := Mirror(i, n);
    LimbTurn(p, i);
    SphereTurn(p, j);
    if i == 0 {
      assert j == 0;
    } else {
      assert j == n - i;
      SpacedAngleOrder(j, n, n);
      FullTurn(n);
      assert n - j == i;
      var a, b := SpacedAngle(i, n), SpacedAngle(j, n);
      assert a + b == 360.0;
    }
  }

  /** The bounding box: an outer box minus an inner box, both centred at the origin. */
  datatype BoxShell = BoxShell(outer: Box, inner: Box)

  /** `bounding_box`: a square footprint of `limb_radius + 8*outer_radius`
      and a height of four solenoid heights, wrapped in a wall of
      `bbox_thickness` (half of it on each side). */
  function BoundingBox(p: Parameters): BoxShell {
    var side := p.limbs.limbRadius + p.containment.outerRadius * 8.0;
    var height := p.solenoid.height * 4.0;
    var t := p.solenoid.bboxThickness;
    var o := Point3(0.0, 0.0, 0.0);
    BoxShell(Box(side + t, side + t, height + t, o), Box(side, side, height, o))
  }

  /** The bounding box's wall is equally thick on every face: the outer and
      inner boxes share their centre and differ by the thickness in every
      dimension, so the inner box lies strictly inside when the thickness is
      positive. */
  lemma BoundingBoxUniformWall(p: Parameters)
    ensures BoundingBox(p).outer.centre == BoundingBox(p).inner.centre
    ensures BoundingBox(p).outer.dx - BoundingBox(p).inner.dx == p.solenoid.bboxThickness
    ensures BoundingBox(p).outer.dy - BoundingBox(p).inner.dy == p.solenoid.bboxThickness
    ensures BoundingBox(p).outer.dz - BoundingBox(p).inner.dz == p.solenoid.bboxThickness
    ensures BoundingBox(p).inner.dx == BoundingBox(p).inner.dy
  {
  }

  /** A layer of the stack and the cutters removed from it. */
  datatype CutLayer = CutLayer(shell: Shell, ports: seq<Placed<Prism>>, divertor: Option<Torus>)

  /** `containment`, `containment_with_ports`, `containment_with_divertor`
      and `containment_with_divertor_and_ports`: every layer of the stack,
      with the port cutters and/or the divertor cutter removed from it. */
  function CutContainment(p: Parameters, withPorts: bool, withDivertor: bool): (layers: seq<CutLayer>)
    ensures |layers| == |p.containment.layers|
    ensures forall i :: 0 <= i < |layers| ==>
      && ContainmentLayer(p, i) == Ok(layers[i].shell)
      && layers[i].shell == Shell(Boundary(p, i), Boundary(p, i + 1))
      && layers[i].ports == (if withPorts then Openings(p) else [])
      && layers[i].divertor == (if withDivertor then Some(DivertorCutter(p)) else None)
  {
    var shells := LayerStack.Containment(p);
    seq(|shells|, i requires 0 <= i < |shells| =>
      CutLayer(shells[i], if withPorts then Openings(p) else [],
               if withDivertor then Some(DivertorCutter(p)) else None))
  }

  /** Every port cutter attached to a layer runs through that layer's wall
      on the -x side: with non-negative outer thicknesses and a stack of
      positive thickness, it starts outside the layer's outer surface and
      ends inside the layer's inner surface, with the port's cross-section. */
  lemma CutPortsPierceLayer(p: Parameters, withDivertor: bool, i: nat, k: nat)
    requires forall j :: 0 <= j < |p.containment.layers| ==> p.containment.layers[j].outer >= 0.0
    requires OuterSum(p) > 0.0
    requires i < |p.containment.layers|
    requires k < |CutContainment(p, true, withDivertor)[i].ports|
    ensures var o := CutContainment(p, true, withDivertor)[i].ports[k].solid;
      && o.xStart < -Boundary(p, i).outerRadius
      && -Boundary(p, i + 1).outerRadius < XEnd(o)
      && o.ySide == p.ports.ySide && o.zSide == p.ports.zSide
  {
    var layers := p.containment.layers;
    var n := |layers|;
    PortArrayShape(Opening(p, 0.0), p.ports.nrPorts);
    OpeningPiercesStack(p, 0.0);
    CumulativeMonotone(layers, 0, i, OuterSide);
    CumulativeMonotone(layers, i + 1, n, OuterSide);
    assert layers[..0] == [];
    assert layers[..n] == layers;
  }

  /** The divertor cutter attached to a layer against that layer's floor,
      the band from the bottom of its outer torus up to the bottom of its
      inner torus: the cutter, spanning z from -h_s to 0, runs through the
      whole floor exactly when h_s reaches down past the floor's underside
      and the floor's top is at or below z = 0. */
  lemma CutDivertorPiercesFloor(p: Parameters, withPorts: bool, i: nat)
    requires i < |p.containment.layers|
    ensures CutContainment(p, withPorts, true)[i].divertor.Some?
    ensures var d := CutContainment(p, withPorts, true)[i].divertor.value;
            var before := Cumulative(p.containment.layers[..i], OuterSide);
            var through := Cumulative(p.containment.layers[..i + 1], OuterSide);
      && Bottom(CutContainment(p, withPorts, true)[i].shell.outer) == -p.containment.height / 2.0 + before
      && Bottom(CutContainment(p, withPorts, true)[i].shell.inner) == -p.containment.height / 2.0 + through
      && ((Bottom(d) <= Bottom(Boundary(p, i)) && Bottom(Boundary(p, i + 1)) <= Top(d))
          <==> (p.solenoid.height >= p.containment.height / 2.0 - before && through <= p.containment.height / 2.0))
  {
    DivertorCutterPiercesFloor(p);
    var layer := CutContainment(p, withPorts, true)[i];
    assert layer.shell == Shell(Boundary(p, i), Boundary(p, i + 1));
  }

  /** With non-negative thicknesses, a divertor cutter that fits the cavity
      radially lies within the radial span of every layer's floor. */
  lemma CutDivertorWithinLayer(p: Parameters, withPorts: bool, i: nat)
    requires forall j :: 0 <= j < |p.containment.layers| ==>
      p.containment.layers[j].outer >= 0.0 && p.containment.layers[j].inner >= 0.0
    requires p.divertor.width <= (Cavity(p).outerRadius - Cavity(p).innerRadius) / 2.0
    requires i < |p.containment.layers|
    ensures CutContainment(p, withPorts, true)[i].divertor.Some?
    ensures var d := CutContainment(p, withPorts, true)[i].divertor.value;
      Boundary(p, i).innerRadius <= d.innerRadius && d.outerRadius <= Boundary(p, i).outerRadius
  {
    var layers := p.containment.layers;
    var n := |layers|;
    DivertorCutterFits(p);
    BoundaryIsShrunk(p, n);
    assert layers[..n] == layers;
    CumulativeMonotone(layers, i, n, OuterSide);
    CumulativeMonotone(layers, i, n, InnerSide);
  }
}
