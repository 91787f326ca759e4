/** The divertor: a cutter ring centred between the innermost walls of the
    stack, and the firstwall and backwall rings stacked under the cavity. */
module DivertorBuild {
  import opened Parameters
  import opened Solids
  import opened LayerStack

  /** `centering_of_divertor`: the loop summing both thicknesses over every
      layer, then turned into radii. They are the innermost cavity's inner
      and outer radius. */
  method CentringOfDivertor(p: Parameters) returns (innerSum: real, outerSum: real)
    ensures innerSum == p.solenoid.radius + InnerSum(p) && outerSum == p.containment.outerRadius - OuterSum(p)
    ensures innerSum == Cavity(p).innerRadius && outerSum == Cavity(p).outerRadius
  {
    var layers := p.containment.layers;
    innerSum, outerSum := 0.0, 0.0;
    var i := 0;
    while i < |layers|
      invariant 0 <= i <= |layers|
      invariant innerSum == Cumulative(layers[..i], InnerSide)
      invariant outerSum == Cumulative(layers[..i], OuterSide)
    {
      CumulativeStep(layers, i, InnerSide);
      CumulativeStep(layers, i, OuterSide);
      innerSum := innerSum + layers[i].inner;
      outerSum := outerSum + layers[i].outer;
      i := i + 1;
    }
    assert layers[..i] == layers;
    ShrunkByClosedForm(BaseTorus(p), layers);
    innerSum := innerSum + p.solenoid.radius;
    outerSum := p.containment.outerRadius - outerSum;
  }

  /** `center_point`: halfway between the cavity's inner and outer radius. */
  function Centre(p: Parameters): real {
    (Cavity(p).innerRadius + Cavity(p).outerRadius) / 2.0
  }

  /** `divertor_cutter`: a ring `width` either side of the centre, as tall as
      the solenoid, moved down by half the solenoid height. */
  function DivertorCutter(p: Parameters): Torus {
    var c := Centre(p);
    var w := p.divertor.width;
    var h := p.solenoid.height;
    var t := CreateTorus(c - w, c + w, h);
    t.(zCentre := t.zCentre - h / 2.0)
  }

  /** The rings' shared radii: the cutter's, narrowed by `gap` on each side. */
  function WallRing(p: Parameters, height: real): Torus {
    var c := Centre(p);
    var w := p.divertor.width;
    var g := p.divertor.gap;
    CreateTorus(c - w + g, c + w - g, height)
  }

  /** `divertor_firstwall`. The translation undoes the centring of the ring
      and puts its top where the cavity's floor is. */
  function DivertorFirstwall(p: Parameters): Torus {
    var outerSum := Cavity(p).outerRadius;
    var f := p.divertor.firstwallThickness;
    var t := WallRing(p, f);
    t.(zCentre := t.zCentre - f / 2.0 - p.containment.height / 2.0 - outerSum + p.containment.outerRadius)
  }

  /** `divertor_backwall`: below the firstwall by the firstwall's thickness. */
  function DivertorBackwall(p: Parameters): Torus {
    var outerSum := Cavity(p).outerRadius;
    var f := p.divertor.firstwallThickness;
    var b := p.divertor.thickness;
    var t := WallRing(p, b);
    t.(zCentre := t.zCentre - b / 2.0 - f - p.containment.height / 2.0 - outerSum + p.containment.outerRadius)
  }

  /** The divertor is centred on the cavity: the cutter reaches `width` to
      either side of a radius equidistant from the two innermost walls. */
  lemma DivertorCentred(p: Parameters)
    ensures Centre(p) - Cavity(p).innerRadius == Cavity(p).outerRadius - Centre(p)
    ensures (DivertorCutter(p).innerRadius + DivertorCutter(p).outerRadius) / 2.0 == Centre(p)
    ensures DivertorCutter(p).outerRadius - DivertorCutter(p).innerRadius == 2.0 * p.divertor.width
  {
  }

  /** The walls lie radially within the cutter exactly when the gap is not
      negative, and both walls have the same radii. */
  lemma DivertorWallsInsideCutter(p: Parameters)
    ensures DivertorFirstwall(p).innerRadius == DivertorBackwall(p).innerRadius
    ensures DivertorFirstwall(p).outerRadius == DivertorBackwall(p).outerRadius
    ensures (DivertorCutter(p).innerRadius <= DivertorFirstwall(p).innerRadius
             && DivertorFirstwall(p).outerRadius <= DivertorCutter(p).outerRadius) <==> p.divertor.gap >= 0.0
  {
  }

  /** The cutter stays within the cavity's radial span exactly when its
      half-width is at most half the span (a configuration the builder does
      not check for). */
  lemma DivertorCutterFits(p: Parameters)
    ensures (Cavity(p).innerRadius <= DivertorCutter(p).innerRadius
             && DivertorCutter(p).outerRadius <= Cavity(p).outerRadius)
        <==> p.divertor.width <= (Cavity(p).outerRadius - Cavity(p).innerRadius) / 2.0
  {
  }

  /** Vertically the firstwall's top is the cavity's floor and the backwall's
      top is the firstwall's bottom: the two rings stack without a gap under
      the stack's innermost surface. */
  lemma DivertorStacked(p: Parameters)
    ensures Top(DivertorFirstwall(p)) == Bottom(Cavity(p))
    ensures Top(DivertorBackwall(p)) == Bottom(DivertorFirstwall(p))
    ensures Top(DivertorFirstwall(p)) - Bottom(DivertorFirstwall(p)) == p.divertor.firstwallThickness
    ensures Top(DivertorBackwall(p)) - Bottom(DivertorBackwall(p)) == p.divertor.thickness
  {
    ShrunkByClosedForm(BaseTorus(p), p.containment.layers);
  }

  /** The cutter spans z from minus the solenoid height up to 0, so it runs
      through the whole bottom wall of the stack, from the cavity floor to
      the containment's underside, exactly when the solenoid is at least half
      as tall as the containment and the stack is no thicker than that half. */
  lemma DivertorCutterPiercesFloor(p: Parameters)
    ensures Top(DivertorCutter(p)) == 0.0 && Bottom(DivertorCutter(p)) == -p.solenoid.height
    ensures (Bottom(DivertorCutter(p)) <= -p.containment.height / 2.0 && Bottom(Cavity(p)) <= Top(DivertorCutter(p)))
        <==> (p.solenoid.height >= p.containment.height / 2.0 && OuterSum(p) <= p.containment.height / 2.0)
  {
    ShrunkByClosedForm(BaseTorus(p), p.containment.layers);
  }
}
