/** The plasma source: a ring inside the innermost cavity, set back from
    its walls by `distance_from_plasma`. */
module Plasma {
  import opened Outcomes
  import opened Parameters
  import opened Solids
  import opened LayerStack

  /** `plasma_source` as the code computes it: the loop shrinks the base ring
      by every layer, reaching the cavity, and the final ring is then shrunk
      by the last layer (`layers[-1]`) a second time before the distance is
      applied. With no layers, `layers[-1]` raises IndexError. */
  function PlasmaSourceAsWritten(p: Parameters): Result<Torus> {
    var layers := p.containment.layers;
    var d := p.containment.distanceFromPlasma;
    if |layers| == 0 then Err(IndexError(-1))
    else
      var t := Cavity(p);
      var last := layers[|layers| - 1];
      Ok(CreateTorus(t.innerRadius + last.inner + d,
                     t.outerRadius - last.outer - d,
                     t.height - last.outer * 2.0 - d * 2.0))
  }

  /** The plasma source as `plasma_source`'s docstring describes it (the
      distance between the plasma source and the first wall): the cavity set
      back by `distance` on every side. */
  function PlasmaSource(p: Parameters): Torus {
    var t := Cavity(p);
    var d := p.containment.distanceFromPlasma;
    CreateTorus(t.innerRadius + d, t.outerRadius - d, t.height - d * 2.0)
  }

  /** The plasma keeps exactly `distance_from_plasma` from each of the
      cavity's four walls, so it lies inside the cavity when the distance is
      not negative. */
  lemma PlasmaClearance(p: Parameters)
    ensures var c, s := Cavity(p), PlasmaSource(p);
            && s.innerRadius - c.innerRadius == p.containment.distanceFromPlasma
            && c.outerRadius - s.outerRadius == p.containment.distanceFromPlasma
            && Top(c) - Top(s) == p.containment.distanceFromPlasma
            && Bottom(s) - Bottom(c) == p.containment.distanceFromPlasma
    ensures p.containment.distanceFromPlasma >= 0.0 ==> RingWithin(PlasmaSource(p), Cavity(p))
  {
    ShrunkByClosedForm(BaseTorus(p), p.containment.layers);
  }

  /** The cavity the plasma sits in is the inside of the innermost layer. */
  lemma PlasmaInInnermostLayer(p: Parameters)
    requires |p.containment.layers| > 0
    ensures var k := |p.containment.layers| - 1;
            ContainmentLayer(p, k).Ok? && ContainmentLayer(p, k).value.inner == Cavity(p)
  {
    var k := |p.containment.layers| - 1;
    LayerBounds(p, k);
    BoundaryIsShrunk(p, k + 1);
    assert p.containment.layers[..k + 1] == p.containment.layers;
  }

  /** The code's plasma is the intended one shrunk once more by the last
      layer, so the two agree exactly when the last layer has no thickness;
      with no layers the code fails where the intended plasma is the base
      ring set back by the distance. */
  lemma PlasmaDoubleCountsLastLayer(p: Parameters)
    ensures |p.containment.layers| == 0 <==> PlasmaSourceAsWritten(p).Err?
    ensures |p.containment.layers| > 0 ==>
      var last := p.containment.layers[|p.containment.layers| - 1];
      && PlasmaSourceAsWritten(p) == Ok(Shrink(PlasmaSource(p), last))
      && (PlasmaSourceAsWritten(p) == Ok(PlasmaSource(p)) <==> last == Layer(0.0, 0.0))
  {
    ShrunkByClosedForm(BaseTorus(p), p.containment.layers);
  }

  /** A concrete configuration: outer radius 500, height 600, solenoid
      radius 100, layers (20, 10) and (15, 5), distance 5. The cavity spans
      radii 115 to 465; the code puts the plasma's outer edge at 445, twenty
      units from the wall instead of five. */
  lemma PlasmaCounterexample()
    ensures var p := Parameters(
              Containment(500.0, 600.0, 2, 5.0, [Layer(20.0, 10.0), Layer(15.0, 5.0)]),
              Solenoid(100.0, 400.0, 10.0), Ports(4, 50.0, 50.0),
              Limbs(8, 50.0, 10.0, LimbDims(40.0, 20.0, 400.0)),
              Limiter(5.0, 2.0, 10.0), Divertor(5.0, 40.0, 2.0, 10.0));
            && Cavity(p).outerRadius == 465.0
            && PlasmaSource(p).outerRadius == 460.0
            && PlasmaSourceAsWritten(p).Ok? && PlasmaSourceAsWritten(p).value.outerRadius == 445.0
  {
    var p := Parameters(
      Containment(500.0, 600.0, 2, 5.0, [Layer(20.0, 10.0), Layer(15.0, 5.0)]),
      Solenoid(100.0, 400.0, 10.0), Ports(4, 50.0, 50.0),
      Limbs(8, 50.0, 10.0, LimbDims(40.0, 20.0, 400.0)),
      Limiter(5.0, 2.0, 10.0), Divertor(5.0, 40.0, 2.0, 10.0));
    var ls := p.containment.layers;
    assert ls[..|ls| - 1] == [Layer(20.0, 10.0)];
    assert ls[..|ls| - 1][..0] == [];
    assert ShrunkBy(BaseTorus(p), ls[..|ls| - 1]) == Shrink(BaseTorus(p), ls[0]);
    assert Cavity(p) == Shrink(Shrink(BaseTorus(p), ls[0]), ls[1]);
  }

  /** The plasma in closed form: the solenoid radius plus every inner
      thickness and the distance, the outer radius less every outer
      thickness and the distance, the height less both, centred at z = 0. */
  lemma PlasmaClosedForm(p: Parameters)
    ensures PlasmaSource(p).innerRadius == p.solenoid.radius + InnerSum(p) + p.containment.distanceFromPlasma
    ensures PlasmaSource(p).outerRadius == p.containment.outerRadius - OuterSum(p) - p.containment.distanceFromPlasma
    ensures PlasmaSource(p).height == p.containment.height - 2.0 * OuterSum(p) - 2.0 * p.containment.distanceFromPlasma
    ensures PlasmaSource(p).zCentre == 0.0
  {
    ShrunkByClosedForm(BaseTorus(p), p.containment.layers);
  }
}
