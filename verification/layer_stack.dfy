/** The nested containment stack: each layer is the ring between two
    rectangular tori, shrunk from the solenoid / outer radius / containment
    height by the layers before it. */
module LayerStack {
  import opened Outcomes
  import opened Parameters
  import opened Solids

  /** The torus the stack is carved from: solenoid radius to outer radius,
      full containment height. */
  function BaseTorus(p: Parameters): Torus {
    CreateTorus(p.solenoid.radius, p.containment.outerRadius, p.containment.height)
  }

  /** One layer taken off a torus: the hole widens by the layer's inner
      thickness; the outside, the top and the bottom move in by its outer
      thickness. */
  function Shrink(t: Torus, l: Layer): Torus {
    CreateTorus(t.innerRadius + l.inner, t.outerRadius - l.outer, t.height - l.outer * 2.0)
  }

  /** The loop of `containment_layer`: shrink by each layer in order. */
  function ShrunkBy(t: Torus, layers: seq<Layer>): Torus
    decreases |layers|
  {
    if |layers| == 0 then t
    else Shrink(ShrunkBy(t, layers[..|layers| - 1]), layers[|layers| - 1])
  }

  /** The closed form of the stack's boundary k: the base torus reduced by
      the cumulative thicknesses of layers 0..k-1. */
  function Boundary(p: Parameters, k: nat): Torus
    requires k <= |p.containment.layers|
  {
    var before := p.containment.layers[..k];
    CreateTorus(p.solenoid.radius + Cumulative(before, InnerSide),
                p.containment.outerRadius - Cumulative(before, OuterSide),
                p.containment.height - 2.0 * Cumulative(before, OuterSide))
  }

  /** The space left inside the innermost layer. */
  function Cavity(p: Parameters): Torus {
    ShrunkBy(BaseTorus(p), p.containment.layers)
  }

  /** A containment layer: `outer.cut(inner)`. */
  datatype Shell = Shell(outer: Torus, inner: Torus)

  /** `containment_layer(i)`. Layer 0 is written out from the base values;
      any other layer first runs the shrinking loop over layers 0..i-1. A
      missing layer raises IndexError at the first absent position. */
  function ContainmentLayer(p: Parameters, i: nat): Result<Shell> {
    var layers := p.containment.layers;
    var inner := p.solenoid.radius;
    var outer := p.containment.outerRadius;
    var height := p.containment.height;
    if i >= |layers| then Err(IndexError(|layers|))
    else if i == 0 then
      Ok(Shell(CreateTorus(inner, outer, height),
               CreateTorus(inner + layers[0].inner, outer - layers[0].outer, height - layers[0].outer * 2.0)))
    else
      var t := ShrunkBy(CreateTorus(inner, outer, height), layers[..i]);
      Ok(Shell(t, Shrink(t, layers[i])))
  }

  /** Shrinking layer by layer is shrinking by the running sums. */
  lemma {:induction false} ShrunkByClosedForm(t: Torus, layers: seq<Layer>)
    requires t.zCentre == 0.0
    ensures ShrunkBy(t, layers) == Torus(t.innerRadius + Cumulative(layers, InnerSide),
                                         t.outerRadius - Cumulative(layers, OuterSide),
                                         t.height - 2.0 * Cumulative(layers, OuterSide), 0.0)
    decreases |layers|
  {
    if |layers| > 0 {
      ShrunkByClosedForm(t, layers[..|layers| - 1]);
    }
  }

  /** The stack's boundary k is what the shrinking loop leaves after k layers. */
  lemma BoundaryIsShrunk(p: Parameters, k: nat)
    requires k <= |p.containment.layers|
    ensures Boundary(p, k) == ShrunkBy(BaseTorus(p), p.containment.layers[..k])
  {
    ShrunkByClosedForm(BaseTorus(p), p.containment.layers[..k]);
  }

  /** Layer i lies between boundaries i and i+1: its outer torus is the base
      reduced by the sums over layers 0..i-1 (empty sums for layer 0), and
      its inner torus is that torus reduced by layer i's own thicknesses. */
  lemma LayerBounds(p: Parameters, i: nat)
    requires i < |p.containment.layers|
    ensures ContainmentLayer(p, i) == Ok(Shell(Boundary(p, i), Boundary(p, i + 1)))
  {
    var layers := p.containment.layers;
    BoundaryIsShrunk(p, i);
    BoundaryIsShrunk(p, i + 1);
    assert layers[..i + 1][..i] == layers[..i];
    if i == 0 {
      assert layers[..0] == [];
    }
  }

  /** Adjacent layers share a surface: layer i's inner torus is exactly
      layer i+1's outer torus, so the stack has neither gaps nor overlaps. */
  lemma LayerNesting(p: Parameters, i: nat)
    requires i + 1 < |p.containment.layers|
    ensures ContainmentLayer(p, i).Ok? && ContainmentLayer(p, i + 1).Ok?
    ensures ContainmentLayer(p, i).value.inner == ContainmentLayer(p, i + 1).value.outer
  {
    LayerBounds(p, i);
    LayerBounds(p, i + 1);
  }

  /** With strictly positive thicknesses every later layer sits strictly
      inside every earlier one: smaller outer radius, larger inner radius,
      lower height. */
  lemma LayersStrictlyNest(p: Parameters, i: nat, j: nat)
    requires i < j < |p.containment.layers|
    requires forall k :: 0 <= k < |p.containment.layers| ==>
      p.containment.layers[k].outer > 0.0 && p.containment.layers[k].inner > 0.0
    ensures ContainmentLayer(p, i).Ok? && ContainmentLayer(p, j).Ok?
    ensures var a := ContainmentLayer(p, i).value.outer; var b := ContainmentLayer(p, j).value.outer;
      b.outerRadius < a.outerRadius && a.innerRadius < b.innerRadius && b.height < a.height
  {
    LayerBounds(p, i);
    LayerBounds(p, j);
    CumulativeMonotone(p.containment.layers, i, j, OuterSide);
    CumulativeMonotone(p.containment.layers, i, j, InnerSide);
  }

  /** If the solenoid radius and every thickness are non-negative and the
      cavity left inside the stack is a proper ring, then every torus the
      stack builds is a proper ring. */
  lemma StackWellFormed(p: Parameters)
    requires p.solenoid.radius >= 0.0
    requires forall k :: 0 <= k < |p.containment.layers| ==>
      p.containment.layers[k].outer >= 0.0 && p.containment.layers[k].inner >= 0.0
    requires WellFormed(Cavity(p))
    ensures forall i :: 0 <= i < |p.containment.layers| ==>
      ContainmentLayer(p, i).Ok? && WellFormed(ContainmentLayer(p, i).value.outer) && WellFormed(ContainmentLayer(p, i).value.inner)
  {
    var layers := p.containment.layers;
    var n := |layers|;
    BoundaryIsShrunk(p, n);
    assert layers[..n] == layers;
    forall i | 0 <= i < n
      ensures ContainmentLayer(p, i).Ok? && WellFormed(ContainmentLayer(p, i).value.outer) && WellFormed(ContainmentLayer(p, i).value.inner)
    {
      LayerBounds(p, i);
      CumulativeMonotone(layers, 0, i, InnerSide);
      CumulativeMonotone(layers, i, n, OuterSide);
      CumulativeMonotone(layers, i, n, InnerSide);
      CumulativeMonotone(layers, i + 1, n, OuterSide);
      CumulativeMonotone(layers, i + 1, n, InnerSide);
      assert layers[..0] == [];
    }
  }

  /** `containment()`: every layer of the stack, innermost first. */
  function Containment(p: Parameters): (shells: seq<Shell>)
    ensures |shells| == |p.containment.layers|
    ensures forall i :: 0 <= i < |shells| ==> shells[i].outer == Boundary(p, i) && shells[i].inner == Boundary(p, i + 1)
    ensures forall i :: 0 <= i < |shells| - 1 ==> shells[i].inner == shells[i + 1].outer
  {
    var n := |p.containment.layers|;
    var shells := seq(n, i requires 0 <= i < n => ContainmentLayer(p, i).value);
    assert forall i :: 0 <= i < n ==> ContainmentLayer(p, i).Ok? by {
      forall i | 0 <= i < n ensures ContainmentLayer(p, i).Ok? {
        LayerBounds(p, i);
      }
    }
    forall i | 0 <= i < n
      ensures shells[i].outer == Boundary(p, i) && shells[i].inner == Boundary(p, i + 1)
    {
      LayerBounds(p, i);
    }
    shells
  }
}
