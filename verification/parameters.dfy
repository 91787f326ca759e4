/** The parameter records of the builder and the cumulative layer sums
    every placement is derived from. */
module Parameters {

  /** One shell of the containment stack. `outer` is taken off the outer
      wall and off the top and the bottom; `inner` is taken off the inner wall. */
  datatype Layer = Layer(outer: real, inner: real)

  /** Which thickness of a layer a running sum adds up. */
  datatype Side = OuterSide | InnerSide

  function Thickness(l: Layer, side: Side): real {
    match side
    case OuterSide => l.outer
    case InnerSide => l.inner
  }

  /** The running sum of one thickness over `layers`, in layer order (the
      loops `for i in range(...): total = total + layers[i]...`). */
  function Cumulative(layers: seq<Layer>, side: Side): real
    decreases |layers|
  {
    if |layers| == 0 then 0.0
    else Cumulative(layers[..|layers| - 1], side) + Thickness(layers[|layers| - 1], side)
  }

  /** Taking one more layer into a prefix sum adds that layer's thickness. */
  lemma CumulativeStep(layers: seq<Layer>, i: nat, side: Side)
    requires i < |layers|
    ensures Cumulative(layers[..i + 1], side) == Cumulative(layers[..i], side) + Thickness(layers[i], side)
  {
    assert layers[..i + 1][..i] == layers[..i];
  }

  /** With non-negative thicknesses a longer prefix never has a smaller sum,
      and strictly positive thicknesses make it strictly larger. */
  lemma {:induction false} CumulativeMonotone(layers: seq<Layer>, i: nat, j: nat, side: Side)
    requires i <= j <= |layers|
    requires forall k :: 0 <= k < |layers| ==> Thickness(layers[k], side) >= 0.0
    ensures Cumulative(layers[..i], side) <= Cumulative(layers[..j], side)
    ensures (i < j && forall k :: 0 <= k < |layers| ==> Thickness(layers[k], side) > 0.0) ==>
      Cumulative(layers[..i], side) < Cumulative(layers[..j], side)
    decreases j - i
  {
    if i < j {
      CumulativeMonotone(layers, i, j - 1, side);
      CumulativeStep(layers, j - 1, side);
    }
  }

  /** `ContainmentParameters`. The decoder always yields exactly
      max(nrLayers, 0) layers. */
  datatype Containment = Containment(
    outerRadius: real,
    height: real,
    nrLayers: int,
    distanceFromPlasma: real,
    layers: seq<Layer>)

  /** `SolenoidParameters`. */
  datatype Solenoid = Solenoid(radius: real, height: real, bboxThickness: real)

  /** `PortParameters`. */
  datatype Ports = Ports(nrPorts: int, zSide: real, ySide: real)

  /** `LimbDimensiones`. */
  datatype LimbDims = LimbDims(length: real, width: real, height: real)

  /** `LimbParameters`; `limbRadius` already includes the containment's outer radius. */
  datatype Limbs = Limbs(nrLimbs: int, limbRadius: real, sphereRadius: real, dims: LimbDims)

  /** `LimiterParameters`. */
  datatype Limiter = Limiter(firstwallThickness: real, gap: real, thickness: real)

  /** `DivertorParameters`. */
  datatype Divertor = Divertor(firstwallThickness: real, width: real, gap: real, thickness: real)

  /** The six records a STOK builder holds, in the order its constructor takes them. */
  datatype Parameters = Parameters(
    containment: Containment,
    solenoid: Solenoid,
    ports: Ports,
    limbs: Limbs,
    limiter: Limiter,
    divertor: Divertor)

  /** Sum of every layer's outer thickness (how far the stack reaches in
      from the outer radius, and down from the top). */
  function OuterSum(p: Parameters): real {
    Cumulative(p.containment.layers, OuterSide)
  }

  /** Sum of every layer's inner thickness (how far the stack reaches out
      from the solenoid radius). */
  function InnerSum(p: Parameters): real {
    Cumulative(p.containment.layers, InnerSide)
  }
}
