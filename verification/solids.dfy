/** Symbolic solids: each CadQuery primitive is recorded by the numbers it
    is built from, and placements by the rotations applied to it. The
    geometry kernel itself is not modelled. */
module Solids {

  /** A rectangular-section ring: the cylinder of radius `outerRadius` minus
      the coaxial cylinder of radius `innerRadius`, `height` tall, centred on
      the z axis at height `zCentre`. */
  datatype Torus = Torus(innerRadius: real, outerRadius: real, height: real, zCentre: real)

  /** `create_torus`: two centred cylinders of the same height, one cut from
      the other, so the ring is centred at z = 0. */
  function CreateTorus(innerRadius: real, outerRadius: real, height: real): Torus {
    Torus(innerRadius, outerRadius, height, 0.0)
  }

  function Top(t: Torus): real {
    t.zCentre + t.height / 2.0
  }

  function Bottom(t: Torus): real {
    t.zCentre - t.height / 2.0
  }

  /** A ring with a real hole, a real wall and a real height; anything else
      is an empty or degenerate solid. */
  predicate WellFormed(t: Torus) {
    0.0 <= t.innerRadius < t.outerRadius && t.height > 0.0
  }

  /** `r` lies inside `t`'s radial and vertical extent. */
  predicate RingWithin(r: Torus, t: Torus) {
    && t.innerRadius <= r.innerRadius && r.outerRadius <= t.outerRadius
    && Bottom(t) <= Bottom(r) && Top(r) <= Top(t)
  }

  /** A port cutter: a `ySide` by `zSide` rectangle centred on the x axis,
      extruded along +x from `xStart` for `depth`. */
  datatype Prism = Prism(ySide: real, zSide: real, depth: real, xStart: real)

  function XEnd(p: Prism): real {
    p.xStart + p.depth
  }

  datatype Point3 = Point3(x: real, y: real, z: real)

  /** A box `dx` by `dy` by `dz` centred at `centre`. */
  datatype Box = Box(dx: real, dy: real, dz: real, centre: Point3)

  datatype Sphere = Sphere(centre: Point3, radius: real)

  /** The direction of a rotation axis through the origin: +z or -z. */
  datatype Axis = Up | Down

  /** A rotation by `degrees` about an axis, by the right-hand rule. */
  datatype Turn = Turn(axis: Axis, degrees: real)

  /** The rotation seen from above: counter-clockwise degrees. */
  function Ccw(t: Turn): real {
    match t.axis
    case Up => t.degrees
    case Down => -t.degrees
  }

  /** The net counter-clockwise angle of rotations applied one after the other. */
  function TotalCcw(turns: seq<Turn>): real
    decreases |turns|
  {
    if |turns| == 0 then 0.0 else Ccw(turns[0]) + TotalCcw(turns[1..])
  }

  /** A solid and the rotations about the z axis applied to it, in order. */
  datatype Placed<S> = Placed(solid: S, turns: seq<Turn>)
}
