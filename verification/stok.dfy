/** The STOK builder's constructor: it takes a tuple of parameter records
    and accepts it only when the records have exactly the expected types in
    the expected order. */
module Stok {
  import opened Outcomes
  import opened Parameters

  /** One element of the tuple handed to the constructor, tagged by its type;
      `Other` is a value of any other type. */
  datatype Arg =
    | ContainmentArg(containment: Containment)
    | SolenoidArg(solenoid: Solenoid)
    | PortsArg(ports: Ports)
    | LimbsArg(limbs: Limbs)
    | LimiterArg(limiter: Limiter)
    | DivertorArg(divertor: Divertor)
    | Other

  /** The tuple a caller builds from six records, in the constructor's order. */
  function Pack(p: Parameters): seq<Arg> {
    [ContainmentArg(p.containment), SolenoidArg(p.solenoid), PortsArg(p.ports),
     LimbsArg(p.limbs), LimiterArg(p.limiter), DivertorArg(p.divertor)]
  }

  /** `STOK.__init__`: the list of the arguments' types must equal the list
      of the six record types; anything else raises TypeError. The
      constructor accepts exactly the packed tuples and keeps the records it
      was given: accepted arguments are the packing of the result, and any
      other tuple (wrong length, a record out of place, a value of another
      type) raises TypeError. */
  function MakeStok(args: seq<Arg>): (r: Result<Parameters>)
    ensures r.Ok? ==> Pack(r.value) == args
    ensures r.Err? ==> r.error == TypeError && forall p :: Pack(p) != args
  {
    if && |args| == 6
       && args[0].ContainmentArg? && args[1].SolenoidArg? && args[2].PortsArg?
       && args[3].LimbsArg? && args[4].LimiterArg? && args[5].DivertorArg?
    then Ok(Parameters(args[0].containment, args[1].solenoid, args[2].ports,
                       args[3].limbs, args[4].limiter, args[5].divertor))
    else Err(TypeError)
  }

  /** Every packing is accepted and gives back its records. */
  lemma MakeStokOfPack(p: Parameters)
    ensures MakeStok(Pack(p)) == Ok(p)
  {
  }
}
