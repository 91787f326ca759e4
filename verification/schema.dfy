/** The positional configuration schema: the number stream is decoded into
    the parameter records. The stream describes its own length: the layer
    count at position 2 decides where every later record starts. */
module Schema {
  import opened Outcomes
  import opened Python
  import opened Parameters

  /** `layers_all`: for i in range(3, 2n+3, 2) one layer (read[i], read[i+1]).
      The same loop builds `ContainmentParameters.layers` in both versions. */
  function LayersAll(read: seq<real>, n: int): (r: Result<seq<Layer>>)
    ensures r.Ok? <==> n <= 0 || 2 * n + 2 < |read|
    ensures r.Ok? ==> |r.value| == (if n < 0 then 0 else n)
    ensures r.Ok? ==> forall k :: 0 <= k < |r.value| ==> r.value[k] == Layer(read[3 + 2 * k], read[4 + 2 * k])
    decreases n
  {
    if n <= 0 then Ok([])
    else
      var front :- LayersAll(read, n - 1);
      var i := 2 * n + 1;
      var outer :- Index(read, i);
      var inner :- Index(read, i + 1);
      Ok(front + [Layer(outer, inner)])
  }

  // ---- The canonical decoder: every record reads at an absolute offset 2n+k ----

  function DecodeSolenoid(read: seq<real>, n: int): Result<Solenoid> {
    var radius :- Index(read, n * 2 + 3);
    var height :- Index(read, n * 2 + 4);
    var bboxThickness :- Index(read, n * 2 + 5);
    Ok(Solenoid(radius, height, bboxThickness))
  }

  function DecodePorts(read: seq<real>, n: int): Result<Ports> {
    var nrPorts :- Index(read, n * 2 + 6);
    var zSide :- Index(read, n * 2 + 7);
    var ySide :- Index(read, n * 2 + 8);
    Ok(Ports(Trunc(nrPorts), zSide, ySide))
  }

  /** `LimbParameters`: the limb radius is an offset from the containment's
      outer radius, and a limb height of 0.0 means "as tall as the solenoid". */
  function DecodeLimbs(read: seq<real>, n: int, outerRadius: real, solenoidHeight: real): Result<Limbs> {
    var nrLimbs :- Index(read, n * 2 + 9);
    var offset :- Index(read, n * 2 + 10);
    var sphereRadius :- Index(read, n * 2 + 11);
    var length :- Index(read, n * 2 + 12);
    var width :- Index(read, n * 2 + 13);
    var height :- Index(read, n * 2 + 14);
    Ok(Limbs(Trunc(nrLimbs), outerRadius + offset, sphereRadius,
             LimbDims(length, width, if height != 0.0 then height else solenoidHeight)))
  }

  function DecodeLimiter(read: seq<real>, n: int): Result<Limiter> {
    var firstwall :- Index(read, n * 2 + 15);
    var gap :- Index(read, n * 2 + 16);
    var thickness :- Index(read, n * 2 + 17);
    Ok(Limiter(firstwall, gap, thickness))
  }

  function DecodeDivertor(read: seq<real>, n: int): Result<Divertor> {
    var firstwall :- Index(read, n * 2 + 18);
    var width :- Index(read, n * 2 + 19);
    var gap :- Index(read, n * 2 + 20);
    var thickness :- Index(read, n * 2 + 21);
    Ok(Divertor(firstwall, width, gap, thickness))
  }

  /** The six dataclasses' defaults, evaluated in class order; the first
      index out of range raises. `distance_from_plasma` is `read[-1]`. */
  function Decode(read: seq<real>): Result<Parameters> {
    var outerRadius :- Index(read, 0);
    var height :- Index(read, 1);
    var nrRaw :- Index(read, 2);
    var n := Trunc(nrRaw);
    var distance :- Index(read, -1);
    var layers :- LayersAll(read, n);
    var solenoid :- DecodeSolenoid(read, n);
    var ports :- DecodePorts(read, n);
    var limbs :- DecodeLimbs(read, n, outerRadius, solenoid.height);
    var limiter :- DecodeLimiter(read, n);
    var divertor :- DecodeDivertor(read, n);
    Ok(Parameters(Containment(outerRadius, height, n, distance, layers),
                  solenoid, ports, limbs, limiter, divertor))
  }

  /** A decoded stack has one layer per count (none for a negative count),
      and layer k is the pair at positions 3+2k and 4+2k. */
  lemma DecodeLayers(read: seq<real>)
    requires Decode(read).Ok?
    ensures var c := Decode(read).value.containment;
      && |read| >= 3
      && c.nrLayers == Trunc(read[2])
      && |c.layers| == (if c.nrLayers < 0 then 0 else c.nrLayers)
      && forall k :: 0 <= k < |c.layers| ==> c.layers[k] == Layer(read[3 + 2 * k], read[4 + 2 * k])
  {
  }

  // ---- The layout the offsets spell out ----

  /** A run of consecutive positions in the stream holding one record. */
  datatype Section = Section(start: int, count: nat)

  /** The records in stream order for a stack of `n` layers: containment
      scalars, layers, solenoid, ports, limbs, limiter, divertor, and the
      trailing plasma distance. */
  function Layout(n: nat): seq<Section> {
    [Section(0, 3), Section(3, 2 * n), Section(2 * n + 3, 3), Section(2 * n + 6, 3),
     Section(2 * n + 9, 6), Section(2 * n + 15, 3), Section(2 * n + 18, 4), Section(2 * n + 22, 1)]
  }

  /** The sections start at 0, each begins where the previous one ends, so
      they tile 0 .. 2n+22 without overlap. */
  lemma LayoutContiguous(n: nat)
    ensures Layout(n)[0].start == 0
    ensures forall k :: 0 < k < |Layout(n)| ==> Layout(n)[k].start == Layout(n)[k - 1].start + Layout(n)[k - 1].count
    ensures forall k, k' :: 0 <= k < k' < |Layout(n)| ==> Layout(n)[k].start + Layout(n)[k].count <= Layout(n)[k'].start
    ensures Layout(n)[|Layout(n)| - 1].start + Layout(n)[|Layout(n)| - 1].count == 2 * n + 23
  {
  }

  /** For a non-negative layer count the decoder succeeds exactly when the
      stream reaches the divertor's last field at 2n+21 (the plasma distance
      needs no room of its own: it is whatever value comes last). */
  lemma DecodeSucceedsIff(read: seq<real>)
    requires |read| >= 3 && Trunc(read[2]) >= 0
    ensures Decode(read).Ok? <==> |read| >= 2 * Trunc(read[2]) + 22
  {
  }

  /** A stream that stops right after the divertor still decodes, and then
      the plasma distance is the divertor thickness read a second time. */
  lemma DistanceAliasesDivertor(read: seq<real>)
    requires |read| >= 3 && Trunc(read[2]) >= 0
    requires |read| == 2 * Trunc(read[2]) + 22
    ensures Decode(read).Ok?
    ensures Decode(read).value.containment.distanceFromPlasma == Decode(read).value.divertor.thickness
  {
    DecodeSucceedsIff(read);
  }

  // ---- Writing the records back as a stream ----

  /** The layer block: outer then inner thickness of each layer, in order. */
  function LayerValues(layers: seq<Layer>): seq<real> {
    seq(2 * |layers|, j requires 0 <= j < 2 * |layers| =>
      if j % 2 == 0 then layers[j / 2].outer else layers[j / 2].inner)
  }

  /** Everything after the layer block, in stream order. */
  function TailValues(p: Parameters): seq<real> {
    var s := p.solenoid;
    var l := p.limbs;
    var m := p.limiter;
    var d := p.divertor;
    [s.radius, s.height, s.bboxThickness,
     p.ports.nrPorts as real, p.ports.zSide, p.ports.ySide,
     l.nrLimbs as real, l.limbRadius - p.containment.outerRadius, l.sphereRadius,
     l.dims.length, l.dims.width, l.dims.height,
     m.firstwallThickness, m.gap, m.thickness,
     d.firstwallThickness, d.width, d.gap, d.thickness,
     p.containment.distanceFromPlasma]
  }

  /** The configuration stream a parameter tree is written as. */
  function Encode(p: Parameters): seq<real> {
    [p.containment.outerRadius, p.containment.height, p.containment.nrLayers as real]
      + LayerValues(p.containment.layers) + TailValues(p)
  }

  /** Parameters a stream can hold: the count agrees with the layers, and a
      limb height of 0.0 is only stored when it equals the solenoid height
      it would be replaced by. */
  predicate Encodable(p: Parameters) {
    && p.containment.nrLayers == |p.containment.layers|
    && (p.limbs.dims.height != 0.0 || p.solenoid.height == 0.0)
  }

  /** Where each value of an encoded tree sits, so that decoding can find it. */
  lemma EncodePositions(p: Parameters)
    ensures var e := Encode(p); var n := |p.containment.layers|;
      && |e| == 2 * n + 23
      && e[0] == p.containment.outerRadius && e[1] == p.containment.height
      && e[2] == p.containment.nrLayers as real
      && (forall k :: 0 <= k < n ==> e[3 + 2 * k] == p.containment.layers[k].outer && e[4 + 2 * k] == p.containment.layers[k].inner)
      && (forall j :: 0 <= j < 20 ==> e[2 * n + 3 + j] == TailValues(p)[j])
  {
    var e := Encode(p);
    var n := |p.containment.layers|;
    var head := [p.containment.outerRadius, p.containment.height, p.containment.nrLayers as real];
    var lv := LayerValues(p.containment.layers);
    assert e == head + lv + TailValues(p);
    forall k | 0 <= k < n
      ensures e[3 + 2 * k] == p.containment.layers[k].outer && e[4 + 2 * k] == p.containment.layers[k].inner
    {
      assert e[3 + 2 * k] == lv[2 * k];
      assert e[4 + 2 * k] == lv[2 * k + 1];
    }
  }

  /** With a non-negative count and a long enough stream, each record is
      read from its absolute positions. */
  lemma SectionsRead(read: seq<real>, n: int, outerRadius: real, solenoidHeight: real)
    requires n >= 0 && |read| >= 2 * n + 22
    ensures DecodeSolenoid(read, n) == Ok(Solenoid(read[2 * n + 3], read[2 * n + 4], read[2 * n + 5]))
    ensures DecodePorts(read, n) == Ok(Ports(Trunc(read[2 * n + 6]), read[2 * n + 7], read[2 * n + 8]))
    ensures DecodeLimbs(read, n, outerRadius, solenoidHeight) ==
      Ok(Limbs(Trunc(read[2 * n + 9]), outerRadius + read[2 * n + 10], read[2 * n + 11],
               LimbDims(read[2 * n + 12], read[2 * n + 13],
                        if read[2 * n + 14] != 0.0 then read[2 * n + 14] else solenoidHeight)))
    ensures DecodeLimiter(read, n) == Ok(Limiter(read[2 * n + 15], read[2 * n + 16], read[2 * n + 17]))
    ensures DecodeDivertor(read, n) == Ok(Divertor(read[2 * n + 18], read[2 * n + 19], read[2 * n + 20], read[2 * n + 21]))
  {
  }

  /** The decoder's chain of `:-` steps all succeed for a non-negative count
      and a stream long enough for every record. */
  lemma DecodeUnfolds(read: seq<real>)
    requires |read| >= 3 && Trunc(read[2]) >= 0
    requires |read| >= 2 * Trunc(read[2]) + 22
    ensures var n := Trunc(read[2]);
      Decode(read) == Ok(Parameters(
        Containment(read[0], read[1], n, read[|read| - 1], LayersAll(read, n).value),
        DecodeSolenoid(read, n).value, DecodePorts(read, n).value,
        DecodeLimbs(read, n, read[0], read[2 * n + 4]).value,
        DecodeLimiter(read, n).value, DecodeDivertor(read, n).value))
  {
    var n := Trunc(read[2]);
    assert Index(read, 0) == Ok(read[0]) && Index(read, 1) == Ok(read[1]) && Index(read, 2) == Ok(read[2]);
    assert Index(read, -1) == Ok(read[|read| - 1]);
    assert LayersAll(read, n).Ok?;
    SectionsRead(read, n, read[0], read[2 * n + 4]);
  }

  /** The decoded tree, field by field, for a non-negative count and a
      stream long enough for every record: each field is the value at the
      offset its dataclass reads, the limb radius is an offset from the
      outer radius, and a limb height of 0.0 becomes the solenoid height. */
  lemma DecodeReads(read: seq<real>)
    requires |read| >= 3 && Trunc(read[2]) >= 0
    requires |read| >= 2 * Trunc(read[2]) + 22
    ensures Decode(read).Ok?
    ensures var n := Trunc(read[2]); var c := Decode(read).value.containment;
      && c.outerRadius == read[0] && c.height == read[1] && c.nrLayers == n
      && c.distanceFromPlasma == read[|read| - 1]
      && |c.layers| == n
      && forall k :: 0 <= k < n ==> c.layers[k] == Layer(read[3 + 2 * k], read[4 + 2 * k])
    ensures var n := Trunc(read[2]); var p := Decode(read).value;
      && p.solenoid == Solenoid(read[2 * n + 3], read[2 * n + 4], read[2 * n + 5])
      && p.ports == Ports(Trunc(read[2 * n + 6]), read[2 * n + 7], read[2 * n + 8])
      && p.limbs == Limbs(Trunc(read[2 * n + 9]), read[0] + read[2 * n + 10], read[2 * n + 11],
                          LimbDims(read[2 * n + 12], read[2 * n + 13],
                                   if read[2 * n + 14] != 0.0 then read[2 * n + 14] else read[2 * n + 4]))
      && p.limiter == Limiter(read[2 * n + 15], read[2 * n + 16], read[2 * n + 17])
      && p.divertor == Divertor(read[2 * n + 18], read[2 * n + 19], read[2 * n + 20], read[2 * n + 21])
  {
    var n := Trunc(read[2]);
    DecodeUnfolds(read);
    SectionsRead(read, n, read[0], read[2 * n + 4]);
  }

  /** Position `j` of section `k` of the layout for `n` layers. */
  function At(n: nat, k: nat, j: nat): int
    requires k < |Layout(n)| && j < Layout(n)[k].count
  {
    Layout(n)[k].start + j
  }

  /** The decoder reads every field from its own place in the layout: field
      `j` of a record is position `j` of that record's section, and a stream
      that ends with the plasma distance's section has the distance there. */
  lemma DecodeFollowsLayout(read: seq<real>)
    requires |read| >= 3 && Trunc(read[2]) >= 0
    requires |read| >= 2 * Trunc(read[2]) + 22
    ensures Decode(read).Ok?
    ensures var n: nat := Trunc(read[2]); var c := Decode(read).value.containment;
      && c.outerRadius == read[At(n, 0, 0)] && c.height == read[At(n, 0, 1)] && c.nrLayers == Trunc(read[At(n, 0, 2)])
      && 2 * |c.layers| == Layout(n)[1].count
      && forall k :: 0 <= k < n ==> c.layers[k] == Layer(read[At(n, 1, 2 * k)], read[At(n, 1, 2 * k + 1)])
    ensures var n: nat := Trunc(read[2]); var p := Decode(read).value;
      && p.solenoid == Solenoid(read[At(n, 2, 0)], read[At(n, 2, 1)], read[At(n, 2, 2)])
      && p.ports == Ports(Trunc(read[At(n, 3, 0)]), read[At(n, 3, 1)], read[At(n, 3, 2)])
      && p.limiter == Limiter(read[At(n, 5, 0)], read[At(n, 5, 1)], read[At(n, 5, 2)])
      && p.divertor == Divertor(read[At(n, 6, 0)], read[At(n, 6, 1)], read[At(n, 6, 2)], read[At(n, 6, 3)])
    ensures var n: nat := Trunc(read[2]); var l := Decode(read).value.limbs;
      && l.nrLimbs == Trunc(read[At(n, 4, 0)])
      && l.limbRadius == read[At(n, 0, 0)] + read[At(n, 4, 1)]
      && l.sphereRadius == read[At(n, 4, 2)]
      && l.dims == LimbDims(read[At(n, 4, 3)], read[At(n, 4, 4)],
                            if read[At(n, 4, 5)] != 0.0 then read[At(n, 4, 5)] else read[At(n, 2, 1)])
    ensures var n: nat := Trunc(read[2]);
      |read| == At(n, 7, 0) + 1 ==> Decode(read).value.containment.distanceFromPlasma == read[At(n, 7, 0)]
  {
    DecodeReads(read);
  }

  /** Decoding an encoded tree gives the tree back. */
  lemma DecodeEncode(p: Parameters)
    requires Encodable(p)
    ensures Decode(Encode(p)) == Ok(p)
  {
    var e := Encode(p);
    var n := |p.containment.layers|;
    EncodePositions(p);
    TruncOfInt(n);
    TruncOfInt(p.ports.nrPorts);
    TruncOfInt(p.limbs.nrLimbs);
    var tail := TailValues(p);
    assert Trunc(e[2]) == n;
    DecodeUnfolds(e);
    SectionsRead(e, n, p.containment.outerRadius, p.solenoid.height);
    assert LayersAll(e, n).value == p.containment.layers;
    assert e[|e| - 1] == p.containment.distanceFromPlasma by {
      assert e[2 * n + 3 + 19] == tail[19];
    }
    assert DecodeSolenoid(e, n).value == p.solenoid by {
      assert e[2 * n + 3 + 0] == tail[0];
      assert e[2 * n + 3 + 1] == tail[1];
      assert e[2 * n + 3 + 2] == tail[2];
    }
    assert DecodePorts(e, n).value == p.ports by {
      assert e[2 * n + 3 + 3] == tail[3];
      assert e[2 * n + 3 + 4] == tail[4];
      assert e[2 * n + 3 + 5] == tail[5];
    }
    assert DecodeLimbs(e, n, p.containment.outerRadius, p.solenoid.height).value == p.limbs by {
      assert e[2 * n + 3 + 6] == tail[6];
      assert e[2 * n + 3 + 7] == tail[7];
      assert e[2 * n + 3 + 8] == tail[8];
      assert e[2 * n + 3 + 9] == tail[9];
      assert e[2 * n + 3 + 10] == tail[10];
      assert e[2 * n + 3 + 11] == tail[11];
    }
    assert DecodeLimiter(e, n).value == p.limiter by {
      assert e[2 * n + 3 + 12] == tail[12];
      assert e[2 * n + 3 + 13] == tail[13];
      assert e[2 * n + 3 + 14] == tail[14];
    }
    assert DecodeDivertor(e, n).value == p.divertor by {
      assert e[2 * n + 3 + 15] == tail[15];
      assert e[2 * n + 3 + 16] == tail[16];
      assert e[2 * n + 3 + 17] == tail[17];
      assert e[2 * n + 3 + 18] == tail[18];
    }
  }

  /** The values after the layer block come back from a decoded stream. */
  lemma TailOfDecoded(read: seq<real>, n: int)
    requires |read| >= 3 && n == Trunc(read[2]) && n >= 0 && |read| == 2 * n + 23
    requires read[2 * n + 6] == Trunc(read[2 * n + 6]) as real
    requires read[2 * n + 9] == Trunc(read[2 * n + 9]) as real
    requires read[2 * n + 14] != 0.0
    ensures Decode(read).Ok? && TailValues(Decode(read).value) == read[2 * n + 3..]
  {
    DecodeUnfolds(read);
    SectionsRead(read, n, read[0], read[2 * n + 4]);
  }

  /** The layer block comes back from a decoded stream. */
  lemma LayersOfDecoded(read: seq<real>, n: int)
    requires n >= 0 && |read| >= 2 * n + 3
    ensures LayersAll(read, n).Ok? && LayerValues(LayersAll(read, n).value) == read[3..2 * n + 3]
  {
    var ls := LayersAll(read, n).value;
    var lv := LayerValues(ls);
    forall j | 0 <= j < 2 * n
      ensures lv[j] == read[3 + j]
    {
      var k := j / 2;
      assert ls[k] == Layer(read[3 + 2 * k], read[4 + 2 * k]);
    }
  }

  /** A stream an encoding can reproduce: exactly 2n+23 numbers, where n
      is the layer count, with whole numbers for the three counts and a
      limb height other than the 0.0 default. */
  predicate Reencodable(read: seq<real>) {
    && |read| >= 3
    && var n := Trunc(read[2]);
       && n >= 0 && |read| == 2 * n + 23
       && read[2] == n as real
       && read[2 * n + 6] == Trunc(read[2 * n + 6]) as real
       && read[2 * n + 9] == Trunc(read[2 * n + 9]) as real
       && read[2 * n + 14] != 0.0
  }

  /** The three leading values come back from a decoded stream. */
  lemma HeadOfDecoded(read: seq<real>)
    requires Reencodable(read)
    ensures Decode(read).Ok?
    ensures var c := Decode(read).value.containment;
            [c.outerRadius, c.height, c.nrLayers as real] == read[..3]
  {
    DecodeUnfolds(read);
  }

  lemma LayerBlockOfDecoded(read: seq<real>)
    requires Reencodable(read)
    ensures Decode(read).Ok?
    ensures LayerValues(Decode(read).value.containment.layers) == read[3..2 * Trunc(read[2]) + 3]
  {
    DecodeUnfolds(read);
    LayersOfDecoded(read, Trunc(read[2]));
  }

  /** Such a stream is reproduced value for value by decoding and encoding again. */
  lemma EncodeDecode(read: seq<real>)
    requires Reencodable(read)
    ensures Decode(read).Ok? && Encode(Decode(read).value) == read
  {
    var n := Trunc(read[2]);
    HeadOfDecoded(read);
    LayerBlockOfDecoded(read);
    TailOfDecoded(read, n);
    EncodeFromParts(Decode(read).value, read, 2 * n + 3);
  }

  /** A stream is the encoding of any tree whose head, layer block and tail
      it holds, in that order. */
  lemma EncodeFromParts(p: Parameters, read: seq<real>, cut: nat)
    requires 3 <= cut <= |read|
    requires [p.containment.outerRadius, p.containment.height, p.containment.nrLayers as real] == read[..3]
    requires LayerValues(p.containment.layers) == read[3..cut]
    requires TailValues(p) == read[cut..]
    ensures Encode(p) == read
  {
    assert read == read[..3] + read[3..cut] + read[cut..];
  }

  // ---- The root version: cursors chained from one record to the next ----

  function SolenoidStart(n: int): int { n * 2 + 3 }
  function PortStart(n: int): int { SolenoidStart(n) + 3 }
  function LimbStart(n: int): int { PortStart(n) + 3 }
  function LimiterStart(n: int): int { LimbStart(n) + 6 }

  /** The root version's containment record: no plasma distance. */
  datatype RootContainment = RootContainment(outerRadius: real, height: real, nrLayers: int, layers: seq<Layer>)

  /** The root version's records: no divertor. */
  datatype RootParameters = RootParameters(
    containment: RootContainment,
    solenoid: Solenoid,
    ports: Ports,
    limbs: Limbs,
    limiter: Limiter)

  function RootSolenoid(config: seq<real>, s: int): Result<Solenoid> {
    var radius :- Index(config, s);
    var height :- Index(config, s + 1);
    var bboxThickness :- Index(config, s + 2);
    Ok(Solenoid(radius, height, bboxThickness))
  }

  function RootPorts(config: seq<real>, s: int): Result<Ports> {
    var nrPorts :- Index(config, s);
    var zSide :- Index(config, s + 1);
    var ySide :- Index(config, s + 2);
    Ok(Ports(Trunc(nrPorts), zSide, ySide))
  }

  /** The root version's limbs: the dimensions are read as they stand,
      without the zero-height default. */
  function RootLimbs(config: seq<real>, s: int, outerRadius: real): Result<Limbs> {
    var nrLimbs :- Index(config, s);
    var offset :- Index(config, s + 1);
    var sphereRadius :- Index(config, s + 2);
    var length :- Index(config, s + 3);
    var width :- Index(config, s + 4);
    var height :- Index(config, s + 5);
    Ok(Limbs(Trunc(nrLimbs), outerRadius + offset, sphereRadius, LimbDims(length, width, height)))
  }

  function RootLimiter(config: seq<real>, s: int): Result<Limiter> {
    var firstwall :- Index(config, s);
    var gap :- Index(config, s + 1);
    var thickness :- Index(config, s + 2);
    Ok(Limiter(firstwall, gap, thickness))
  }

  /** The root version's class bodies: each record starts at the previous
      record's cursor plus its field count. */
  function DecodeRoot(config: seq<real>): Result<RootParameters> {
    var outerRadius :- Index(config, 0);
    var height :- Index(config, 1);
    var nrRaw :- Index(config, 2);
    var n := Trunc(nrRaw);
    var layers :- LayersAll(config, n);
    var solenoid :- RootSolenoid(config, SolenoidStart(n));
    var ports :- RootPorts(config, PortStart(n));
    var limbs :- RootLimbs(config, LimbStart(n), outerRadius);
    var limiter :- RootLimiter(config, LimiterStart(n));
    Ok(RootParameters(RootContainment(outerRadius, height, n, layers), solenoid, ports, limbs, limiter))
  }

  /** At the chained cursors the root version reads each record exactly as
      the canonical version does at its absolute offsets, except that a
      limb height of 0.0 stays 0.0. */
  lemma RecordsAtCursors(config: seq<real>, n: int, outerRadius: real, solenoidHeight: real)
    ensures RootSolenoid(config, SolenoidStart(n)) == DecodeSolenoid(config, n)
    ensures RootPorts(config, PortStart(n)) == DecodePorts(config, n)
    ensures RootLimiter(config, LimiterStart(n)) == DecodeLimiter(config, n)
    ensures RootLimbs(config, LimbStart(n), outerRadius).Ok? == DecodeLimbs(config, n, outerRadius, solenoidHeight).Ok?
    ensures RootLimbs(config, LimbStart(n), outerRadius).Ok? ==>
      var q := RootLimbs(config, LimbStart(n), outerRadius).value;
      var p := DecodeLimbs(config, n, outerRadius, solenoidHeight).value;
      && q.(dims := p.dims) == p
      && q.dims.length == p.dims.length && q.dims.width == p.dims.width
      && p.dims.height == (if q.dims.height != 0.0 then q.dims.height else solenoidHeight)
  {
    CursorChain(n);
  }

  /** The chained cursors land on the canonical version's absolute offsets. */
  lemma CursorChain(n: int)
    ensures SolenoidStart(n) == 2 * n + 3
    ensures PortStart(n) == 2 * n + 6
    ensures LimbStart(n) == 2 * n + 9
    ensures LimiterStart(n) == 2 * n + 15
  {
  }

  /** Wherever the canonical decoder succeeds, the root decoder succeeds too
      and reads the same values for every record they share; the limb height
      differs only by the canonical zero-height default. */
  lemma RootAgreesWithCanonical(read: seq<real>)
    requires Decode(read).Ok?
    ensures DecodeRoot(read).Ok?
    ensures var p := Decode(read).value; var q := DecodeRoot(read).value;
      && q.containment == RootContainment(p.containment.outerRadius, p.containment.height,
                                          p.containment.nrLayers, p.containment.layers)
      && q.solenoid == p.solenoid
      && q.ports == p.ports
      && q.limiter == p.limiter
      && q.limbs.nrLimbs == p.limbs.nrLimbs
      && q.limbs.limbRadius == p.limbs.limbRadius
      && q.limbs.sphereRadius == p.limbs.sphereRadius
      && q.limbs.dims.length == p.limbs.dims.length
      && q.limbs.dims.width == p.limbs.dims.width
      && p.limbs.dims.height == (if q.limbs.dims.height != 0.0 then q.limbs.dims.height else p.solenoid.height)
  {
    var n := Trunc(read[2]);
    var p := Decode(read).value;
    RecordsAtCursors(read, n, read[0], p.solenoid.height);
  }

}
