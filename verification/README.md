# STOK parameter model and placement arithmetic, in Dafny

STOK builds the CAD model of a tokamak: a stack of rectangular tori (the
containment layers) around a central solenoid, cut by equatorial port openings
and a divertor slot, with limiter walls behind the ports, transformer limbs with
pairs of detector spheres, a bounding box and a plasma source. Every dimension
comes from one flat list of numbers read from a configuration file.

This project models that list and the arithmetic that turns it into solids. The
geometry kernel is left out: a solid is a record of the numbers the builder
passes to the kernel.

- **Outcomes** holds `Result`/`Option` and the Python exceptions the code can raise.
- **Python** holds list indexing with negative wrap-around and `int()`, which truncates toward zero.
- **ConfigReader** is `FileReader.reader`. It drops blank, `#` and `%` lines and converts the rest with `float`, passed in as a parameter.
- **Parameters** holds the parameter records and the running sums of layer thicknesses.
- **Schema** holds:
  - the decoder of `src/stok/stok_modules.py`, where every record is read at `2n+k` from the layer count `n`;
  - its inverse encoder and the round trips between them;
  - the decoder of the older `stok_modules.py`, which chains a start cursor from record to record, and its agreement with the newer one.
- **Solids** holds symbolic tori, prisms, boxes, spheres and rotations about the z axis.
- **LayerStack** holds `create_torus`, `containment_layer` and `containment`.
- **DivertorBuild** holds `centering_of_divertor` (a loop, as a method), the divertor cutter and the divertor walls.
- **Features** holds the port openings, the limiter walls, the transformer limbs, the sphere pairs, the bounding box and the containment variants with cuts.
- **Plasma** holds the plasma source as written and as evidently intended.
- **Stok** holds the type check of the `STOK` constructor.
- **Chunker** and **Rectok** hold the older `build.py` builder:
  - its chunking `parsing` loop;
  - its thickness-sum table;
  - its per-layer outlines, as written and as stacked consistently;
  - its port shapes and its plasma.

Geometry conventions:
- `cylinder(h, r)` is centred on z = 0, so a torus from `create_torus` spans `[-h/2, h/2]`.
- `rotate((0,0,1),(0,0,-1),a)` turns clockwise seen from above (`Turn(Down, a)`).
- `rotate((0,0,0),(0,0,1),a)` turns counter-clockwise (`Turn(Up, a)`).
- Python's `range(1, n)` after a first copy gives `max(n, 1)` copies.

Facts about the code that shape the model:
- The divertor cutter is moved down by half its height, so it spans `[-h_s, 0]`.
- The code validates no configuration: nothing checks for positive thicknesses, a non-degenerate cavity, a divertor narrower than the cavity, or non-negative gaps. The lemmas state, as if-and-only-if conditions, when each geometric relation holds (`DivertorBuild.DivertorCutterFits`, `DivertorBuild.DivertorWallsInsideCutter`, `Features.OpeningPiercesStack`, `LayerStack.StackWellFormed`).
- The plasma source is not set back from the innermost cavity by the distance; see Findings.

The old root `stok_modules.py` builds the containment layers and the port openings with the same formulas as the newer file:
- `containment_layer` at stok_modules.py:227-262;
- `opening`/`openings` at stok_modules.py:162-204, with the gap fixed at 0.

So `LayerStack.ContainmentLayer` and `Features.Openings` model both. Two rows below cite the root lines.

## Model

| member | source | states |
|---|---|---|
| ConfigReader.ReadSucceedsIff | src/stok/stok_modules.py:22-37 | reading succeeds exactly when every line is non-empty and every kept line converts; a failure names an empty line or a kept line that does not convert |
| ConfigReader.ReadContents | src/stok/stok_modules.py:30-37 | the numbers read are, in file order, the conversions of exactly the lines not starting with a newline, `#` or `%` |
| ConfigReader.FailurePersists | src/stok/stok_modules.py:32-36 | once a line raises, no later line changes the outcome: the first failure is the one reported |
| ConfigReader.SkippedLineIsInvisible | src/stok/stok_modules.py:33-34 | inserting a comment or blank-marker line anywhere changes neither whether the file reads nor the numbers it yields |
| ConfigReader.ReadNumbers | stok_modules.py:21-36 | the loop over the file's lines yields the same outcome as the line-by-line reference definition |
| Python.Trunc | src/stok/stok_modules.py:83 | `int()` of a float rounds toward zero: below x for positive x, above it for negative x, within one |
| Python.TruncOfInt | src/stok/stok_modules.py:62 | `int()` of an integral value is that value, so a stored count survives re-reading |
| Parameters.CumulativeMonotone | src/stok/stok_modules.py:643-645 | the running thickness sum never decreases with non-negative thicknesses and strictly grows with positive ones |
| Schema.LayersAll | src/stok/stok_modules.py:52-66 | the layer loop succeeds iff the list holds the last pair it reads; it yields max(n,0) layers, layer k being the values at 3+2k and 4+2k |
| Schema.DecodeLayers | src/stok/stok_modules.py:62-85 | a decoded containment records `int(read[2])` as its count and has that many layers (none for a negative count), layer k being the values at 3+2k and 4+2k |
| Schema.LayoutContiguous | src/stok/stok_modules.py:96-185 | the layout's sections (the one the decoder follows, by `DecodeFollowsLayout`) start at 0 and tile positions 0 .. 2n+22 consecutively without overlap |
| Schema.DecodeSucceedsIff | src/stok/stok_modules.py:80-185 | with a non-negative count, decoding succeeds iff the list has at least 2n+22 values (the last index read is 2n+21) |
| Schema.DistanceAliasesDivertor | src/stok/stok_modules.py:84 | with exactly 2n+22 values, `read[-1]` is the divertor thickness, so the plasma distance and the divertor thickness are the same number |
| Schema.SectionsRead | src/stok/stok_modules.py:96-185 | each record reads its fields from positions 2n+3 … 2n+21; the limb height falls back to the solenoid height when it is 0 |
| Schema.DecodeReads | src/stok/stok_modules.py:80-185 | with a non-negative count and at least 2n+22 values, decoding succeeds; the containment is read[0], read[1], n, read[-1] with layer k = (read[3+2k], read[4+2k]); the solenoid is read[2n+3..2n+5], ports read[2n+6..2n+8] (count truncated), limbs read[2n+9..2n+14] (radius offset from read[0], a zero height replaced by read[2n+4]), limiter read[2n+15..2n+17], divertor read[2n+18..2n+21] |
| Schema.DecodeFollowsLayout | src/stok/stok_modules.py:80-185 | every field the decoder produces is read from its own record's section of the layout table, field j at the section's start + j, and a stream of exactly 2n+23 values has the plasma distance in the last section |
| Schema.EncodePositions | src/stok/stok_modules.py:80-185 | the encoder writes each field at the position the decoder reads it from, and the distance last |
| Schema.DecodeEncode | src/stok/stok_modules.py:52-185 | any encodable parameter set (counts agree, integral counts, non-zero limb height) survives encoding and decoding unchanged |
| Schema.EncodeDecode | src/stok/stok_modules.py:52-185 | a list of length 2n+23 with integral counts and a non-zero limb height is re-encoded to exactly itself after decoding |
| Schema.CursorChain | stok_modules.py:73-137 | the chained start cursors of the old decoder land at 2n+3, 2n+6, 2n+9 and 2n+15 |
| Schema.RecordsAtCursors | stok_modules.py:73-141 | at those cursors the old record readers read the same fields as the new decoder; the limb heights agree except that the old one has no solenoid-height default |
| Schema.RootAgreesWithCanonical | stok_modules.py:58-141 | whenever the new decoder succeeds the old one does too, and every field agrees, except that the old one reads a zero limb height literally |
| LayerStack.ShrunkByClosedForm | src/stok/stok_modules.py:339-342 | shrinking layer by layer equals shrinking once by the running sums: inner radius + inner sum, outer radius − outer sum, height − 2 × outer sum |
| LayerStack.LayerBounds | src/stok/stok_modules.py:310-353 | layer i is the ring between stack boundaries i and i+1, each boundary given in closed form by the sums of the layers before it (empty sums for layer 0) |
| LayerStack.LayerNesting | stok_modules.py:227-262 | adjacent layers share a surface: the inside of layer i is the outside of layer i+1, so no gaps and no overlaps |
| LayerStack.LayersStrictlyNest | src/stok/stok_modules.py:310-353 | with positive thicknesses every later layer lies strictly inside every earlier one in outer radius, inner radius and height |
| LayerStack.StackWellFormed | src/stok/stok_modules.py:288-353 | with non-negative thicknesses and a proper cavity, every torus of every layer is a proper ring |
| LayerStack.Containment | src/stok/stok_modules.py:355-368 | one shell per layer, in order, each between consecutive boundaries, adjacent shells touching |
| DivertorBuild.CentringOfDivertor | src/stok/stok_modules.py:631-651 | the two values returned are the inner and outer radius of the cavity left inside the whole stack |
| DivertorBuild.DivertorCentred | src/stok/stok_modules.py:653-673 | the cutter's mid-radius is equidistant from both cavity walls and the cutter is twice the divertor width wide |
| DivertorBuild.DivertorWallsInsideCutter | src/stok/stok_modules.py:675-730 | both divertor walls have the same radii, and they lie within the cutter's slot exactly when the divertor gap is non-negative |
| DivertorBuild.DivertorCutterFits | src/stok/stok_modules.py:662-671 | the cutter stays inside the cavity radially exactly when the divertor width is at most half the cavity's radial extent |
| DivertorBuild.DivertorStacked | src/stok/stok_modules.py:689-728 | the first wall sits directly under the cavity floor, the back wall directly under the first wall, each as thick as its parameter |
| DivertorBuild.DivertorCutterPiercesFloor | src/stok/stok_modules.py:667-671 | the cutter spans z from −h_s to 0, and it reaches through the containment floor into the cavity exactly when h_s ≥ H/2 and the outer stack thickness ≤ H/2 |
| Features.OpeningPiercesStack | src/stok/stok_modules.py:232-266 | a port cutter starts outside the outer wall and ends inside the stack's inner surface exactly when the stack has positive thickness, overshooting it by 0.4 of that thickness; its cross-section is the port less the gap |
| Features.PortArrayShape | src/stok/stok_modules.py:268-286 | the openings are max(n,1) copies of one cutter, the first unturned |
| Features.PortBearing | stok_modules.py:189-204 | port i of n is turned clockwise by i·360/n, within [0, 360), and the next one lies 360/n further |
| Features.PortArrayBearings | src/stok/stok_modules.py:279-284 | port bearings are i·360/n, strictly increasing, evenly spaced by 360/n, in [0,360), the last one 360/n short of a full turn |
| Features.LimiterWindowsFollowPorts | src/stok/stok_modules.py:450-470 | the limiter windows are the port cutters at the same bearings, each smaller by the limiter gap |
| Features.LimiterFlush | src/stok/stok_modules.py:472-522 | the limiter first wall starts at the cavity's outer wall; the back wall starts where the first wall ends; thicknesses, heights, centring and windows are as configured |
| Features.SpheresTouchLimb | src/stok/stok_modules.py:553-576 | the two spheres of a pair sit on either side of the limb box, each tangent to its face, at the limb's radius |
| Features.LimbTurn | src/stok/stok_modules.py:436-446 | limb i of n ends up turned counter-clockwise by i·360/n − 22.5 degrees |
| Features.SphereTurn | src/stok/stok_modules.py:586-596 | sphere pair j of n is turned clockwise by j·360/n + 22.5 degrees, both spheres alike |
| Features.LimbsAndSpheresShape | src/stok/stok_modules.py:415-448 | there are max(n,1) identical limb boxes and max(n,0) identical sphere pairs |
| Features.SpheresFollowLimbs | src/stok/stok_modules.py:578-598 | with n ≥ 1, limb i and sphere pair (n−i) mod n stand at the same bearing modulo a full turn, a bijection between limbs and pairs |
| Features.LimbMeetsSpheres | src/stok/stok_modules.py:436-446 | limb i's net turn equals its mirrored sphere pair's net turn, up to one full turn |
| Features.BoundingBoxUniformWall | src/stok/stok_modules.py:524-551 | the bounding box's inner and outer boxes share a centre, differ by the bbox thickness on every axis, and are square in plan |
| Features.CutContainment | src/stok/stok_modules.py:370-413 | every containment variant keeps one layer per stack layer; layer i is the shell between boundaries i and i+1, the same shell `containment_layer(i)` builds, cut by the openings and/or the divertor cutter as selected |
| Features.CutPortsPierceLayer | src/stok/stok_modules.py:378-381 | with non-negative outer thicknesses and a stack of positive thickness, every port cutter on layer i starts outside that layer's outer surface and ends inside its inner surface, with the port's cross-section |
| Features.CutDivertorPiercesFloor | src/stok/stok_modules.py:394-396 | layer i's floor runs from −H/2 plus the thickness before it to −H/2 plus the thickness through it, and the divertor cutter on it runs through that whole floor exactly when h_s reaches below the floor and the floor's top is at or below z = 0 |
| Features.CutDivertorWithinLayer | src/stok/stok_modules.py:409-411 | with non-negative thicknesses and a divertor that fits the cavity radially, the divertor cutter lies within the radial span of every layer |
| Plasma.PlasmaDoubleCountsLastLayer | src/stok/stok_modules.py:616-627 | the code fails iff there are no layers; otherwise it is the intended plasma shrunk once more by the last layer, equal to it only for a zero-thickness last layer |
| Plasma.PlasmaCounterexample | src/stok/stok_modules.py:616-627 | for a concrete two-layer tokamak the code's plasma edge is twenty units from the wall instead of five |
| Plasma.PlasmaClearance | src/stok/stok_modules.py:600-629 | the intended plasma keeps the configured distance from all four cavity walls and lies inside the cavity for a non-negative distance |
| Plasma.PlasmaInInnermostLayer | src/stok/stok_modules.py:612-619 | the cavity the plasma is set back from is the inside of the innermost containment layer |
| Stok.MakeStok | src/stok/stok_modules.py:192-216 | the constructor accepts exactly a tuple of the six record types in order, keeping those records; any other tuple raises TypeError |
| Stok.MakeStokOfPack | src/stok/stok_modules.py:204-212 | packing any parameter set and constructing from it gives that parameter set back |
| Chunker.ChunkStartClosedForm | build.py:68-74 | chunk j starts at skip + j·(width+1) |
| Chunker.Parsing | build.py:59-75 | `parsing` cuts the values after `skip` into consecutive chunks starting every width+1 positions, the last one possibly shorter; the chunks concatenate back to exactly those values |
| Rectok.RowOfChunk | build.py:329-340 | a table row exists iff the chunk has at least five values, its columns being values 1 to 4 |
| Rectok.TableSums | build.py:145-165 | on parsed rows, the four column sums exist iff the table has at least nr_layers rows; otherwise IndexError at the table's end |
| Rectok.RowsOfChunks | build.py:151-165 | the rows read from the first k chunks are exactly what `RowOf` reads from each chunk |
| Rectok.ColumnOfOutcome | build.py:151-153 | one column loop over the raw chunks succeeds iff each of the first k rows exists and holds the column; a short row met first raises IndexError at the column, a table that runs out first raises it at the table's length |
| Rectok.ColumnOfRows | build.py:151-165 | a successful column loop sums that column of the rows read from the chunks |
| Rectok.ChunkSumsOutcome | build.py:145-165 | on the raw chunks, the four sums exist iff there are at least nr_layers chunks of five values, and then equal the row-level sums; a chunk of fewer than four values raises IndexError(3) in the outer loop, a table that runs out raises it at its length, and a four-value chunk raises IndexError(4) in the inner loop |
| Rectok.ColumnSumOfLayers | build.py:151-165 | on a table derived from a layer stack the outer, upper and lower sums are the outer running sum and the inner sum is the inner one |
| Rectok.ProfilesShape | build.py:308-370 | an outline pair exists iff the index is within the table (negatively wrapped); the outer one is a closed rectangle from the solenoid plus the inner sums to the outer radius less the outer sums, centred vertically; the inner one is inset by the row's four thicknesses |
| Rectok.ProfilesNestRadially | build.py:342-362 | radially, layer i's inner outline has exactly the radii of layer i+1's outer outline |
| Rectok.ProfilesNestVerticallyOnlyWhenSymmetric | build.py:344-362 | (as written) layer i's inner top meets layer i+1's outer top exactly when layer i's upper and lower thicknesses are equal |
| Rectok.ProfilesGapExample | build.py:344-362 | for a concrete two-layer table, layer 0's solid spans z 280..300 at the top and −300..−290 at the bottom while layer 1's outer outline spans −285..285: a 5-unit overlap at the top and a 5-unit gap above layer 0's floor |
| Rectok.StackedProfilesNest | build.py:308-370 | the corrected outlines nest on all four sides: each layer's inside is the next layer's outside |
| Rectok.StackedAgreesWhenSymmetric | build.py:327-362 | when every layer before the index has equal upper and lower thickness, the corrected outlines are the ones the code builds |
| Rectok.PortCrossSection | build.py:218-231 | a port is side × side, or longer in z or y for the rectangle shapes; any other shape name raises |
| Rectok.RectokPlasmaClearance | build.py:663-685 | the build.py plasma keeps the distance from the stacked cavity radially, is twice the distance less tall, and is centred (lower−upper)/2 below that cavity's centre |
| Rectok.RectokPlasmaAgrees | build.py:663-685 | on a table derived from a layer stack, the build.py plasma is the corrected plasma of the STOK builder |
| Plasma.PlasmaClosedForm | src/stok/stok_modules.py:612-619 | the corrected plasma in closed form: solenoid radius + inner sum + d, outer radius − outer sum − d, height − 2·outer sum − 2d, centred at z = 0 |

## Left out

- The geometry kernel is not modelled. Workplanes, extrusion, revolution, boolean union/cut/intersect, STL export and `central_solenoid` (a single cylinder) are kept as symbolic records of their parameters.
- Floating point is not modelled: all arithmetic is on exact reals. `float()` is a parameter of the reader, and rounding in `i*360/n` is ignored.
- File access (`open`) is not modelled: the reader takes the file's lines as a sequence.
- The configuration path is not modelled, and each dataclass re-reading the file is modelled as a single read.
- In `build.py`, `reader`/`reader_plain` call `isinstance` with one argument, which always raises. The model takes the reader's output as given.
- In `build.py`, `openings`, `port`, `transformer_limb`, `limiter`, `spheres` and `bounding_box` place solids with `cos`/`sin`. Only their port-shape dispatch is modelled, because trigonometry over reals is out of reach here.
- In `build.py`, `LimbParameters.limb_offset` compares a float with `"yes"`, so it is always 0, and `LimiterParameters` reads its first-wall thickness from the table. Neither feeds a modelled operation.
- In the old `stok_modules.py`, `port`, `limiter`, `spheres`, `bounding_box` and `plasma_source` use names the file never defines, so they are not modelled.
- `stok_reloaded.py` and `test.py` are drivers that only call the builder.
- Parameter records built by hand with `nr_layers` different from the number of layers are not modelled. Every feature iterates over the layer sequence, which the decoder always sizes to max(nr_layers, 0) (`Schema.DecodeLayers`).
- Schema.EncodeDecode: covers only lists of exactly 2n+23 values with integral counts and a non-zero limb height. Values past the last one read, a fractional count and a zero limb height (replaced by the solenoid height) are not recoverable.
- Schema.RootAgreesWithCanonical: compares the two decoders only where the newer one succeeds. The old one also accepts lists too short for the divertor record, which it does not have.
- Rectok.ContainmentProfiles: takes rows already read by `RowOf`, so the IndexError a chunk of fewer than five values raises inside the profile loop is not modelled. `Rectok.ChunkSumsOutcome` models that error for the thickness sums.
- Rectok.RectokPlasmaClearance: states the vertical relation as a height and a centre offset, not as containment. The build.py plasma is centred, while the cavity is centred only when the upper and lower totals agree.
- Features.SpheresFollowLimbs: relates bearings modulo a full turn for n ≥ 1. With n ≤ 0 there is one limb and no sphere pair.

## Findings

| source | as written | input that shows it | evidently intended | confidence | as-written member | corrected member |
|---|---|---|---|---|---|---|
| src/stok/stok_modules.py:616-627 | `plasma_source` shrinks the ring by every layer, then shrinks it by `layers[-1]` again before applying the distance | R=500, H=600, layers (20,10),(15,5), r_s=100, d=5: the cavity's outer wall is at 465 but the plasma ends at 445 | the cavity left by all layers, set back by the distance on every side (outer edge 460) | not executed | Plasma.PlasmaSourceAsWritten | Plasma.PlasmaSource |
| build.py:344-362 | `containment_constructor` centres each layer's outer outline vertically but insets the inner one by different upper and lower thicknesses | rows (upper,lower,outer,inner) = (20,10,15,5),(10,10,10,5), R=500, H=600, r_s=100: layer 1's outer outline spans z −285..285 while layer 0's cavity spans −290..280, so the layers overlap by 5 at the top and leave a 5-unit gap at the bottom | consecutive layers share their boundary, each outline offset by the upper and lower totals separately | not executed | Rectok.ContainmentProfiles | Rectok.StackedProfiles |
