/** The list chunker of build.py's `FileReader.parsing`, which splits the
    values read from a configuration file into the rows of a table. */
module Chunker {

  /** Where chunk `j` starts: `width + 1` values after the previous one,
      the first at `skip`. */
  function ChunkStart(skip: nat, width: nat, j: nat): (s: nat)
    ensures s >= skip
    decreases j
  {
    if j == 0 then skip else ChunkStart(skip, width, j - 1) + width + 1
  }

  /** Chunk `j` starts `j*(width+1)` values after `skip`. */
  lemma {:induction false} ChunkStartClosedForm(skip: nat, width: nat, j: nat)
    ensures ChunkStart(skip, width, j) == skip + j * (width + 1)
    decreases j
  {
    if j > 0 {
      ChunkStartClosedForm(skip, width, j - 1);
    }
  }

  function Min(a: int, b: int): int {
    if a <= b then a else b
  }

  /** Chunk `j` as a Python slice `values[s:s+width+1]`, cut short at the end. */
  function ChunkAt<T>(values: seq<T>, skip: nat, width: nat, j: nat): seq<T>
    requires ChunkStart(skip, width, j) <= |values|
  {
    var s := ChunkStart(skip, width, j);
    values[s..Min(s + width + 1, |values|)]
  }

  /** The chunks laid end to end. */
  function Flatten<T>(chunks: seq<seq<T>>): seq<T>
    decreases |chunks|
  {
    if |chunks| == 0 then [] else Flatten(chunks[..|chunks| - 1]) + chunks[|chunks| - 1]
  }

  lemma ChunkStartStep(skip: nat, width: nat, j: nat)
    ensures ChunkStart(skip, width, j + 1) == ChunkStart(skip, width, j) + width + 1
  {
  }

  lemma FlattenAppend<T>(chunks: seq<seq<T>>, c: seq<T>)
    ensures Flatten(chunks + [c]) == Flatten(chunks) + c
  {
    assert (chunks + [c])[..|chunks|] == chunks;
  }

  /** Appending the chunk that starts at `i` keeps the chunks equal to the
      values from `skip` up to the next start. */
  lemma FlattenGrows<T>(values: seq<T>, skip: nat, width: nat, chunks: seq<seq<T>>, i: nat)
    requires skip <= i < |values|
    requires i == ChunkStart(skip, width, |chunks|)
    requires Flatten(chunks) == values[skip..i]
    ensures FlatUpTo(values, skip, width, chunks + [ChunkAt(values, skip, width, |chunks|)])
  {
    var c := ChunkAt(values, skip, width, |chunks|);
    FlattenAppend(chunks, c);
    ChunkStartStep(skip, width, |chunks|);
    assert values[skip..i] + values[i..Min(i + width + 1, |values|)] == values[skip..Min(i + width + 1, |values|)];
  }

  /** The chunks so far are the slices starting at chunk starts inside the list. */
  ghost predicate ChunksFrom<T>(values: seq<T>, skip: nat, width: nat, chunks: seq<seq<T>>) {
    forall j :: 0 <= j < |chunks| ==>
      ChunkStart(skip, width, j) < |values| && chunks[j] == ChunkAt(values, skip, width, j)
  }

  /** The chunks so far, laid end to end, are the values from `skip` up to
      the next chunk start. */
  ghost predicate FlatUpTo<T>(values: seq<T>, skip: nat, width: nat, chunks: seq<seq<T>>)
    requires skip <= |values|
  {
    Flatten(chunks) == values[skip..Min(ChunkStart(skip, width, |chunks|), |values|)]
  }

  lemma ChunksGrow<T>(values: seq<T>, skip: nat, width: nat, chunks: seq<seq<T>>, i: nat)
    requires ChunksFrom(values, skip, width, chunks)
    requires i == ChunkStart(skip, width, |chunks|) < |values|
    ensures ChunksFrom(values, skip, width, chunks + [ChunkAt(values, skip, width, |chunks|)])
  {
    var next := chunks + [ChunkAt(values, skip, width, |chunks|)];
    forall j | 0 <= j < |next|
      ensures ChunkStart(skip, width, j) < |values| && next[j] == ChunkAt(values, skip, width, j)
    {
      if j < |chunks| {
        assert next[j] == chunks[j];
      }
    }
  }

  /** The state of the parsing loop at position `i` with counter `count`:
      the next chunk starts `width - count` values on, and the chunks so far
      are the slices before it and lay out the values from `skip` to it. */
  ghost predicate Scanned<T>(values: seq<T>, skip: nat, width: nat, chunks: seq<seq<T>>, i: nat, count: int) {
    && skip <= i <= |values|
    && 0 <= count <= width
    && i + width - count == ChunkStart(skip, width, |chunks|)
    && ChunksFrom(values, skip, width, chunks)
    && FlatUpTo(values, skip, width, chunks)
  }

  lemma ScanStep<T>(values: seq<T>, skip: nat, width: nat, chunks: seq<seq<T>>, i: nat, count: int)
    requires Scanned(values, skip, width, chunks, i, count) && i < |values|
    ensures count == width ==> Scanned(values, skip, width, chunks + [values[i..Min(i + width + 1, |values|)]], i + 1, 0)
    ensures count != width ==> Scanned(values, skip, width, chunks, i + 1, count + 1)
  {
    if count == width {
      ChunksGrow(values, skip, width, chunks, i);
      FlattenGrows(values, skip, width, chunks, i);
      ChunkStartStep(skip, width, |chunks|);
    }
  }

  lemma ScanDone<T>(values: seq<T>, skip: nat, width: nat, chunks: seq<seq<T>>, i: nat, count: int)
    requires Scanned(values, skip, width, chunks, i, count) && i == |values|
    ensures ChunkStart(skip, width, |chunks|) >= |values|
    ensures |chunks| > 0 ==> ChunkStart(skip, width, |chunks| - 1) < |values|
    ensures forall j :: 0 <= j < |chunks| ==>
      ChunkStart(skip, width, j) < |values| && chunks[j] == ChunkAt(values, skip, width, j)
    ensures Flatten(chunks) == values[Min(skip, |values|)..]
  {
  }

  /** `FileReader.parsing`: from position `skip` on, a counter starting at
      `width` marks every `width + 1`-th value, and each marked value starts
      a chunk of the next `width + 1` values. The chunks start at every
      chunk start inside the list, each is that slice (shorter at the end),
      and together they are exactly the values after `skip`. */
  method Parsing<T>(values: seq<T>, skip: nat, width: nat) returns (chunks: seq<seq<T>>)
    ensures ChunkStart(skip, width, |chunks|) >= |values|
    ensures |chunks| > 0 ==> ChunkStart(skip, width, |chunks| - 1) < |values|
    ensures forall j :: 0 <= j < |chunks| ==>
      ChunkStart(skip, width, j) < |values| && chunks[j] == ChunkAt(values, skip, width, j)
    ensures Flatten(chunks) == values[Min(skip, |values|)..]
  {
    chunks := [];
    if skip >= |values| {
      return;
    }
    var count := width;
    var i := skip;
    while i < |values|
      invariant Scanned(values, skip, width, chunks, i, count)
    {
      ScanStep(values, skip, width, chunks, i, count);
      if count == width {
        chunks := chunks + [values[i..Min(i + width + 1, |values|)]];
        count := 0;
      } else {
        count := count + 1;
      }
      i := i + 1;
    }
    ScanDone(values, skip, width, chunks, i, count);
  }
}
