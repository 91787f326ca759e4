/** The configuration reader: text lines in, an ordered stream of numbers out.
    The same filter appears in both builder versions. */
module ConfigReader {
  import opened Outcomes

  /** A line the reader passes over: its first character is a newline, `#` or `%`. */
  predicate Skipped(line: string) {
    |line| > 0 && (line[0] == '\n' || line[0] == '#' || line[0] == '%')
  }

  /** Every line has a first character and every line that is not skipped
      converts to a number: the condition under which reading succeeds. */
  predicate Readable(lines: seq<string>, parse: string -> Option<real>) {
    forall k :: 0 <= k < |lines| ==> |lines[k]| > 0 && (Skipped(lines[k]) || parse(lines[k]).Some?)
  }

  /** Positions of the lines the reader converts, in file order. */
  function Kept(lines: seq<string>): (ks: seq<nat>)
    ensures forall j :: 0 <= j < |ks| ==> ks[j] < |lines| && !Skipped(lines[ks[j]])
    ensures forall j, j' :: 0 <= j < j' < |ks| ==> ks[j] < ks[j']
    ensures forall k :: 0 <= k < |lines| && !Skipped(lines[k]) ==> k in ks
    decreases |lines|
  {
    if |lines| == 0 then []
    else
      var front := Kept(lines[..|lines| - 1]);
      if Skipped(lines[|lines| - 1]) then front else front + [|lines| - 1]
  }

  /** One iteration of the reader's loop: line `k` is looked at only when
      every earlier line was read without error. */
  function Step(front: Result<seq<real>>, k: nat, line: string, parse: string -> Option<real>): Result<seq<real>>
  {
    if front.Err? then front
    else if |line| == 0 then Err(EmptyLine(k))
    else if Skipped(line) then front
    else match parse(line)
      case None => Err(ValueError(k))
      case Some(v) => Ok(front.value + [v])
  }

  /** The reader of `FileReader`: lines are visited in file order, skipped
      lines are dropped and every other line is converted with `parse`
      (Python's `float`, None where it raises). An empty line raises on
      `line[0]`; the first failing line is the one reported. */
  function Read(lines: seq<string>, parse: string -> Option<real>): Result<seq<real>>
    decreases |lines|
  {
    if |lines| == 0 then Ok([])
    else
      var k := |lines| - 1;
      Step(Read(lines[..k], parse), k, lines[k], parse)
  }

  /** Reading fails exactly when some line is empty or some line that is not
      skipped does not convert; the failure names such a line. */
  lemma {:induction false} ReadSucceedsIff(lines: seq<string>, parse: string -> Option<real>)
    ensures Read(lines, parse).Ok? <==> Readable(lines, parse)
    ensures Read(lines, parse).Err? ==>
      match Read(lines, parse).error
      case EmptyLine(k) => k < |lines| && |lines[k]| == 0
      case ValueError(k) => k < |lines| && !Skipped(lines[k]) && parse(lines[k]).None?
      case _ => false
    decreases |lines|
  {
    if |lines| > 0 {
      var k := |lines| - 1;
      ReadSucceedsIff(lines[..k], parse);
      assert forall i :: 0 <= i < k ==> lines[..k][i] == lines[i];
    }
  }

  /** The numbers read are the conversions of the kept lines, one per kept
      line, in file order. */
  lemma {:induction false} ReadContents(lines: seq<string>, parse: string -> Option<real>)
    requires Read(lines, parse).Ok?
    ensures |Read(lines, parse).value| == |Kept(lines)|
    ensures forall j :: 0 <= j < |Kept(lines)| ==> parse(lines[Kept(lines)[j]]) == Some(Read(lines, parse).value[j])
    decreases |lines|
  {
    if |lines| > 0 {
      var k := |lines| - 1;
      ReadContents(lines[..k], parse);
      assert forall i :: 0 <= i < k ==> lines[..k][i] == lines[i];
    }
  }

  /** Once a prefix of the file fails, the whole file fails with the same error. */
  lemma {:induction false} FailurePersists(lines: seq<string>, j: nat, parse: string -> Option<real>)
    requires j <= |lines|
    requires Read(lines[..j], parse).Err?
    ensures Read(lines, parse) == Read(lines[..j], parse)
    decreases |lines| - j
  {
    if j < |lines| {
      var k := |lines| - 1;
      assert lines[..k][..j] == lines[..j];
      FailurePersists(lines[..k], j, parse);
      assert lines[..j] == lines[..k][..j];
    } else {
      assert lines[..j] == lines;
    }
  }

  /** The loop of `FileReader.reader`, appending to the output list as it goes. */
  method ReadNumbers(lines: seq<string>, parse: string -> Option<real>) returns (r: Result<seq<real>>)
    ensures r == Read(lines, parse)
  {
    var output: seq<real> := [];
    var i := 0;
    while i < |lines|
      invariant 0 <= i <= |lines|
      invariant Read(lines[..i], parse) == Ok(output)
    {
      assert lines[..i + 1][..i] == lines[..i];
      var line := lines[i];
      if |line| == 0 {
        FailurePersists(lines, i + 1, parse);
        return Err(EmptyLine(i));
      }
      if !Skipped(line) {
        match parse(line)
        case None =>
          FailurePersists(lines, i + 1, parse);
          return Err(ValueError(i));
        case Some(v) =>
          output := output + [v];
      }
      i := i + 1;
    }
    assert lines[..i] == lines;
    r := Ok(output);
  }

  /** Inserting a skipped line anywhere does not change whether the file
      reads, nor the numbers it yields. */
  lemma {:induction false} SkippedLineIsInvisible(a: seq<string>, c: string, b: seq<string>, parse: string -> Option<real>)
    requires Skipped(c)
    ensures Read(a + [c] + b, parse).Ok? <==> Read(a + b, parse).Ok?
    ensures Read(a + [c] + b, parse).Ok? ==> Read(a + [c] + b, parse).value == Read(a + b, parse).value
    decreases |b|
  {
    if |b| == 0 {
      assert a + [c] + b == a + [c];
      assert a + b == a;
      assert (a + [c])[..|a|] == a;
    } else {
      var b' := b[..|b| - 1];
      SkippedLineIsInvisible(a, c, b', parse);
      var l1 := a + [c] + b;
      var l2 := a + b;
      assert l1[..|l1| - 1] == a + [c] + b';
      assert l2[..|l2| - 1] == a + b';
      assert l1[|l1| - 1] == b[|b| - 1] == l2[|l2| - 1];
      assert Read(l1, parse) == Step(Read(a + [c] + b', parse), |l1| - 1, b[|b| - 1], parse);
      assert Read(l2, parse) == Step(Read(a + b', parse), |l2| - 1, b[|b| - 1], parse);
    }
  }
}
