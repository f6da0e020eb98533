/** The statistics file: `adding_statistics` appends one line of three
    numbers (time, speed, distance) per call, and `statistics_read` reads
    the file back into three parallel columns. */
module Statistics {
  import opened Wrappers
  import opened Text
  import opened Numbers

  /** One line of the statistics file. */
  datatype Sample<N> = Sample(time: N, speed: N, distance: N)

  /** The three lists `statistics_read` returns. */
  datatype Columns<N> = Columns(times: seq<N>, speeds: seq<N>, distances: seq<N>)

  /** The tokens of one line read as the loop body reads them: tokens 0, 1
      and 2 converted in that order, so the first of them that is missing
      or does not parse decides the error. Later tokens are ignored. */
  function ReadFields<N>(fmt: NumberFormat<N>, toks: seq<string>): Result<Sample<N>, LoadError> {
    var t :- NumberAt(fmt, toks, 0);
    var s :- NumberAt(fmt, toks, 1);
    var d :- NumberAt(fmt, toks, 2);
    Success(Sample(t, s, d))
  }

  /** One line of the statistics file, split on whitespace. */
  function ReadSample<N>(fmt: NumberFormat<N>, line: string): Result<Sample<N>, LoadError> {
    ReadFields(fmt, Split(line))
  }

  /** Token `i` of a sample line is present and parses. */
  predicate FieldReads<N>(fmt: NumberFormat<N>, toks: seq<string>, i: nat) {
    i < |toks| && fmt.parse(toks[i]).Some?
  }

  /** A sample line reads exactly when its first three tokens parse, and
      then its fields are those tokens; otherwise the error names the first
      position that is missing or does not parse. */
  lemma ReadFieldsSpec<N>(fmt: NumberFormat<N>, toks: seq<string>)
    ensures var r := ReadFields(fmt, toks);
      && (r.Success? <==> FieldReads(fmt, toks, 0) && FieldReads(fmt, toks, 1) && FieldReads(fmt, toks, 2))
      && (r.Success? ==>
        && Some(r.value.time) == fmt.parse(toks[0])
        && Some(r.value.speed) == fmt.parse(toks[1])
        && Some(r.value.distance) == fmt.parse(toks[2]))
      && (r.Failure? ==>
        && r.error.pos < 3
        && !FieldReads(fmt, toks, r.error.pos)
        && (r.error.pos >= |toks| ==> r.error == MissingField(r.error.pos))
        && (r.error.pos < |toks| ==> r.error == BadNumber(r.error.pos, toks[r.error.pos]))
        && forall i :: 0 <= i < r.error.pos ==> FieldReads(fmt, toks, i))
  {
    var r := ReadFields(fmt, toks);
    if r.Failure? {
      if r.error.pos == 1 {
        assert FieldReads(fmt, toks, 0);
      } else if r.error.pos == 2 {
        assert FieldReads(fmt, toks, 0) && FieldReads(fmt, toks, 1);
      }
    }
  }

  /** A blank line, even an empty last line, aborts the read at position 0. */
  lemma BlankSampleFails<N>(fmt: NumberFormat<N>, line: string)
    requires IsBlank(line)
    ensures ReadSample(fmt, line) == Failure(MissingField(0))
  {
    assert Split(line) == [];
  }

  /** `statistics_read` on the lines of a file: every line contributes one
      entry to each column, and the first line that does not read aborts
      the whole read with its error. */
  function ReadStats<N>(fmt: NumberFormat<N>, lines: seq<string>): Result<Columns<N>, LoadError>
    decreases |lines|
  {
    if |lines| == 0 then Success(Columns([], [], []))
    else
      var c :- ReadStats(fmt, lines[..|lines| - 1]);
      var x :- ReadSample(fmt, lines[|lines| - 1]);
      Success(Columns(c.times + [x.time], c.speeds + [x.speed], c.distances + [x.distance]))
  }

  /** The columns are parallel and line-aligned: entry `i` of each column
      is the matching field of line `i`. The read succeeds exactly when
      every line reads, and otherwise fails with the error of the first
      line that does not. */
  lemma {:induction false} ReadStatsSpec<N>(fmt: NumberFormat<N>, lines: seq<string>)
    ensures var r := ReadStats(fmt, lines);
      && (r.Success? <==> forall i :: 0 <= i < |lines| ==> ReadSample(fmt, lines[i]).Success?)
      && (r.Success? ==>
        && |r.value.times| == |lines| && |r.value.speeds| == |lines| && |r.value.distances| == |lines|
        && forall i :: 0 <= i < |lines| ==>
          ReadSample(fmt, lines[i]) == Success(Sample(r.value.times[i], r.value.speeds[i], r.value.distances[i])))
      && (r.Failure? ==> exists i :: (0 <= i < |lines| && ReadSample(fmt, lines[i]) == Failure(r.error) &&
        forall j :: 0 <= j < i ==> ReadSample(fmt, lines[j]).Success?))
    decreases |lines|
  {
    if |lines| > 0 {
      var init, last := lines[..|lines| - 1], lines[|lines| - 1];
      assert forall i :: 0 <= i < |init| ==> init[i] == lines[i];
      ReadStatsSpec(fmt, init);
      var x := ReadSample(fmt, last);
      match ReadStats(fmt, init)
      case Failure(e) =>
        assert ReadStats(fmt, lines) == Failure(e);
        var i :| 0 <= i < |init| && ReadSample(fmt, init[i]) == Failure(e) &&
          forall j :: 0 <= j < i ==> ReadSample(fmt, init[j]).Success?;
        assert ReadSample(fmt, lines[i]) == Failure(e);
      case Success(c) =>
        if x.Failure? {
          assert ReadStats(fmt, lines) == Failure(x.error);
          assert ReadSample(fmt, lines[|lines| - 1]) == Failure(x.error);
        } else {
          var c' := ReadStats(fmt, lines).value;
          assert c' == Columns(c.times + [x.value.time], c.speeds + [x.value.speed], c.distances + [x.value.distance]);
          forall i | 0 <= i < |lines|
            ensures ReadSample(fmt, lines[i]) == Success(Sample(c'.times[i], c'.speeds[i], c'.distances[i]))
          {
            if i < |init| {
              assert c'.times[i] == c.times[i] && c'.speeds[i] == c.speeds[i] && c'.distances[i] == c.distances[i];
            }
          }
        }
    }
  }

  /** The line `adding_statistics` appends: the three numbers printed and
      each followed by one space, then the newline. The speed and the
      distance arrive already computed. */
  function StatLine<N>(fmt: NumberFormat<N>, s: Sample<N>): string {
    Spaced([fmt.show(s.time), fmt.show(s.speed), fmt.show(s.distance)]) + "\n"
  }

  /** An appended line reads back as the sample it was made from. */
  lemma StatLineReadsBack<N(!new)>(fmt: NumberFormat<N>, s: Sample<N>)
    requires Faithful(fmt)
    ensures ReadSample(fmt, StatLine(fmt, s)) == Success(s)
    ensures IsFullLine(StatLine(fmt, s))
  {
    var toks := [fmt.show(s.time), fmt.show(s.speed), fmt.show(s.distance)];
    assert forall i :: 0 <= i < |toks| ==> IsToken(toks[i]);
    SplitSpaced(toks, "\n");
    ReadFieldsSpec(fmt, toks);
    SpacedHasNoNewline(toks);
  }

  /** Appending a sample to the file appends one entry to each column, and
      leaves a failed read failed the same way. */
  lemma AppendedSampleReadsBack<N(!new)>(fmt: NumberFormat<N>, lines: seq<string>, s: Sample<N>)
    requires Faithful(fmt)
    ensures ReadStats(fmt, lines + [StatLine(fmt, s)]) ==
      match ReadStats(fmt, lines)
      case Failure(e) => Failure(e)
      case Success(c) => Success(Columns(c.times + [s.time], c.speeds + [s.speed], c.distances + [s.distance]))
  {
    StatLineReadsBack(fmt, s);
    var all := lines + [StatLine(fmt, s)];
    assert all[..|all| - 1] == lines;
  }

  /** The file as a run of `adding_statistics` calls leaves it. */
  function StatLines<N>(fmt: NumberFormat<N>, samples: seq<Sample<N>>): (lines: seq<string>)
    ensures |lines| == |samples|
    ensures forall i :: 0 <= i < |samples| ==> lines[i] == StatLine(fmt, samples[i])
    decreases |samples|
  {
    if |samples| == 0 then [] else StatLines(fmt, samples[..|samples| - 1]) + [StatLine(fmt, samples[|samples| - 1])]
  }

  /** The columns of a list of samples. */
  function Unzip<N>(samples: seq<Sample<N>>): (c: Columns<N>)
    ensures |c.times| == |samples| && |c.speeds| == |samples| && |c.distances| == |samples|
    ensures forall i :: 0 <= i < |samples| ==>
      samples[i] == Sample(c.times[i], c.speeds[i], c.distances[i])
    decreases |samples|
  {
    if |samples| == 0 then Columns([], [], [])
    else
      var c := Unzip(samples[..|samples| - 1]);
      var s := samples[|samples| - 1];
      Columns(c.times + [s.time], c.speeds + [s.speed], c.distances + [s.distance])
  }

  /** Reading a statistics file written sample by sample gives back the
      samples, split into the three columns in writing order. */
  lemma {:induction false} StatsRoundTrip<N(!new)>(fmt: NumberFormat<N>, samples: seq<Sample<N>>)
    requires Faithful(fmt)
    ensures ReadStats(fmt, StatLines(fmt, samples)) == Success(Unzip(samples))
    decreases |samples|
  {
    if |samples| > 0 {
      var init := samples[..|samples| - 1];
      StatsRoundTrip(fmt, init);
      AppendedSampleReadsBack(fmt, StatLines(fmt, init), samples[|samples| - 1]);
    }
  }

  /** Once a prefix of the file fails to read, the whole file fails the
      same way. */
  lemma {:induction false} StatsPrefixFailure<N>(fmt: NumberFormat<N>, lines: seq<string>, i: nat)
    requires i <= |lines|
    requires ReadStats(fmt, lines[..i]).Failure?
    ensures ReadStats(fmt, lines) == ReadStats(fmt, lines[..i])
    decreases |lines|
  {
    if i < |lines| {
      var init := lines[..|lines| - 1];
      assert init[..i] == lines[..i];
      StatsPrefixFailure(fmt, init, i);
    } else {
      assert lines[..i] == lines;
    }
  }

  /** `statistics_read` as the source writes it: one pass per line that
      appends to the three lists, abandoned at the first line that does not
      read. */
  method LoadStatistics<N>(fmt: NumberFormat<N>, lines: seq<string>) returns (r: Result<Columns<N>, LoadError>)
    ensures r == ReadStats(fmt, lines)
  {
    var times: seq<N> := [];
    var speeds: seq<N> := [];
    var distances: seq<N> := [];
    for i := 0 to |lines|
      invariant ReadStats(fmt, lines[..i]) == Success(Columns(times, speeds, distances))
    {
      assert lines[..i + 1][..i] == lines[..i];
      match ReadSample(fmt, lines[i]) {
        case Failure(e) =>
          StatsPrefixFailure(fmt, lines, i + 1);
          return Failure(e);
        case Success(x) =>
          times := times + [x.time];
          speeds := speeds + [x.speed];
          distances := distances + [x.distance];
      }
    }
    assert lines[..|lines|] == lines;
    r := Success(Columns(times, speeds, distances));
  }
}
