/** The scene-file reader: `read_space_objects_data_from_file` with its two
    field parsers `parse_star_parameters` and `parse_planet_parameters`.
    The file is the sequence of its lines as Python iterates them (each
    line may still carry its newline). */
module SceneReader {
  import opened Wrappers
  import opened Text
  import opened Numbers
  import opened Bodies

  /** What one line contributes to the load. */
  datatype LineOutcome<N> =
    | Skipped                        // blank or comment line
    | Unknown                        // unrecognised keyword: one diagnostic, nothing appended
    | Parsed(body: Body<N>)          // a star or planet record
    | Malformed(error: LoadError)    // the exception that aborts the load

  /** Result of a complete load: the records in file order and the number
      of "Unknown space object" diagnostics printed on the way. */
  datatype Scene<N> = Scene(objects: seq<Body<N>>, warnings: nat)

  /** Empty after stripping (by `Text.Strip`'s contract, the same as being
      blank), or a `#` as the very first character of the raw line, so an
      indented `#` does not make a comment. */
  predicate IsSkipped(line: string) {
    IsBlank(line) || line[0] == '#'
  }

  /** The skip test exactly as the loop writes it: nothing is left after
      `strip()`, or the raw line starts with `#`. */
  lemma SkipTestIsStrip(line: string)
    ensures IsSkipped(line) <==> |Strip(line)| == 0 || line[0] == '#'
  {
  }

  /** The lower-cased first token of a line that is not skipped. */
  function Keyword(line: string): string
    requires !IsSkipped(line)
  {
    Lower(Split(line)[0])
  }

  /** A line that yields a star or planet record, or aborts trying. */
  predicate IsRecognised(line: string) {
    !IsSkipped(line) && KindOf(Keyword(line)).Some?
  }

  /** Token positions converted with `float()`: 1 to 7 except the color. */
  predicate IsNumericField(i: nat) {
    1 <= i <= 7 && i != 2
  }

  /** Reading field `i` of the token list raises: the position is missing,
      or the token there is numeric and does not parse. */
  predicate FieldFails<N>(fmt: NumberFormat<N>, toks: seq<string>, i: nat) {
    i >= |toks| || (IsNumericField(i) && fmt.parse(toks[i]).None?)
  }

  /** The exception raised at a failing field position. */
  function FieldError(toks: seq<string>, i: nat): LoadError {
    if i >= |toks| then MissingField(i) else BadNumber(i, toks[i])
  }

  /** The seven positional fields of a star or planet line, read left to
      right as the source does: token 1 is R, 2 the raw color, 3 m, 4 x,
      5 y, 6 Vx and 7 Vy. Both kinds share the mapping, so the kind is a
      parameter. */
  function ParseBody<N>(fmt: NumberFormat<N>, kind: Kind, toks: seq<string>): Result<Body<N>, LoadError> {
    var R :- NumberAt(fmt, toks, 1);
    var color :- TokenAt(toks, 2);
    var m :- NumberAt(fmt, toks, 3);
    var x :- NumberAt(fmt, toks, 4);
    var y :- NumberAt(fmt, toks, 5);
    var Vx :- NumberAt(fmt, toks, 6);
    var Vy :- NumberAt(fmt, toks, 7);
    Success(Body(kind, R, color, m, x, y, Vx, Vy))
  }

  /** A record line parses exactly when it has at least eight tokens and
      each numeric field parses; the record then takes its fields by
      position and ignores every later token. Otherwise the error is that
      of the first field, from left to right, that is missing or does not
      parse. */
  lemma ParseBodySpec<N>(fmt: NumberFormat<N>, kind: Kind, toks: seq<string>)
    ensures var r := ParseBody(fmt, kind, toks);
      && (r.Success? <==> |toks| >= 8 && forall i :: 1 <= i <= 7 ==> !FieldFails(fmt, toks, i))
      && (r.Success? ==>
        && r.value.kind == kind
        && Some(r.value.R) == fmt.parse(toks[1])
        && r.value.color == toks[2]
        && Some(r.value.m) == fmt.parse(toks[3])
        && Some(r.value.x) == fmt.parse(toks[4])
        && Some(r.value.y) == fmt.parse(toks[5])
        && Some(r.value.Vx) == fmt.parse(toks[6])
        && Some(r.value.Vy) == fmt.parse(toks[7]))
      && (r.Failure? ==>
        && 1 <= r.error.pos <= 7
        && FieldFails(fmt, toks, r.error.pos)
        && r.error == FieldError(toks, r.error.pos)
        && forall i :: 1 <= i < r.error.pos ==> !FieldFails(fmt, toks, i))
  {
    var f1, f2, f3, f4 := FieldFails(fmt, toks, 1), FieldFails(fmt, toks, 2), FieldFails(fmt, toks, 3), FieldFails(fmt, toks, 4);
    var f5, f6, f7 := FieldFails(fmt, toks, 5), FieldFails(fmt, toks, 6), FieldFails(fmt, toks, 7);
  }

  function Lift<N>(r: Result<Body<N>, LoadError>): LineOutcome<N> {
    match r
    case Success(b) => Parsed(b)
    case Failure(e) => Malformed(e)
  }

  /** One pass of the loop body of the reader. */
  function ReadLine<N>(fmt: NumberFormat<N>, line: string): LineOutcome<N> {
    if IsSkipped(line) then Skipped
    else match KindOf(Keyword(line))
      case Some(k) => Lift(ParseBody(fmt, k, Split(line)))
      case None => Unknown
  }

  /** How one line is classified: skipped exactly when blank or a raw
      comment; otherwise the lower-cased keyword `star` or `planet` selects
      the kind whose fields are parsed, and any other keyword is unknown. */
  lemma ReadLineDispatch<N>(fmt: NumberFormat<N>, line: string)
    ensures ReadLine(fmt, line).Skipped? <==> IsSkipped(line)
    ensures ReadLine(fmt, line).Unknown? <==> !IsSkipped(line) && Keyword(line) != Tag(Star) && Keyword(line) != Tag(Planet)
    ensures forall k :: !IsSkipped(line) && Keyword(line) == Tag(k) ==>
      ReadLine(fmt, line) == Lift(ParseBody(fmt, k, Split(line)))
  {
  }

  /** The loop body of the reader applied to the load so far: once the
      load has failed nothing more happens, otherwise the line's outcome is
      added to it. */
  function Step<N>(sofar: Result<Scene<N>, LoadError>, o: LineOutcome<N>): Result<Scene<N>, LoadError> {
    match sofar
    case Failure(e) => Failure(e)
    case Success(scene) =>
      match o
      case Skipped => Success(scene)
      case Unknown => Success(scene.(warnings := scene.warnings + 1))
      case Parsed(b) => Success(scene.(objects := scene.objects + [b]))
      case Malformed(e) => Failure(e)
  }

  /** The loop of the reader over the outcomes of the lines. It fails
      exactly when some line is malformed, and then with the error of the
      first such line; nothing read before it is returned. */
  function Collect<N>(outs: seq<LineOutcome<N>>): (r: Result<Scene<N>, LoadError>)
    ensures r.Success? <==> forall i :: 0 <= i < |outs| ==> !outs[i].Malformed?
    ensures r.Failure? ==> exists i :: (0 <= i < |outs| && outs[i] == Malformed(r.error) &&
      forall j :: 0 <= j < i ==> !outs[j].Malformed?)
    decreases |outs|
  {
    if |outs| == 0 then Success(Scene([], 0))
    else
      var init := outs[..|outs| - 1];
      assert forall i :: 0 <= i < |init| ==> init[i] == outs[i];
      Step(Collect(init), outs[|outs| - 1])
  }

  /** The outcome of every line of a file, in file order. */
  function Outcomes<N>(fmt: NumberFormat<N>, lines: seq<string>): (outs: seq<LineOutcome<N>>)
    ensures |outs| == |lines|
    decreases |lines|
  {
    if |lines| == 0 then []
    else Outcomes(fmt, lines[..|lines| - 1]) + [ReadLine(fmt, lines[|lines| - 1])]
  }

  /** `read_space_objects_data_from_file` on the lines of a file. */
  function ReadScene<N>(fmt: NumberFormat<N>, lines: seq<string>): Result<Scene<N>, LoadError> {
    Collect(Outcomes(fmt, lines))
  }

  lemma {:induction false} OutcomeAt<N>(fmt: NumberFormat<N>, lines: seq<string>, i: nat)
    requires i < |lines|
    ensures Outcomes(fmt, lines)[i] == ReadLine(fmt, lines[i])
    decreases |lines|
  {
    var init := lines[..|lines| - 1];
    var last := ReadLine(fmt, lines[|lines| - 1]);
    assert Outcomes(fmt, lines) == Outcomes(fmt, init) + [last];
    if i < |lines| - 1 {
      OutcomeAt(fmt, init, i);
      assert init[i] == lines[i];
    }
  }

  lemma {:induction false} OutcomesAppend<N>(fmt: NumberFormat<N>, a: seq<string>, b: seq<string>)
    ensures Outcomes(fmt, a + b) == Outcomes(fmt, a) + Outcomes(fmt, b)
    decreases |b|
  {
    if |b| == 0 {
      assert a + b == a;
    } else {
      var b' := b[..|b| - 1];
      assert (a + b)[..|a + b| - 1] == a + b';
      assert (a + b)[|a + b| - 1] == b[|b| - 1];
      OutcomesAppend(fmt, a, b');
    }
  }

  /** Reading one more line is one more pass of the loop body. */
  lemma ReadSceneSnoc<N>(fmt: NumberFormat<N>, lines: seq<string>, line: string)
    ensures ReadScene(fmt, lines + [line]) == Step(ReadScene(fmt, lines), ReadLine(fmt, line))
  {
    var outs := Outcomes(fmt, lines + [line]);
    assert (lines + [line])[..|lines|] == lines;
    assert outs[..|outs| - 1] == Outcomes(fmt, lines);
  }

  /** The load fails exactly when some line of the file is malformed, and
      then with the error of the first malformed line. */
  lemma ReadSceneFailure<N>(fmt: NumberFormat<N>, lines: seq<string>)
    ensures ReadScene(fmt, lines).Success? <==> forall i :: 0 <= i < |lines| ==> !ReadLine(fmt, lines[i]).Malformed?
    ensures ReadScene(fmt, lines).Failure? ==> exists i :: (0 <= i < |lines| &&
      ReadLine(fmt, lines[i]) == Malformed(ReadScene(fmt, lines).error) &&
      forall j :: 0 <= j < i ==> !ReadLine(fmt, lines[j]).Malformed?)
  {
    var outs := Outcomes(fmt, lines);
    forall i | 0 <= i < |lines| ensures outs[i] == ReadLine(fmt, lines[i]) {
      OutcomeAt(fmt, lines, i);
    }
  }

  /** Loading two files one after the other: the first failure wins, and
      otherwise objects and diagnostics add up in order. */
  function Then<N>(first: Result<Scene<N>, LoadError>, second: Result<Scene<N>, LoadError>): Result<Scene<N>, LoadError> {
    match first
    case Failure(e) => Failure(e)
    case Success(s1) =>
      match second
      case Failure(e) => Failure(e)
      case Success(s2) => Success(Scene(s1.objects + s2.objects, s1.warnings + s2.warnings))
  }

  /** A load result with one more diagnostic. */
  function Warned<N>(r: Result<Scene<N>, LoadError>): Result<Scene<N>, LoadError> {
    match r
    case Failure(e) => Failure(e)
    case Success(s) => Success(s.(warnings := s.warnings + 1))
  }

  lemma {:induction false} CollectAppend<N>(x: seq<LineOutcome<N>>, y: seq<LineOutcome<N>>)
    ensures Collect(x + y) == Then(Collect(x), Collect(y))
    decreases |y|
  {
    if |y| == 0 {
      assert x + y == x;
      match Collect(x)
      case Failure(_) =>
      case Success(s) => assert s.objects + [] == s.objects;
    } else {
      var y' := y[..|y| - 1];
      var o := y[|y| - 1];
      assert (x + y)[..|x + y| - 1] == x + y';
      assert (x + y)[|x + y| - 1] == o;
      CollectAppend(x, y');
      match Collect(x)
      case Failure(_) =>
      case Success(s1) =>
        match Collect(y')
        case Failure(_) =>
        case Success(s2) =>
          if o.Parsed? {
            assert s1.objects + (s2.objects + [o.body]) == (s1.objects + s2.objects) + [o.body];
          }
    }
  }

  /** Reading is line by line: the load of a concatenation is the first
      part's load followed by the second part's. */
  lemma ReadSceneAppend<N>(fmt: NumberFormat<N>, a: seq<string>, b: seq<string>)
    ensures ReadScene(fmt, a + b) == Then(ReadScene(fmt, a), ReadScene(fmt, b))
  {
    OutcomesAppend(fmt, a, b);
    CollectAppend(Outcomes(fmt, a), Outcomes(fmt, b));
  }

  /** The load around one outcome: everything before it, then the outcome,
      then everything after it. */
  lemma CollectAround<N>(x: seq<LineOutcome<N>>, o: LineOutcome<N>, y: seq<LineOutcome<N>>)
    ensures Collect(x + [o] + y) == Then(Step(Collect(x), o), Collect(y))
  {
    CollectAppend(x + [o], y);
    assert (x + [o])[..|x|] == x;
  }

  lemma {:induction false} OutcomesAround<N>(fmt: NumberFormat<N>, a: seq<string>, line: string, b: seq<string>)
    ensures Outcomes(fmt, a + [line] + b) == Outcomes(fmt, a) + [ReadLine(fmt, line)] + Outcomes(fmt, b)
    ensures Outcomes(fmt, a + b) == Outcomes(fmt, a) + Outcomes(fmt, b)
  {
    OutcomesAppend(fmt, a + [line], b);
    OutcomesAppend(fmt, a, [line]);
    OutcomesAppend(fmt, a, b);
    assert [line][..0] == [];
  }

  /** A blank or comment line contributes no object and no diagnostic,
      wherever it stands. */
  lemma SkippedLineIsInert<N>(fmt: NumberFormat<N>, a: seq<string>, line: string, b: seq<string>)
    requires IsSkipped(line)
    ensures ReadScene(fmt, a + [line] + b) == ReadScene(fmt, a + b)
  {
    ReadLineDispatch(fmt, line);
    OutcomesAround(fmt, a, line, b);
    var x, y := Outcomes(fmt, a), Outcomes(fmt, b);
    CollectAround(x, Skipped, y);
    CollectAppend(x, y);
  }

  lemma CollectUnknown<N>(x: seq<LineOutcome<N>>, y: seq<LineOutcome<N>>)
    ensures Collect(x + [Unknown] + y) == Warned(Collect(x + y))
  {
    CollectAround(x, Unknown, y);
    CollectAppend(x, y);
  }

  /** A line with an unknown keyword adds one diagnostic and nothing else:
      it neither appends an object nor stops the reading. */
  lemma UnknownLineOnlyWarns<N>(fmt: NumberFormat<N>, a: seq<string>, line: string, b: seq<string>)
    requires !IsSkipped(line) && Keyword(line) != Tag(Star) && Keyword(line) != Tag(Planet)
    ensures ReadScene(fmt, a + [line] + b) == Warned(ReadScene(fmt, a + b))
  {
    ReadLineDispatch(fmt, line);
    OutcomesAround(fmt, a, line, b);
    CollectUnknown(Outcomes(fmt, a), Outcomes(fmt, b));
  }

  lemma CollectMalformed<N>(x: seq<LineOutcome<N>>, e: LoadError, y: seq<LineOutcome<N>>)
    ensures Collect(x + [Malformed(e)] + y) == if Collect(x).Failure? then Collect(x) else Failure(e)
  {
    CollectAround(x, Malformed(e), y);
  }

  /** A malformed line aborts the load: unless an earlier line already
      failed, the load fails with this line's error whatever follows. */
  lemma MalformedLineAborts<N>(fmt: NumberFormat<N>, a: seq<string>, line: string, b: seq<string>)
    requires ReadLine(fmt, line).Malformed?
    ensures ReadScene(fmt, a + [line] + b)
      == if ReadScene(fmt, a).Failure? then ReadScene(fmt, a) else Failure(ReadLine(fmt, line).error)
  {
    OutcomesAround(fmt, a, line, b);
    CollectMalformed(Outcomes(fmt, a), ReadLine(fmt, line).error, Outcomes(fmt, b));
  }

  /** A file of nothing but blank and comment lines loads as an empty
      scene without error. */
  lemma {:induction false} OnlySkippedLines<N>(fmt: NumberFormat<N>, lines: seq<string>)
    requires forall i :: 0 <= i < |lines| ==> IsSkipped(lines[i])
    ensures ReadScene(fmt, lines) == Success(Scene([], 0))
    decreases |lines|
  {
    if |lines| > 0 {
      var init, last := lines[..|lines| - 1], lines[|lines| - 1];
      assert lines == init + [last];
      OnlySkippedLines(fmt, init);
      ReadLineDispatch(fmt, last);
      ReadSceneSnoc(fmt, init, last);
    }
  }

  /** Positions of the outcomes that name a star or a planet, in increasing
      order. */
  function RecordLines<N>(outs: seq<LineOutcome<N>>): (idx: seq<nat>)
    ensures forall k :: 0 <= k < |idx| ==> idx[k] < |outs| && (outs[idx[k]].Parsed? || outs[idx[k]].Malformed?)
    ensures forall k, l :: 0 <= k < l < |idx| ==> idx[k] < idx[l]
    ensures forall i :: 0 <= i < |outs| && (outs[i].Parsed? || outs[i].Malformed?) ==> i in idx
    decreases |outs|
  {
    if |outs| == 0 then []
    else
      var init := outs[..|outs| - 1];
      assert forall i :: 0 <= i < |init| ==> init[i] == outs[i];
      var idx := RecordLines(init);
      var o := outs[|outs| - 1];
      if o.Parsed? || o.Malformed? then idx + [|outs| - 1] else idx
  }

  /** Number of unknown-keyword outcomes. */
  function UnknownCount<N>(outs: seq<LineOutcome<N>>): nat
    decreases |outs|
  {
    if |outs| == 0 then 0
    else UnknownCount(outs[..|outs| - 1]) + if outs[|outs| - 1].Unknown? then 1 else 0
  }

  /** `scene` holds one record per record outcome of `outs`, in order,
      and one diagnostic per unknown outcome. */
  ghost predicate Gathers<N>(scene: Scene<N>, outs: seq<LineOutcome<N>>) {
    var idx := RecordLines(outs);
    && |scene.objects| == |idx|
    && (forall k :: 0 <= k < |idx| ==> outs[idx[k]] == Parsed(scene.objects[k]))
    && scene.warnings == UnknownCount(outs)
  }

  /** A record outcome appends its record and its index together. */
  lemma GathersParsed<N>(outs: seq<LineOutcome<N>>, s0: Scene<N>, b: Body<N>)
    requires |outs| > 0 && outs[|outs| - 1] == Parsed(b)
    requires Gathers(s0, outs[..|outs| - 1])
    ensures Gathers(Scene(s0.objects + [b], s0.warnings), outs)
  {
    var init := outs[..|outs| - 1];
    var idx0, idx := RecordLines(init), RecordLines(outs);
    var objs := s0.objects + [b];
    assert idx == idx0 + [|outs| - 1];
    assert UnknownCount(outs) == UnknownCount(init);
    forall k | 0 <= k < |idx| ensures outs[idx[k]] == Parsed(objs[k]) {
      if k < |idx0| {
        assert idx[k] == idx0[k] && outs[idx0[k]] == init[idx0[k]];
      }
    }
  }

  /** A skipped or unknown outcome appends no record and no index. */
  lemma GathersQuiet<N>(outs: seq<LineOutcome<N>>, s0: Scene<N>)
    requires |outs| > 0 && (outs[|outs| - 1].Skipped? || outs[|outs| - 1].Unknown?)
    requires Gathers(s0, outs[..|outs| - 1])
    ensures Gathers(Step(Success(s0), outs[|outs| - 1]).value, outs)
  {
    var init := outs[..|outs| - 1];
    var idx0 := RecordLines(init);
    assert RecordLines(outs) == idx0;
    forall k | 0 <= k < |idx0| ensures outs[idx0[k]] == init[idx0[k]] {
    }
  }

  lemma {:induction false} CollectGathers<N>(outs: seq<LineOutcome<N>>)
    requires Collect(outs).Success?
    ensures Gathers(Collect(outs).value, outs)
    decreases |outs|
  {
    if |outs| > 0 {
      var init := outs[..|outs| - 1];
      var o := outs[|outs| - 1];
      assert forall i :: 0 <= i < |init| ==> init[i] == outs[i];
      assert Collect(outs) == Step(Collect(init), o);
      assert Collect(init).Success?;
      CollectGathers(init);
      var s0 := Collect(init).value;
      if o.Parsed? {
        GathersParsed(outs, s0, o.body);
      } else {
        GathersQuiet(outs, s0);
      }
    }
  }

  /** A successful load holds exactly one record per line that names a
      star or a planet, in file order, each the record that line parses to,
      and one diagnostic per unknown-keyword line. */
  lemma ReadSceneCollects<N>(fmt: NumberFormat<N>, lines: seq<string>)
    requires ReadScene(fmt, lines).Success?
    ensures var scene := ReadScene(fmt, lines).value;
      var idx := RecordLines(Outcomes(fmt, lines));
      && |scene.objects| == |idx|
      && (forall k, l :: 0 <= k < l < |idx| ==> idx[k] < idx[l])
      && (forall k :: 0 <= k < |idx| ==> idx[k] < |lines| && ReadLine(fmt, lines[idx[k]]) == Parsed(scene.objects[k]))
      && (forall i :: 0 <= i < |lines| && IsRecognised(lines[i]) ==> i in idx)
      && scene.warnings == UnknownCount(Outcomes(fmt, lines))
  {
    var outs := Outcomes(fmt, lines);
    CollectGathers(outs);
    forall i | 0 <= i < |lines| ensures outs[i] == ReadLine(fmt, lines[i]) {
      OutcomeAt(fmt, lines, i);
    }
    forall i | 0 <= i < |lines| && IsRecognised(lines[i]) ensures i in RecordLines(outs) {
      ReadLineDispatch(fmt, lines[i]);
    }
  }

  /** Dispatch looks only at the lower-cased keyword and the remaining
      tokens: two lines that agree on those read the same, so `STAR`,
      `Star` and `star` are interchangeable. */
  lemma DispatchIgnoresCase<N>(fmt: NumberFormat<N>, line1: string, line2: string)
    requires !IsSkipped(line1) && !IsSkipped(line2)
    requires Keyword(line1) == Keyword(line2)
    requires Split(line1)[1..] == Split(line2)[1..]
    ensures ReadLine(fmt, line1) == ReadLine(fmt, line2)
  {
    var t1, t2 := Split(line1), Split(line2);
    assert forall i :: 1 <= i < |t1| ==> t1[i] == t1[1..][i - 1];
    assert forall i :: 1 <= i < |t2| ==> t2[i] == t2[1..][i - 1];
    if k :| KindOf(Keyword(line1)) == Some(k) {
      ParseBodyReadsFieldsOnly(fmt, k, t1, t2);
    }
  }

  /** The field parser never looks at token 0 nor beyond token 7. */
  lemma ParseBodyReadsFieldsOnly<N>(fmt: NumberFormat<N>, kind: Kind, t1: seq<string>, t2: seq<string>)
    requires |t1| == |t2| || (|t1| >= 8 && |t2| >= 8)
    requires forall i :: 1 <= i <= 7 && i < |t1| && i < |t2| ==> t1[i] == t2[i]
    ensures ParseBody(fmt, kind, t1) == ParseBody(fmt, kind, t2)
  {
    assert NumberAt(fmt, t1, 1) == NumberAt(fmt, t2, 1);
    assert TokenAt(t1, 2) == TokenAt(t2, 2);
    assert NumberAt(fmt, t1, 3) == NumberAt(fmt, t2, 3);
    assert NumberAt(fmt, t1, 4) == NumberAt(fmt, t2, 4);
    assert NumberAt(fmt, t1, 5) == NumberAt(fmt, t2, 5);
    assert NumberAt(fmt, t1, 6) == NumberAt(fmt, t2, 6);
    assert NumberAt(fmt, t1, 7) == NumberAt(fmt, t2, 7);
  }

  /** Tokens after the seventh field are ignored. */
  lemma ExtraTokensIgnored<N>(fmt: NumberFormat<N>, kind: Kind, toks: seq<string>, extra: seq<string>)
    requires |toks| >= 8
    ensures ParseBody(fmt, kind, toks + extra) == ParseBody(fmt, kind, toks)
  {
    ParseBodyReadsFieldsOnly(fmt, kind, toks + extra, toks);
  }

  /** A record line in front of a file that loads puts its record in
      front of the loaded objects. */
  lemma ReadSceneCons<N>(fmt: NumberFormat<N>, line: string, rest: seq<string>, b: Body<N>, objs: seq<Body<N>>, w: nat)
    requires ReadLine(fmt, line) == Parsed(b)
    requires ReadScene(fmt, rest) == Success(Scene(objs, w))
    ensures ReadScene(fmt, [line] + rest) == Success(Scene([b] + objs, w))
  {
    ReadSceneAppend(fmt, [line], rest);
    ReadSceneSnoc(fmt, [], line);
    assert [] + [line] == [line];
    assert Outcomes(fmt, []) == [];
    assert [] + [b] == [b];
  }

  /** Once a prefix of the file fails to load, the whole file fails the
      same way. */
  lemma PrefixFailureAborts<N>(fmt: NumberFormat<N>, lines: seq<string>, i: nat)
    requires i <= |lines|
    requires ReadScene(fmt, lines[..i]).Failure?
    ensures ReadScene(fmt, lines) == ReadScene(fmt, lines[..i])
  {
    ReadSceneAppend(fmt, lines[..i], lines[i..]);
    assert lines[..i] + lines[i..] == lines;
  }

  lemma ReadScenePrefixStep<N>(fmt: NumberFormat<N>, lines: seq<string>, i: nat)
    requires i < |lines|
    ensures ReadScene(fmt, lines[..i + 1]) == Step(ReadScene(fmt, lines[..i]), ReadLine(fmt, lines[i]))
  {
    assert lines[..i + 1] == lines[..i] + [lines[i]];
    ReadSceneSnoc(fmt, lines[..i], lines[i]);
  }

  /** The reader as the source writes it: a loop over the lines that
      accumulates records and diagnostics and returns at the first
      malformed line. */
  method LoadScene<N>(fmt: NumberFormat<N>, lines: seq<string>) returns (r: Result<Scene<N>, LoadError>)
    ensures r == ReadScene(fmt, lines)
  {
    var objects: seq<Body<N>> := [];
    var warnings: nat := 0;
    for i := 0 to |lines|
      invariant ReadScene(fmt, lines[..i]) == Success(Scene(objects, warnings))
    {
      var o := ReadLine(fmt, lines[i]);
      ReadScenePrefixStep(fmt, lines, i);
      match o {
        case Skipped =>
        case Unknown =>
          warnings := warnings + 1;
        case Parsed(b) =>
          objects := objects + [b];
        case Malformed(e) =>
          PrefixFailureAborts(fmt, lines, i + 1);
          return Failure(e);
      }
    }
    assert lines[..|lines|] == lines;
    r := Success(Scene(objects, warnings));
  }
}
