/** What the writer saves, the reader loads back: the scene file is a
    faithful serialisation of a list of stars and planets whenever numbers
    print as single words that read back and every color is one word. */
module RoundTrip {
  import opened Wrappers
  import opened Text
  import opened Numbers
  import opened Bodies
  import opened SceneReader
  import opened SceneWriter

  /** Every object's color is one word. */
  predicate ColorsFit<N>(objs: seq<Body<N>>) {
    forall i :: 0 <= i < |objs| ==> ColorFits(objs[i])
  }

  /** A written record line reads back as the very record written. */
  lemma ReadsBackRecord<N(!new)>(fmt: NumberFormat<N>, b: Body<N>)
    requires Faithful(fmt)
    requires ColorFits(b)
    ensures ReadLine(fmt, FormatBody(fmt, b)) == Parsed(b)
  {
    var line := FormatBody(fmt, b);
    var toks := Fields(fmt, b);
    FormatBodySplits(fmt, b);
    LabelReadsBack(b.kind);
    assert !IsSkipped(line);
    assert Keyword(line) == Tag(b.kind);
    ReadLineDispatch(fmt, line);
    ParseBodySpec(fmt, b.kind, toks);
    assert forall i :: 1 <= i <= 7 ==> !FieldFails(fmt, toks, i);
  }

  /** A written line in front of a file that loads puts its object in
      front of the loaded ones and keeps the diagnostics. */
  lemma WrittenLineLoads<N(!new)>(fmt: NumberFormat<N>, b: Body<N>, rest: seq<string>, objs: seq<Body<N>>, w: nat)
    requires Faithful(fmt)
    requires ColorFits(b)
    requires ReadScene(fmt, rest) == Success(Scene(objs, w))
    ensures ReadScene(fmt, [FormatBody(fmt, b)] + rest) == Success(Scene([b] + objs, w))
  {
    ReadsBackRecord(fmt, b);
    ReadSceneCons(fmt, FormatBody(fmt, b), rest, b, objs, w);
  }

  /** Loading the lines the writer produces gives back the same objects in
      the same order, with no diagnostic. */
  lemma {:induction false} SceneRoundTrip<N(!new)>(fmt: NumberFormat<N>, objs: seq<Body<N>>)
    requires Faithful(fmt)
    requires ColorsFit(objs)
    ensures ReadScene(fmt, WriteScene(fmt, objs)) == Success(Scene(objs, 0))
    decreases |objs|
  {
    if |objs| > 0 {
      assert ColorFits(objs[0]);
      SceneRoundTrip(fmt, objs[1..]);
      WrittenLineLoads(fmt, objs[0], WriteScene(fmt, objs[1..]), objs[1..], 0);
      assert [objs[0]] + objs[1..] == objs;
    }
  }

  /** The color of a record the reader produced is one word: it is the
      third word of its line. */
  lemma ParsedLineColorFits<N>(fmt: NumberFormat<N>, line: string, b: Body<N>)
    requires ReadLine(fmt, line) == Parsed(b)
    ensures ColorFits(b)
  {
    ReadLineDispatch(fmt, line);
    var k := KindOf(Keyword(line)).value;
    ParseBodySpec(fmt, k, Split(line));
  }

  /** Every list of objects the reader produces meets the one-word color
      hypothesis of the round trip. */
  lemma ParsedColorsFit<N>(fmt: NumberFormat<N>, lines: seq<string>)
    requires ReadScene(fmt, lines).Success?
    ensures ColorsFit(ReadScene(fmt, lines).value.objects)
  {
    var objs := ReadScene(fmt, lines).value.objects;
    ReadSceneCollects(fmt, lines);
    var idx := RecordLines(Outcomes(fmt, lines));
    forall k | 0 <= k < |objs| ensures ColorFits(objs[k]) {
      ParsedLineColorFits(fmt, lines[idx[k]], objs[k]);
    }
  }

  /** Saving what the reader loaded and loading it again gives back the
      same objects, now with no diagnostic. */
  lemma ReloadRoundTrip<N(!new)>(fmt: NumberFormat<N>, lines: seq<string>)
    requires Faithful(fmt)
    requires ReadScene(fmt, lines).Success?
    ensures var objs := ReadScene(fmt, lines).value.objects;
      ReadScene(fmt, WriteScene(fmt, objs)) == Success(Scene(objs, 0))
  {
    ParsedColorsFit(fmt, lines);
    SceneRoundTrip(fmt, ReadScene(fmt, lines).value.objects);
  }

  /** The same round trip through the file's text: the written lines
      concatenated, then cut into lines again as iterating over the file
      does, load back the objects written. */
  lemma FileRoundTrip<N(!new)>(fmt: NumberFormat<N>, objs: seq<Body<N>>)
    requires Faithful(fmt)
    requires ColorsFit(objs)
    ensures ReadScene(fmt, SplitLines(Concat(WriteScene(fmt, objs)))) == Success(Scene(objs, 0))
  {
    var lines := WriteScene(fmt, objs);
    forall i | 0 <= i < |lines| ensures IsFullLine(lines[i]) {
      FormatBodyIsLine(fmt, objs[i]);
    }
    SplitLinesConcat(lines);
    SceneRoundTrip(fmt, objs);
  }
}
