/** The scene-file writer, `write_space_objects_data_to_file`: one line per
    object, `"{0} {1} {2} {3} {4} {5} {6} {7} \n"` filled with the
    capitalised kind and the seven fields. The file is returned as its
    sequence of lines, each ending in its newline. */
module SceneWriter {
  import opened Wrappers
  import opened Text
  import opened Numbers
  import opened Bodies

  /** The eight words of a record line in the order they are printed:
      kind, R, color, m, x, y, Vx, Vy. */
  function Fields<N>(fmt: NumberFormat<N>, b: Body<N>): seq<string> {
    [Label(b.kind), fmt.show(b.R), b.color, fmt.show(b.m), fmt.show(b.x), fmt.show(b.y), fmt.show(b.Vx), fmt.show(b.Vy)]
  }

  /** One record line: every word followed by a single space, then the
      newline. */
  function FormatBody<N>(fmt: NumberFormat<N>, b: Body<N>): string {
    Spaced(Fields(fmt, b)) + "\n"
  }

  /** The written file: one line per object, in list order. */
  function WriteScene<N>(fmt: NumberFormat<N>, objs: seq<Body<N>>): (lines: seq<string>)
    ensures |lines| == |objs|
    ensures forall i :: 0 <= i < |objs| ==> lines[i] == FormatBody(fmt, objs[i])
  {
    if |objs| == 0 then [] else [FormatBody(fmt, objs[0])] + WriteScene(fmt, objs[1..])
  }

  /** A color the format can carry: one whitespace-free word. */
  predicate ColorFits<N>(b: Body<N>) {
    IsToken(b.color)
  }

  /** The printed words of a record are all tokens when numbers print as
      single words and the color is one word. */
  lemma FieldsAreTokens<N(!new)>(fmt: NumberFormat<N>, b: Body<N>)
    requires Faithful(fmt)
    requires ColorFits(b)
    ensures |Fields(fmt, b)| == 8
    ensures forall i :: 0 <= i < 8 ==> IsToken(Fields(fmt, b)[i])
  {
    LabelReadsBack(b.kind);
  }

  /** When numbers print as single words and the color is one word, a
      written line splits into exactly its eight words in print order, and
      it is neither blank nor a comment. */
  lemma FormatBodySplits<N(!new)>(fmt: NumberFormat<N>, b: Body<N>)
    requires Faithful(fmt)
    requires ColorFits(b)
    ensures Split(FormatBody(fmt, b)) == Fields(fmt, b)
    ensures !IsBlank(FormatBody(fmt, b))
    ensures FormatBody(fmt, b)[0] == Label(b.kind)[0] != '#'
  {
    var fields := Fields(fmt, b);
    FieldsAreTokens(fmt, b);
    LabelReadsBack(b.kind);
    SplitSpaced(fields, "\n");
    SpacedHead(fields);
  }

  /** A written line ends in a space and a newline and has no other line
      break, so iterating over the file yields it as one line. */
  lemma FormatBodyIsLine<N(!new)>(fmt: NumberFormat<N>, b: Body<N>)
    requires Faithful(fmt)
    requires ColorFits(b)
    ensures var line := FormatBody(fmt, b);
      && line[|line| - 2..] == " \n"
      && IsFullLine(line)
  {
    var fields := Fields(fmt, b);
    FieldsAreTokens(fmt, b);
    SpacedHasNoNewline(fields);
    assert Spaced(fields) == Spaced(fields[..7]) + fields[7] + " " by {
      SpacedSnoc(fields[..7], fields[7]);
      assert fields[..7] + [fields[7]] == fields;
    }
  }
}
