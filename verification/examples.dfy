/** Concrete scene and statistics lines, read with decimal numbers. Each
    line is written as its words separated by single spaces and ended by a
    newline.

    A line is not given as one string literal: the verifier would have to
    split and lower-case a literal character by character inside one proof,
    which is far too costly. Each example instead names its word list
    (`requires words == [...]`), and small separate lemmas establish the
    facts about those words (that they are tokens, which keyword they
    lower-case to, which fields parse) before `Typed(words)` is read. */
module Examples {
  import opened Wrappers
  import opened Text
  import opened Numbers
  import opened Bodies
  import opened SceneReader
  import Decimal
  import opened Statistics

  /** Words separated by single spaces, then the newline. */
  function Typed(words: seq<string>): string
    requires |words| > 0
  {
    Joined(words) + "\n"
  }

  function Joined(words: seq<string>): string
    requires |words| > 0
  {
    if |words| == 1 then words[0] else words[0] + " " + Joined(words[1..])
  }

  /** A typed line splits back into its words and starts with the first
      character of its first word. */
  lemma {:induction false} TypedSplits(words: seq<string>)
    requires |words| > 0
    requires forall i :: 0 <= i < |words| ==> IsToken(words[i])
    ensures Split(Typed(words)) == words
    ensures Typed(words)[0] == words[0][0]
    decreases |words|
  {
    var w := words[0];
    assert IsToken(w);
    if |words| == 1 {
      assert Typed(words) == w + "\n";
      SplitTokenThen(w, "\n");
      assert Split("\n") == [];
    } else {
      var rest := Typed(words[1..]);
      assert Joined(words) == w + " " + Joined(words[1..]);
      assert Typed(words) == w + (" " + rest);
      SplitTokenThen(w, " " + rest);
      assert (" " + rest)[1..] == rest;
      TypedSplits(words[1..]);
      assert words == [w] + words[1..];
    }
  }

  /** Words that can be typed into a line: tokens, the first one not
      starting a comment. */
  predicate LineWords(words: seq<string>) {
    && |words| > 0
    && (forall i :: 0 <= i < |words| ==> IsToken(words[i]))
    && words[0][0] != '#'
  }

  /** Words that make a record line of kind `k`. */
  predicate RecordWords(words: seq<string>, k: Kind) {
    LineWords(words) && Lower(words[0]) == Tag(k)
  }

  lemma StarKeyword(w: string)
    requires w == "Star" || w == "STAR"
    ensures Lower(w) == Tag(Star)
  {
    var l := Lower(w);
    assert l[0] == 's' && l[1] == 't' && l[2] == 'a' && l[3] == 'r';
  }

  lemma PlanetKeyword(w: string)
    requires w == "Planet"
    ensures Lower(w) == Tag(Planet)
  {
    var l := Lower(w);
    assert l[0] == 'p' && l[1] == 'l' && l[2] == 'a' && l[3] == 'n' && l[4] == 'e' && l[5] == 't';
  }

  /** A typed line whose first word names a kind is read by that kind's
      field parser. */
  lemma TypedRecord<N>(fmt: NumberFormat<N>, words: seq<string>, k: Kind)
    requires RecordWords(words, k)
    ensures ReadLine(fmt, Typed(words)) == Lift(ParseBody(fmt, k, words))
  {
    assert IsToken(words[0]);
    TypedSplits(words);
    ReadLineDispatch(fmt, Typed(words));
  }

  /** A decimal word parses to the number it shows. */
  lemma DecimalWord(n: nat, w: string)
    requires Decimal.Show(n) == w
    ensures Decimal.Parse(w) == Some(n)
  {
    Decimal.ValueOfShow(n);
  }

  lemma SmallNumbers()
    ensures Decimal.Parse("1") == Some(1) && Decimal.Parse("2") == Some(2)
    ensures Decimal.Parse("3") == Some(3) && Decimal.Parse("4") == Some(4)
    ensures Decimal.Parse("10") == Some(10) && Decimal.Parse("1000") == Some(1000)
  {
    DecimalWord(1, "1");
    DecimalWord(2, "2");
    DecimalWord(3, "3");
    DecimalWord(4, "4");
    DecimalWord(10, "10");
    DecimalWord(1000, "1000");
  }

  /** The seven fields of the documented example after its keyword. */
  lemma ExampleFields(words: seq<string>, k: Kind)
    requires |words| == 8 && words[1..] == ["10", "red", "1000", "1", "2", "3", "4"]
    ensures ParseBody(Decimal.Format, k, words) == Success(Body(k, 10, "red", 1000, 1, 2, 3, 4))
  {
    SmallNumbers();
    assert words[1] == "10" && words[2] == "red" && words[3] == "1000";
    assert words[4] == "1" && words[5] == "2" && words[6] == "3" && words[7] == "4";
  }

  lemma StarWords(words: seq<string>)
    requires words == ["Star", "10", "red", "1000", "1", "2", "3", "4"]
    ensures LineWords(words)
  {
  }

  /** The example line from the documentation of `parse_star_parameters`:
      `Star 10 red 1000 1 2 3 4`. */
  lemma StarLineReads(words: seq<string>)
    requires words == ["Star", "10", "red", "1000", "1", "2", "3", "4"]
    ensures ReadLine(Decimal.Format, Typed(words)) == Parsed(Body(Star, 10, "red", 1000, 1, 2, 3, 4))
  {
    StarWords(words);
    StarKeyword(words[0]);
    ExampleFields(words, Star);
    TypedRecord(Decimal.Format, words, Star);
  }

  lemma ShoutedStarWords(words: seq<string>)
    requires words == ["STAR", "10", "red", "1000", "1", "2", "3", "4"]
    ensures LineWords(words)
  {
  }

  /** The keyword is compared in lower case: `STAR` reads as `Star`. */
  lemma ShoutedStarReads(words: seq<string>)
    requires words == ["STAR", "10", "red", "1000", "1", "2", "3", "4"]
    ensures ReadLine(Decimal.Format, Typed(words)) == Parsed(Body(Star, 10, "red", 1000, 1, 2, 3, 4))
  {
    ShoutedStarWords(words);
    StarKeyword(words[0]);
    ExampleFields(words, Star);
    TypedRecord(Decimal.Format, words, Star);
  }

  lemma BadMassWords(words: seq<string>)
    requires words == ["Planet", "10", "red", "heavy", "1", "2", "3", "4"]
    ensures LineWords(words)
  {
  }

  lemma BadMassFields(words: seq<string>)
    requires words == ["Planet", "10", "red", "heavy", "1", "2", "3", "4"]
    ensures ParseBody(Decimal.Format, Planet, words) == Failure(BadNumber(3, "heavy"))
  {
    SmallNumbers();
    assert Decimal.Parse("heavy") == None by { assert !Decimal.IsDigit("heavy"[0]); }
  }

  /** The example line from the documentation of `parse_planet_parameters`,
      with a mass that is not a number: the load stops at token 3. */
  lemma BadMassAborts(words: seq<string>)
    requires words == ["Planet", "10", "red", "heavy", "1", "2", "3", "4"]
    ensures ReadLine(Decimal.Format, Typed(words)) == Malformed(BadNumber(3, "heavy"))
  {
    BadMassWords(words);
    PlanetKeyword(words[0]);
    BadMassFields(words);
    TypedRecord(Decimal.Format, words, Planet);
  }

  lemma ShortWords(words: seq<string>)
    requires words == ["Planet", "10", "red"]
    ensures LineWords(words)
  {
  }

  lemma ShortFields(words: seq<string>)
    requires words == ["Planet", "10", "red"]
    ensures ParseBody(Decimal.Format, Planet, words) == Failure(MissingField(3))
  {
    SmallNumbers();
  }

  /** A planet line cut short after its color: token 3 is missing. */
  lemma ShortLineAborts(words: seq<string>)
    requires words == ["Planet", "10", "red"]
    ensures ReadLine(Decimal.Format, Typed(words)) == Malformed(MissingField(3))
  {
    ShortWords(words);
    PlanetKeyword(words[0]);
    ShortFields(words);
    TypedRecord(Decimal.Format, words, Planet);
  }

  /** A typed line whose first word is neither keyword is unknown. */
  lemma TypedUnknown<N>(fmt: NumberFormat<N>, words: seq<string>)
    requires LineWords(words) && KindOf(Lower(words[0])) == None
    ensures ReadLine(fmt, Typed(words)) == Unknown
  {
    assert IsToken(words[0]);
    TypedSplits(words);
    ReadLineDispatch(fmt, Typed(words));
  }

  lemma AsteroidWords(words: seq<string>)
    requires words == ["Asteroid", "1"]
    ensures LineWords(words)
  {
  }

  lemma AsteroidKeyword(w: string)
    requires w == "Asteroid"
    ensures KindOf(Lower(w)) == None
  {
    var l := Lower(w);
    assert l[0] == 'a';
    assert l != Tag(Star) by { assert Tag(Star)[0] == 's'; }
    assert l != Tag(Planet) by { assert Tag(Planet)[0] == 'p'; }
  }

  /** Any other keyword is reported and passed over. */
  lemma AsteroidIsUnknown(words: seq<string>)
    requires words == ["Asteroid", "1"]
    ensures ReadLine(Decimal.Format, Typed(words)) == Unknown
  {
    AsteroidWords(words);
    AsteroidKeyword(words[0]);
    TypedUnknown(Decimal.Format, words);
  }

  /** A `#` in the first column makes a comment, whatever follows. */
  lemma CommentIsSkipped(words: seq<string>)
    requires words == ["#", "Star", "10"]
    ensures ReadLine(Decimal.Format, Typed(words)) == Skipped
  {
    TypedSplits(words);
    ReadLineDispatch(Decimal.Format, Typed(words));
  }

  /** An indented `#` is not a comment: its first word `#` is an unknown
      keyword. */
  lemma IndentedHashIsUnknown(words: seq<string>)
    requires words == ["#", "x"]
    ensures ReadLine(Decimal.Format, " " + Typed(words)) == Unknown
  {
    var line := " " + Typed(words);
    TypedSplits(words);
    assert line[1..] == Typed(words);
    assert Split(line) == words;
    assert !IsBlank(line) by { assert line[1] == '#'; }
    assert Lower(words[0]) == "#";
    ReadLineDispatch(Decimal.Format, line);
  }

  /** The documented star line on its own loads as that star. */
  lemma StarFileLoads(b: seq<string>)
    requires b == ["Star", "10", "red", "1000", "1", "2", "3", "4"]
    ensures ReadScene(Decimal.Format, [Typed(b)]) == Success(Scene([Body(Star, 10, "red", 1000, 1, 2, 3, 4)], 0))
  {
    var fmt, star := Decimal.Format, Body(Star, 10, "red", 1000, 1, 2, 3, 4);
    StarLineReads(b);
    assert ReadScene(fmt, []) == Success(Scene([], 0)) by { assert Outcomes(fmt, []) == []; }
    ReadSceneCons(fmt, Typed(b), [], star, [], 0);
    assert [Typed(b)] + [] == [Typed(b)] && [star] + [] == [star];
  }

  /** The `Asteroid` line is neither skipped nor a star or planet line. */
  lemma AsteroidLineIsUnknown(a: seq<string>)
    requires a == ["Asteroid", "1"]
    ensures !IsSkipped(Typed(a)) && Keyword(Typed(a)) != Tag(Star) && Keyword(Typed(a)) != Tag(Planet)
  {
    AsteroidWords(a);
    AsteroidKeyword(a[0]);
    assert IsToken(a[0]);
    TypedSplits(a);
  }

  /** A two-line file: the unknown line is counted, the star is kept. */
  lemma SmallScene(a: seq<string>, b: seq<string>)
    requires a == ["Asteroid", "1"]
    requires b == ["Star", "10", "red", "1000", "1", "2", "3", "4"]
    ensures ReadScene(Decimal.Format, [Typed(a), Typed(b)]) == Success(Scene([Body(Star, 10, "red", 1000, 1, 2, 3, 4)], 1))
  {
    StarFileLoads(b);
    AsteroidLineIsUnknown(a);
    UnknownLineOnlyWarns(Decimal.Format, [], Typed(a), [Typed(b)]);
    assert [] + [Typed(a)] + [Typed(b)] == [Typed(a), Typed(b)];
    assert [] + [Typed(b)] == [Typed(b)];
  }

  /** A statistics line of three numbers reads as one sample. */
  lemma SampleReads(words: seq<string>)
    requires words == ["1", "2", "3"]
    ensures ReadSample(Decimal.Format, Typed(words)) == Success(Sample(1, 2, 3))
  {
    SmallNumbers();
    TypedSplits(words);
  }

  /** A statistics line with two numbers stops the read at position 2. */
  lemma ShortSampleFails(words: seq<string>)
    requires words == ["1", "2"]
    ensures ReadSample(Decimal.Format, Typed(words)) == Failure(MissingField(2))
  {
    SmallNumbers();
    TypedSplits(words);
  }
}
