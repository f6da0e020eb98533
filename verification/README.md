# Scene and statistics files of the solar-system simulator

This project models `solar_input.py`, the file layer of a small Python
solar-system simulator, and proves properties of the model in Dafny.
The layer has two file formats:

- **Scene file.** It holds one star or planet per line:
  `Star <R> <color> <m> <x> <y> <Vx> <Vy>`.
  - `read_space_objects_data_from_file` skips blank lines and lines whose
    first character is `#`.
  - It dispatches on the lower-cased first word. `star` and `planet` are
    parsed by `parse_star_parameters` / `parse_planet_parameters`. Any other
    word prints "Unknown space object" and the line is dropped.
  - A missing field (`IndexError`) or a non-numeric field (`ValueError`)
    aborts the whole load.
  - `write_space_objects_data_to_file` prints each object back in the same
    shape, followed by a space and a newline.
- **Statistics file.** It holds `time speed distance` per line.
  `adding_statistics` appends such a line; `statistics_read` reads the file
  into three parallel lists.

Modules, one per component:

- `Text`: Python's `isspace`, `strip()`, `split()`, `lower()`,
  `capitalize()`, and iterating over a text file line by line.
- `Numbers`: the abstract number format standing for `float()` / `str()`,
  and the two load errors.
- `Decimal`: a concrete number format on naturals that meets the round-trip
  hypothesis.
- `Bodies`: kinds, tags, printed labels, and the record.
- `SceneReader`, `SceneWriter`, `RoundTrip`, `Statistics`.
- `Examples`: concrete lines, including the documented
  `Star 10 red 1000 1 2 3 4`.

Numbers are generic. Every operation takes a `NumberFormat<N>`, a partial
parser plus a printer. Properties that need printed numbers to read back
assume this explicitly as `Faithful(fmt)`. `Decimal.FormatIsFaithful` shows
the hypothesis can be met.

The load result is `Result<Scene, LoadError>`:

- A `Scene` carries the objects in file order and the number of "Unknown
  space object" diagnostics printed.
- A `LoadError` is `MissingField(pos)` for Python's `IndexError` or
  `BadNumber(pos, token)` for its `ValueError`. `pos` is the token index
  being converted.

Fields are converted left to right, exactly in the order of the source's
assignments. The first failing field therefore decides the error.

The skip rule is easily read as "after trimming, empty or starting with
`#`". The code differs, and the model follows the code: line 18 tests
`line[0]` on the raw line. An indented `#` is therefore not a comment; its
first word `#` is an unknown keyword (`Examples.IndentedHashIsUnknown`).

## Model

| member | source | states |
|---|---|---|
| `SceneReader.SkipTestIsStrip` | solar_input.py:18-19 | a line is skipped exactly when `strip()` leaves nothing or its raw first character is `#` |
| `SceneReader.ReadLineDispatch` | solar_input.py:18-30 | a line is skipped iff blank or a raw comment; otherwise it is unknown iff its lower-cased first word is neither `star` nor `planet`, and a `star`/`planet` line is read by that kind's field parser on its words |
| `SceneReader.DispatchIgnoresCase` | solar_input.py:20-28 | two lines with the same lower-cased keyword and the same remaining words read identically (`STAR` = `Star` = `star`) |
| `SceneReader.ParseBodySpec` | solar_input.py:48-54 | field parsing succeeds iff there are at least 8 words and every numeric field parses; the record takes R, color, m, x, y, Vx, Vy from words 1..7; otherwise the error is that of the first field, left to right, that is missing (`IndexError`) or does not parse (`ValueError`) |
| `SceneReader.ParseBodyReadsFieldsOnly` | solar_input.py:68-74 | the planet (and star) field parser looks at words 1..7 only: word lists agreeing there parse identically |
| `SceneReader.ExtraTokensIgnored` | solar_input.py:48-54 | words after the seventh field never change the parsed record |
| `SceneReader.Collect` | solar_input.py:15-33 | the loop over line outcomes succeeds iff no line is malformed, and otherwise fails with the error of the first malformed line |
| `SceneReader.ReadSceneFailure` | solar_input.py:17-28 | a load fails exactly when some line of the file is malformed, and then with the first malformed line's error |
| `SceneReader.ReadSceneCollects` | solar_input.py:15-33 | a successful load holds one record per `star`/`planet` line, in file order, each the record its line parses to, and one diagnostic per unknown line |
| `SceneReader.SkippedLineIsInert` | solar_input.py:18-19 | inserting a blank or comment line anywhere changes nothing |
| `SceneReader.UnknownLineOnlyWarns` | solar_input.py:29-30 | inserting an unknown-keyword line anywhere adds exactly one diagnostic and nothing else |
| `SceneReader.MalformedLineAborts` | solar_input.py:21-28 | a malformed line makes the load fail with its error whatever follows, unless an earlier line already failed |
| `SceneReader.OnlySkippedLines` | solar_input.py:15-19 | a file of only blank and comment lines loads as an empty list with no diagnostic |
| `SceneReader.ReadSceneAppend` | solar_input.py:17-30 | loading a concatenation is loading the first part and then the second: the first failure wins, otherwise objects and diagnostics add up in order |
| `SceneReader.ReadSceneCons` | solar_input.py:21-28 | a record line in front of a loadable file puts its record in front of the loaded objects |
| `SceneReader.PrefixFailureAborts` | solar_input.py:17-28 | once a prefix of the file fails to load, the whole file fails the same way |
| `SceneReader.LoadScene` | solar_input.py:15-33 | the loop with its accumulators and early exit computes exactly the load result |
| `Bodies.KindOf` | solar_input.py:21-25 | a lower-cased keyword selects kind `k` iff it equals `k`'s tag |
| `Bodies.LabelCapitalizesTag` | solar_input.py:88 | the word printed for an object is its `type` tag capitalised |
| `Bodies.LabelReadsBack` | solar_input.py:20-25 | a printed kind word is one token, is not a comment, and lower-cases back to the tag that selects the same kind |
| `SceneWriter.WriteScene` | solar_input.py:86-89 | one line per object, in list order, each the formatted record of that object |
| `SceneWriter.FieldsAreTokens` | solar_input.py:88-89 | with single-word numbers and color, all eight printed words are whitespace-free |
| `SceneWriter.FormatBodySplits` | solar_input.py:88-89 | a written line splits back into exactly its eight printed words, is not blank and does not start with `#` |
| `SceneWriter.FormatBodyIsLine` | solar_input.py:88 | a written line ends with a space and a newline and contains no other newline |
| `RoundTrip.ReadsBackRecord` | solar_input.py:88-89 | a written record line reads back as the same record |
| `RoundTrip.WrittenLineLoads` | solar_input.py:86-89 | a written line in front of any loadable file, diagnostics included, puts its object in front of the loaded ones and keeps the diagnostic count |
| `RoundTrip.SceneRoundTrip` | solar_input.py:86-89 | loading the lines written for a list of objects gives back that list with no diagnostic |
| `RoundTrip.ParsedColorsFit` | solar_input.py:20-28 | every object the reader loads has a one-word color, so reader output meets the round trip's color hypothesis |
| `RoundTrip.ReloadRoundTrip` | solar_input.py:15-33 | saving the objects of any successful load and loading the result gives back those objects with no diagnostic |
| `RoundTrip.FileRoundTrip` | solar_input.py:16-17 | the same holds through the file text: written lines concatenated, then cut into lines as iteration does |
| `Text.Strip` | solar_input.py:18 | `strip()` leaves nothing exactly on an all-whitespace line and otherwise starts and ends on non-whitespace |
| `Text.Split` | solar_input.py:20 | `split()` yields whitespace-free words, and none exactly for a blank line |
| `Text.SplitSkipsSpace` | solar_input.py:20 | `split()` ignores whitespace in front of the first word |
| `Text.SplitToken` | solar_input.py:20 | a whitespace-free word splits into itself alone |
| `Text.SplitTokenThen` | solar_input.py:20 | a word ended by whitespace is the first word, and splitting carries on after it |
| `Text.SplitSpaced` | solar_input.py:88 | words each followed by one space, plus trailing whitespace, split back into those words |
| `Text.SplitLines` | solar_input.py:17 | file iteration yields non-empty lines that concatenate back to the text, each with no newline before its last character, and all but the last ending in a newline |
| `Text.SplitLinesConcat` | solar_input.py:117 | cutting the text of full lines into lines gives back those lines |
| `Text.Lower` | solar_input.py:20 | `lower()` keeps the length and folds each character |
| `Text.Capitalize` | solar_input.py:88 | `capitalize()` keeps the length, and each character is upper-cased if it is the first and lower-cased otherwise |
| `Numbers.NumberAt` | solar_input.py:48 | `float(words[i])` succeeds iff word `i` exists and parses, giving the parsed number; otherwise it fails with `MissingField(i)` (`IndexError`) when the word is absent and `BadNumber(i, word)` (`ValueError`) when it does not parse |
| `Statistics.ReadFieldsSpec` | solar_input.py:118-120 | a statistics line reads iff words 0, 1, 2 exist and parse, giving time, speed, distance; otherwise the error names the first missing or unparsable position |
| `Statistics.BlankSampleFails` | solar_input.py:118 | a blank line in the statistics file aborts the read at position 0 |
| `Statistics.ReadStatsSpec` | solar_input.py:113-121 | the read succeeds iff every line reads; then the three lists have one entry per line, aligned with the lines; otherwise it fails with the first bad line's error |
| `Statistics.StatsPrefixFailure` | solar_input.py:117-120 | once a prefix of the statistics file fails, the whole read fails the same way |
| `Statistics.LoadStatistics` | solar_input.py:113-121 | the loop appending to three lists computes exactly the read result |
| `Statistics.StatLineReadsBack` | solar_input.py:101-102 | an appended statistics line is one full line that reads back as the sample written |
| `Statistics.AppendedSampleReadsBack` | solar_input.py:100-102 | appending a sample adds one entry to each list and leaves a failed read failed |
| `Statistics.StatLines` | solar_input.py:100-102 | the file after a run of appends has one line per sample in order |
| `Statistics.Unzip` | solar_input.py:113-121 | the three columns of a list of samples are aligned with it |
| `Statistics.StatsRoundTrip` | solar_input.py:100-121 | reading a file written sample by sample gives back the samples as three columns |
| `Examples.StarLineReads` | solar_input.py:42 | the documented line `Star 10 red 1000 1 2 3 4` reads as that star |
| `Examples.ShoutedStarReads` | solar_input.py:20 | `STAR 10 red 1000 1 2 3 4` reads as the same star |
| `Examples.BadMassAborts` | solar_input.py:70 | a planet line with mass `heavy` fails with a bad number at position 3 |
| `Examples.ShortLineAborts` | solar_input.py:70 | `Planet 10 red` fails with a missing field at position 3 |
| `Examples.AsteroidIsUnknown` | solar_input.py:29-30 | an `Asteroid` line is unknown |
| `Examples.CommentIsSkipped` | solar_input.py:18-19 | a line starting with `#` is skipped |
| `Examples.IndentedHashIsUnknown` | solar_input.py:18-20 | ` # x` is not a comment but an unknown keyword `#` |
| `Examples.SmallScene` | solar_input.py:15-33 | an `Asteroid` line followed by the documented star loads that star with one diagnostic |
| `Examples.SampleReads` | solar_input.py:118-120 | `1 2 3` reads as one sample |
| `Examples.ShortSampleFails` | solar_input.py:120 | `1 2` fails with a missing field at position 2 |

## Left out

- File I/O is not modelled: opening, reading, writing and appending to
  files. The reader takes the file's lines, and the writer returns the lines
  it would write.
- Newline translation is left out. `Text.SplitLines` models iteration over
  text in which `\r\n` has already become `\n`.
- The `print("Unknown space object")` side effect is modelled as the
  `warnings` count of a successful load. Diagnostics printed before a failing
  line are not part of the error result.
- Python's exceptions are modelled as the `Failure` of a `Result`. The
  objects built before the failure are lost, as they are in the source.
- `float()` and `str()` on floats are abstract (`NumberFormat`). IEEE
  arithmetic, the accepted float syntax (`inf`, `1e3`, `_`) and the
  shortest-repr printing are not modelled. Round trips assume `Faithful(fmt)`.
- The speed and distance computation in `adding_statistics`
  (`(Vx**2 + Vy**2)**0.5` and the Euclidean distance) is floating point and
  is left out. `Statistics.StatLine` receives the three numbers already
  computed.
- `Text.Lower`, `Text.Capitalize`: only ASCII letters are case-mapped.
  Dispatch compares the result of `lower()` with `star` and `planet`. No
  non-ASCII character lower-cases to one of those ASCII letters, so the
  restriction cannot change which lines are recognised. The printed words
  `Star`/`Planet` are ASCII.
- The skip test is stated as `IsBlank(line) || line[0] == '#'`.
  `SceneReader.SkipTestIsStrip` proves it equal to the source's
  `len(line.strip()) == 0 or line[0] == '#'`.
- The `Star` and `Planet` classes live in `solar_objects`, which is not part
  of this model. Only their `type` tag and the seven fields read and written
  here are represented. Graphical state is ignored.
- The `__main__` guard only prints a message and is not modelled.
