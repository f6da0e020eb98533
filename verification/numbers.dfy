/** Numbers are kept abstract. The scene and statistics files convert each
    numeric token with Python's `float()` and print numbers with `str()`;
    the model replaces that pair by a `NumberFormat` over an arbitrary
    number type, and every property that needs printed numbers to read back
    states this as the explicit hypothesis `Faithful(fmt)`. */
module Numbers {
  import opened Wrappers
  import opened Text

  /** A partial parser (the role of `float(token)`) and a printer (the role
      of `str(x)` inside `format`). */
  datatype NumberFormat<!N> = NumberFormat(parse: string -> Option<N>, show: N -> string)

  /** The printer yields one whitespace-free token that parses back to the
      very number printed. */
  ghost predicate Faithful<N(!new)>(fmt: NumberFormat<N>) {
    forall x: N :: IsToken(fmt.show(x)) && fmt.parse(fmt.show(x)) == Some(x)
  }

  /** The two exceptions a malformed line raises: `IndexError` when a token
      position is missing, `ValueError` when `float()` rejects a token.
      The position is the token index the reader was converting. */
  datatype LoadError = MissingField(pos: nat) | BadNumber(pos: nat, token: string)

  /** `float(tokens[i])` as Python evaluates it: indexing first, then
      conversion. */
  function NumberAt<N>(fmt: NumberFormat<N>, toks: seq<string>, i: nat): (r: Result<N, LoadError>)
    ensures r.Success? <==> i < |toks| && fmt.parse(toks[i]).Some?
    ensures r.Success? ==> fmt.parse(toks[i]) == Some(r.value)
    ensures r.Failure? ==> r.error == if i >= |toks| then MissingField(i) else BadNumber(i, toks[i])
  {
    if i >= |toks| then Failure(MissingField(i))
    else match fmt.parse(toks[i])
      case None => Failure(BadNumber(i, toks[i]))
      case Some(x) => Success(x)
  }

  /** `tokens[i]` kept as a raw string (the color field). */
  function TokenAt(toks: seq<string>, i: nat): (r: Result<string, LoadError>)
    ensures r.Success? <==> i < |toks|
    ensures r.Success? ==> r.value == toks[i]
    ensures r.Failure? ==> r.error == MissingField(i)
  {
    if i >= |toks| then Failure(MissingField(i)) else Success(toks[i])
  }
}

/** A concrete number format on natural numbers written in decimal. It shows
    that the hypothesis `Faithful` can be met, and it gives the concrete
    scene lines used as examples something to parse. */
module Decimal {
  import opened Wrappers
  import opened Text
  import opened Numbers

  predicate IsDigit(c: char) {
    '0' <= c <= '9'
  }

  function DigitChar(d: nat): char
    requires d < 10
  {
    ('0' as int + d) as char
  }

  /** Decimal digits of `n`, most significant first, without leading zeros. */
  function Show(n: nat): (s: string)
    ensures |s| > 0
    ensures forall i :: 0 <= i < |s| ==> IsDigit(s[i])
  {
    if n < 10 then [DigitChar(n)] else Show(n / 10) + [DigitChar(n % 10)]
  }

  /** Value of a string of digits. */
  function Value(s: string): nat
    requires forall i :: 0 <= i < |s| ==> IsDigit(s[i])
  {
    if |s| == 0 then 0
    else
      assert IsDigit(s[|s| - 1]);
      Value(s[..|s| - 1]) * 10 + (s[|s| - 1] as int - '0' as int)
  }

  /** Accepts a non-empty run of decimal digits and nothing else. */
  function Parse(s: string): (r: Option<nat>)
    ensures r.Some? <==> |s| > 0 && forall i :: 0 <= i < |s| ==> IsDigit(s[i])
  {
    if |s| > 0 && forall i :: 0 <= i < |s| ==> IsDigit(s[i]) then Some(Value(s)) else None
  }

  const Format: NumberFormat<nat> := NumberFormat(Parse, Show)

  lemma {:induction false} ValueOfShow(n: nat)
    ensures Value(Show(n)) == n
  {
    if n >= 10 {
      var s := Show(n);
      assert s[..|s| - 1] == Show(n / 10);
      ValueOfShow(n / 10);
    }
  }

  /** Decimal printing reads back exactly, and never contains whitespace. */
  lemma FormatIsFaithful()
    ensures Faithful(Format)
  {
    forall x: nat ensures IsToken(Show(x)) && Parse(Show(x)) == Some(x) {
      ValueOfShow(x);
    }
  }
}
