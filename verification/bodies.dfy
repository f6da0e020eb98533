/** The record model: the two kinds of celestial object and the seven
    fields a scene line carries for each. The `Star` and `Planet` classes
    themselves live in `solar_objects`, which is not part of this model;
    only their `type` tag and the fields the scene file reads and writes
    are represented. */
module Bodies {
  import opened Wrappers
  import opened Text

  datatype Kind = Star | Planet

  /** The object's `type` tag, which is its kind's name in lower case. */
  function Tag(k: Kind): string {
    match k
    case Star => "star"
    case Planet => "planet"
  }

  /** The word the writer prints for a kind. */
  function Label(k: Kind): string {
    match k
    case Star => "Star"
    case Planet => "Planet"
  }

  /** The printed word is the tag capitalised, as `type.capitalize()`
      computes it. */
  lemma LabelCapitalizesTag(k: Kind)
    ensures Label(k) == Capitalize(Tag(k))
  {
    match k
    case Star => assert Capitalize("star") == "Star";
    case Planet => assert Capitalize("planet") == "Planet";
  }

  /** The kind a lower-cased keyword selects, if any. */
  function KindOf(keyword: string): (r: Option<Kind>)
    ensures forall k :: r == Some(k) <==> keyword == Tag(k)
  {
    if keyword == Tag(Star) then Some(Star)
    else if keyword == Tag(Planet) then Some(Planet)
    else None
  }

  /** A printed label is a single token, does not look like a comment, and
      lower-cases back to the tag that selects its kind. */
  lemma LabelReadsBack(k: Kind)
    ensures IsToken(Label(k))
    ensures Label(k)[0] != '#'
    ensures KindOf(Lower(Label(k))) == Some(k)
  {
    var l := Lower(Label(k));
    match k
    case Star =>
      assert l[0] == 's' && l[1] == 't' && l[2] == 'a' && l[3] == 'r';
      assert l == "star";
    case Planet =>
      assert l[0] == 'p' && l[1] == 'l' && l[2] == 'a' && l[3] == 'n' && l[4] == 'e' && l[5] == 't';
      assert l == "planet";
  }

  /** One star or planet as the scene file describes it: radius `R`, a raw
      color word, mass `m`, position (`x`, `y`) and velocity (`Vx`, `Vy`). */
  datatype Body<N> = Body(kind: Kind, R: N, color: string, m: N, x: N, y: N, Vx: N, Vy: N)
}
