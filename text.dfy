/** Strings as sequences of characters: concatenation of a list of pieces and
    substring containment, the only way the moderation emails' HTML is
    observed. */
module Text {

  /** The concatenation of all pieces, in order. */
  function Join(parts: seq<string>): string
  {
    if parts == [] then "" else parts[0] + Join(parts[1..])
  }

  /** `pat` occurs in `text` starting at position `i`. */
  ghost predicate OccursAt(text: string, pat: string, i: int)
  {
    0 <= i && i + |pat| <= |text| && text[i..i + |pat|] == pat
  }

  /** `pat` occurs somewhere in `text` (JavaScript's `text.includes(pat)`). */
  ghost predicate Contains(text: string, pat: string)
  {
    exists i :: OccursAt(text, pat, i)
  }

  /** A string contains its own prefix. */
  lemma ContainsPrefix(pat: string, rest: string)
    ensures Contains(pat + rest, pat)
  {
    assert (pat + rest)[0..|pat|] == pat;
    assert OccursAt(pat + rest, pat, 0);
  }

  /** Putting text in front of a string keeps every occurrence, shifted. */
  lemma ContainsPrepend(front: string, text: string, pat: string)
    requires Contains(text, pat)
    ensures Contains(front + text, pat)
  {
    var i :| OccursAt(text, pat, i);
    assert (front + text)[|front| + i..|front| + i + |pat|] == text[i..i + |pat|];
    assert OccursAt(front + text, pat, |front| + i);
  }

  /** Every piece of a list occurs in the concatenation of the list. */
  lemma {:induction false} JoinContainsPart(parts: seq<string>, k: nat)
    requires k < |parts|
    ensures Contains(Join(parts), parts[k])
  {
    if k == 0 {
      ContainsPrefix(parts[0], Join(parts[1..]));
    } else {
      JoinContainsPart(parts[1..], k - 1);
      ContainsPrepend(parts[0], Join(parts[1..]), parts[k]);
    }
  }
}
