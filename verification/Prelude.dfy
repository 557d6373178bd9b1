/** Small shared helpers: optional values and the string operations the controller uses. */
module Prelude {
  datatype Option<+T> = None | Some(value: T)

  /** Go's `strings.Contains`. */
  predicate HasSubstring(text: string, part: string) {
    part <= text || (text != [] && HasSubstring(text[1..], part))
  }

  /** The part occurs somewhere in the text. */
  ghost predicate Occurs(text: string, part: string) {
    exists i | 0 <= i <= |text| :: part <= text[i..]
  }

  lemma {:induction false} SubstringMeansOccurs(text: string, part: string)
    ensures HasSubstring(text, part) <==> Occurs(text, part)
  {
    assert text[0..] == text;
    if text != [] {
      SubstringMeansOccurs(text[1..], part);
      if Occurs(text[1..], part) {
        var i :| 0 <= i <= |text[1..]| && part <= text[1..][i..];
        assert text[1..][i..] == text[i + 1..];
      }
      if Occurs(text, part) && !(part <= text) {
        var i :| 0 <= i <= |text| && part <= text[i..];
        assert text[i..] == text[1..][i - 1..];
      }
    }
  }

  predicate Distinct<T(==)>(xs: seq<T>) {
    forall i, j :: 0 <= i < j < |xs| ==> xs[i] != xs[j]
  }

  /** Two texts that end in tails of the same length are equal only if the tails are. */
  lemma EqualTails(a: string, s: string, b: string, t: string)
    requires |s| == |t| && a + s == b + t
    ensures a == b && s == t
  {
    assert |a| == |b|;
    assert a == (a + s)[..|a|] && s == (a + s)[|a|..];
    assert b == (b + t)[..|b|] && t == (b + t)[|b|..];
  }
}
