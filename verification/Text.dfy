/** Short strings as numbers. */
module Text {

  /** A string as one number, its first character in the highest byte. */
  function ShortString(text: string): nat {
    if text == "" then 0 else 256 * ShortString(text[..|text| - 1]) + text[|text| - 1] as int
  }

  lemma NothingShort()
    ensures ShortString("") == 0
  {
  }

  lemma OneMore(text: string, a: char)
    ensures ShortString(text + [a]) == 256 * ShortString(text) + a as int
  {
    assert (text + [a])[..|text|] == text;
  }

  lemma FiveMore(text: string, a: char, b: char, c: char, d: char, e: char)
    ensures ShortString(text + [a, b, c, d, e]) ==
            256 * (256 * (256 * (256 * (256 * ShortString(text) + a as int) + b as int) + c as int) + d as int) + e as int
  {
    OneMore(text, a);
    OneMore(text + [a], b);
    OneMore(text + [a] + [b], c);
    OneMore(text + [a] + [b] + [c], d);
    OneMore(text + [a] + [b] + [c] + [d], e);
    assert text + [a] + [b] + [c] + [d] + [e] == text + [a, b, c, d, e];
  }
}
