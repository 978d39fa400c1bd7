/** The one string transformation the pipeline applies itself:
    `text.replace("\n", "")` on the response body. */
module Text {

  /** How many times `c` occurs in `s`. */
  function Occurrences(s: string, c: char): (n: nat)
    ensures n <= |s|
    ensures n == 0 <==> c !in s
  {
    if s == [] then 0
    else (if s[0] == c then 1 else 0) + Occurrences(s[1..], c)
  }

  /** `s.replace("\n", "")`: `s` with every line feed removed and every other
      character kept, in order. */
  function StripNewlines(s: string): (r: string)
    ensures '\n' !in r
    ensures |r| == |s| - Occurrences(s, '\n')
    ensures forall c | c != '\n' :: Occurrences(r, c) == Occurrences(s, c)
    ensures r == s <==> '\n' !in s
  {
    if s == [] then []
    else
      var rest := StripNewlines(s[1..]);
      if s[0] == '\n' then rest
      else
        assert ([s[0]] + rest)[1..] == rest;
        [s[0]] + rest
  }

  /** Stripping distributes over concatenation, so it keeps the order of the
      characters it does not remove. */
  lemma {:induction false} StripNewlinesConcat(a: string, b: string)
    ensures StripNewlines(a + b) == StripNewlines(a) + StripNewlines(b)
  {
    if a == [] {
      assert a + b == b;
    } else {
      assert (a + b)[0] == a[0];
      assert (a + b)[1..] == a[1..] + b;
      StripNewlinesConcat(a[1..], b);
    }
  }

  /** Stripping twice is stripping once. */
  lemma StripNewlinesIdempotent(s: string)
    ensures StripNewlines(StripNewlines(s)) == StripNewlines(s)
  {
  }
}
