/** The newline normalisation behind the split's hash check. */
module Newlines {

  /** `text.replace("\r\n", "\n")`. */
  function ReplaceCrLf(text: string): string {
    if |text| >= 2 && text[0] == '\r' && text[1] == '\n' then "\n" + ReplaceCrLf(text[2..])
    else if text == [] then []
    else [text[0]] + ReplaceCrLf(text[1..])
  }

  /** `text.replace("\r", "\n")`. */
  function ReplaceCr(text: string): string {
    if text == [] then [] else [if text[0] == '\r' then '\n' else text[0]] + ReplaceCr(text[1..])
  }

  /** `normalize_candidate_text`. */
  function Normalize(text: string): string {
    ReplaceCr(ReplaceCrLf(text))
  }

  lemma {:induction false} WithoutCr(text: string)
    requires '\r' !in text
    ensures ReplaceCrLf(text) == text && ReplaceCr(text) == text
  {
    if text != [] {
      WithoutCr(text[1..]);
      assert [text[0]] + text[1..] == text;
    }
  }

  lemma {:induction false} NoCrLeft(text: string)
    ensures '\r' !in ReplaceCr(text)
  {
    if text != [] {
      NoCrLeft(text[1..]);
    }
  }

  /** A text is a fixed point of the normalisation exactly when it has no carriage return. */
  lemma FixedPoint(text: string)
    ensures Normalize(text) == text <==> '\r' !in text
  {
    NoCrLeft(ReplaceCrLf(text));
    if '\r' !in text {
      WithoutCr(text);
    }
  }

  lemma NormalizeTwice(text: string)
    ensures Normalize(Normalize(text)) == Normalize(text)
  {
    NoCrLeft(ReplaceCrLf(text));
    FixedPoint(Normalize(text));
  }
}
