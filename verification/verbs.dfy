/**
  The lexical record of a verb and the three axes of a conjugation request:
  conjugation class, primary form and voice.
 */
module Verbs {

  /** The conjugation class code. The five named codes are the ones the
      engine knows; the code type is open, so any other string is `Other`. */
  datatype ConjClass =
    | Godan         // five-grade
    | KamiIchidan   // upper one-grade
    | ShimoIchidan  // lower one-grade
    | Sahen         // irregular "suru"
    | Kahen         // irregular "kuru"
    | Other(code: string)

  /** The raw class code string the source compares against. */
  function Code(c: ConjClass): string
  {
    match c
    case Godan => "GODAN"
    case KamiIchidan => "KAMI_ICHIDAN"
    case ShimoIchidan => "SHIMO_ICHIDAN"
    case Sahen => "SAHEN"
    case Kahen => "KAHEN"
    case Other(code) => code
  }

  /** Both one-grade codes select the same strategy. */
  predicate IsIchidan(c: ConjClass)
  {
    Code(c) == "KAMI_ICHIDAN" || Code(c) == "SHIMO_ICHIDAN"
  }

  predicate IsSahen(c: ConjClass)
  {
    Code(c) == "SAHEN"
  }

  predicate IsKahen(c: ConjClass)
  {
    Code(c) == "KAHEN"
  }

  /** The ten primary forms; exactly one is chosen per request. */
  datatype PrimaryForm =
    | Dict    // dictionary form
    | Masu    // polite non-past
    | Ta      // past
    | Te      // conjunctive
    | Katei   // conditional (-ba)
    | Meirei  // imperative
    | Ikou    // volitional
    | Kibou   // desiderative (-tai)
    | Prog    // progressive (-te iru)
    | Perf    // perfective (-te shimau)

  /** The voice slot; at most one voice is applied. */
  datatype Voice = Passive | Causative | Potential | Respect

  datatype Transitivity = VI | VT | VIT | OtherTransitivity

  /** A verb: the kana head shared by all forms, its kanji spellings, the
      conjugating kana tail, accent labels, class and transitivity. The
      fields stand for `KANA_START`, `KANJI_START`, `KANA_END`,
      `ACCENT_TYPE`, `CONJ_CLASS` and `TRANSITIVITY` of the source record. */
  datatype Verb = Verb(
    kanaStart: string,
    kanjiStart: seq<string>,
    kanaEnd: string,
    accentType: seq<string>,
    conjClass: ConjClass,
    transitivity: Transitivity)
}
