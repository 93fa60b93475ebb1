/**
  The conjugation engine: voice, then primary form, then negation, applied
  to a verb's dictionary reading by table lookup and suffix surgery. The
  model follows the code as written, including where it departs from
  standard Japanese: `applyPrimary` has no irregular branch, voice-derived
  words keep the original class, and past negation edits the past surface.
 */
module Conjugation {

  import opened Wrappers
  import opened Strings
  import opened Verbs
  import Gotan

  /** The dictionary reading: kana head followed by kana tail. */
  function DictKana(v: Verb): string
  {
    v.kanaStart + v.kanaEnd
  }

  /** `lastKana`: the final kana, "" for "". */
  function LastKana(s: string): string
  {
    Last(s)
  }

  /** `stem`: everything but the final kana. */
  function Stem(s: string): string
  {
    DropLast(s, 1)
  }

  /** Five-grade final to its plain negative ending. */
  const GodanNaEnd: map<string, string> := map[
    "う" := "わない", "く" := "かない", "ぐ" := "がない", "す" := "さない", "つ" := "たない",
    "ぬ" := "なない", "ぶ" := "ばない", "む" := "まない", "る" := "らない"]

  /** Five-grade final to its continuative (i-row) kana. */
  const GodanMasuStemEnd: map<string, string> := map[
    "う" := "い", "く" := "き", "ぐ" := "ぎ", "す" := "し", "つ" := "ち",
    "ぬ" := "に", "ぶ" := "び", "む" := "み", "る" := "り"]

  /** The voice transform's own a-row table. */
  const ARow: map<string, string> := map[
    "う" := "わ", "く" := "か", "ぐ" := "が", "す" := "さ", "つ" := "た",
    "ぬ" := "な", "ぶ" := "ば", "む" := "ま", "る" := "ら"]

  /** Five-grade final to its potential ending. */
  const PotEnd: map<string, string> := map[
    "う" := "える", "く" := "ける", "ぐ" := "げる", "す" := "せる", "つ" := "てる",
    "ぬ" := "ねる", "ぶ" := "べる", "む" := "める", "る" := "れる"]

  /** The e-row table, written out identically in the conditional and the
      imperative branches of `applyPrimary`. */
  const ERow: map<string, string> := map[
    "う" := "え", "く" := "け", "ぐ" := "げ", "す" := "せ", "つ" := "て",
    "ぬ" := "ね", "ぶ" := "べ", "む" := "め", "る" := "れ"]

  /** The o-row table of the volitional branch. */
  const ORow: map<string, string> := map[
    "う" := "お", "く" := "こ", "ぐ" := "ご", "す" := "そ", "つ" := "と",
    "ぬ" := "の", "ぶ" := "ぼ", "む" := "も", "る" := "ろ"]

  datatype TeTa = TeTa(te: string, ta: string)

  predicate IsTeEnd(c: char) { c == 'て' || c == 'で' }

  /** The five-grade te and ta forms: both are the stem plus two kana that
      differ only in the last one (て/た or で/だ). */
  function GodanTeTa(word: string): (r: TeTa)
    ensures |r.te| == |r.ta| == |Stem(word)| + 2
    ensures Stem(word) <= r.te && Stem(word) <= r.ta
    ensures r.te[|r.te| - 2] == r.ta[|r.ta| - 2]
    ensures IsTeEnd(r.te[|r.te| - 1])
    ensures r.te[|r.te| - 1] == 'て' <==> r.ta[|r.ta| - 1] == 'た'
    ensures r.te[|r.te| - 1] == 'で' <==> r.ta[|r.ta| - 1] == 'だ'
  {
    var l := LastKana(word);
    var s := Stem(word);
    var ends :=
      if word == "いく" then ("って", "った")
      else if l == "う" || l == "つ" || l == "る" then ("って", "った")
      else if l == "む" || l == "ぶ" || l == "ぬ" then ("んで", "んだ")
      else if l == "く" then ("いて", "いた")
      else if l == "ぐ" then ("いで", "いだ")
      else if l == "す" then ("して", "した")
      else ("って", "った");
    TeTaShape(s, ends.0, ends.1);
    TeTa(s + ends.0, s + ends.1)
  }

  /** A stem followed by two-kana te and ta endings that share their first
      kana and pair て with た, で with だ. */
  lemma TeTaShape(s: string, te: string, ta: string)
    requires |te| == |ta| == 2 && te[0] == ta[0] && IsTeEnd(te[1])
    requires te[1] == 'て' <==> ta[1] == 'た'
    requires te[1] == 'で' <==> ta[1] == 'だ'
    ensures var r := TeTa(s + te, s + ta);
      && |r.te| == |r.ta| == |s| + 2
      && s <= r.te && s <= r.ta
      && r.te[|r.te| - 2] == r.ta[|r.ta| - 2]
      && IsTeEnd(r.te[|r.te| - 1])
      && (r.te[|r.te| - 1] == 'て' <==> r.ta[|r.ta| - 1] == 'た')
      && (r.te[|r.te| - 1] == 'で' <==> r.ta[|r.ta| - 1] == 'だ')
  {
  }

  /** The suru branch of the voice transform and of the negative: chosen by
      the class code or by the reading ending in する. */
  predicate SuruLike(word: string, cls: ConjClass)
  {
    IsSahen(cls) || EndsWith(word, "する")
  }

  /** The kuru branch, reached only when the suru branch is not taken. */
  predicate KuruLike(word: string, cls: ConjClass)
  {
    IsKahen(cls) || EndsWith(word, "くる")
  }

  /** `applyVoice`: the dictionary reading with the voice formant applied. */
  function ApplyVoice(v: Verb, voice: Option<Voice>): string
  {
    var base := DictKana(v);
    var cls := v.conjClass;
    if voice.None? then base
    else if SuruLike(base, cls) then
      var s := DropLast(base, 2);
      match voice.value
      case Causative => s + "させる"
      case Passive | Respect => s + "される"
      case Potential => s + "できる"
    else if KuruLike(base, cls) then
      var s := DropLast(base, 2);
      match voice.value
      case Causative => s + "こさせる"
      case Passive | Respect | Potential => s + "こられる"
    else
      var s := Stem(base);
      if IsIchidan(cls) then
        match voice.value
        case Causative => s + "させる"
        case Passive | Respect | Potential => s + "られる"
      else
        var l := LastKana(base);
        var a := Get(ARow, l);
        match voice.value
        case Causative => if a != "" then s + a + "せる" else base + "せる"
        case Passive | Respect => if a != "" then s + a + "れる" else base + "れる"
        case Potential =>
          var e := Get(PotEnd, l);
          if e != "" then s + e else base
  }

  /** `applyPrimary`: one primary form of a dictionary-form word. Only the
      one-grade codes get the one-grade rules; every other class, the
      irregular ones included, takes the five-grade rules. */
  function ApplyPrimary(word: string, primary: PrimaryForm, cls: ConjClass): string
  {
    var l := LastKana(word);
    var s := Stem(word);
    var ichidan := IsIchidan(cls);
    match primary
    case Dict => word
    case Masu =>
      if ichidan then s + "ます"
      else
        var end := Get(GodanMasuStemEnd, l);
        if end != "" then s + end + "ます" else word + "ます"
    case Ta | Te | Prog | Perf =>
      var teTa := if !ichidan then GodanTeTa(word) else TeTa(s + "て", s + "た");
      if primary == Ta then teTa.ta
      else if primary == Te then teTa.te
      else if primary == Prog then teTa.te + "いる"
      else teTa.te + "しまう"
    case Katei =>
      if ichidan then s + "れば"
      else
        var e := Get(ERow, l);
        if e != "" then s + e + "ば" else word + "ば"
    case Meirei =>
      if ichidan then s + "ろ"
      else
        var e := Get(ERow, l);
        if e != "" then s + e else word
    case Ikou =>
      if ichidan then s + "よう"
      else
        var o := Get(ORow, l);
        if o != "" then s + o + "う" else word + "う"
    case Kibou =>
      if ichidan then s + "たい"
      else
        var masuStem := Get(GodanMasuStemEnd, l);
        if masuStem != "" then s + masuStem + "たい" else word + "たい"
  }

  /** `negativeDict`: the plain negative of a dictionary-form word. */
  function NegativeDict(dictWord: string, cls: ConjClass): string
  {
    if SuruLike(dictWord, cls) then DropLast(dictWord, 2) + "しない"
    else if KuruLike(dictWord, cls) then DropLast(dictWord, 2) + "こない"
    else
      var l := LastKana(dictWord);
      var s := Stem(dictWord);
      if IsIchidan(cls) then s + "ない"
      else
        var end := Get(GodanNaEnd, l);
        if end != "" then s + end else dictWord + "ない"
  }

  /** `word.replace(/しまう$/, 'しまわない')`. */
  function ReplaceTrailingShimau(word: string): string
  {
    if EndsWith(word, "しまう") then DropLast(word, 3) + "しまわない" else word
  }

  /** `applyNegation`: the negative of the primary surface `word`, given the
      voice-applied dictionary word it was built from. */
  function ApplyNegation(word: string, primary: PrimaryForm, dictWord: string, cls: ConjClass): string
  {
    match primary
    case Te => DropLast(NegativeDict(dictWord, cls), 2) + "なくて"
    case Dict => NegativeDict(dictWord, cls)
    case Masu => DropLast(word, 2) + "ません"
    case Ta => DropLast(word, 1) + "なかった"
    case Katei => DropLast(NegativeDict(dictWord, cls), 2) + "なければ"
    case Meirei => dictWord + "な"
    case Ikou => DropLast(NegativeDict(dictWord, cls), 2) + "ないでおこう"
    case Kibou => DropLast(word, 2) + "たくない"
    case Prog =>
      if EndsWith(word, "ている") then DropLast(word, 3) + "ていない"
      else if EndsWith(word, "でいる") then DropLast(word, 3) + "でいない"
      else word + "ない"
    case Perf =>
      if EndsWith(word, "てしまう") then DropLast(word, 4) + "てしまわない"
      else if EndsWith(word, "でしまう") then DropLast(word, 4) + "でしまわない"
      else ReplaceTrailingShimau(word)
  }

  /** `buildForm`: voice, then primary form, then (optionally) negation.
      The class passed down is always the verb's own class. */
  function BuildForm(v: Verb, primary: PrimaryForm, voice: Option<Voice>, negative: bool): string
  {
    var dictWithVoice := ApplyVoice(v, voice);
    var primaryWord := ApplyPrimary(dictWithVoice, primary, v.conjClass);
    if negative then ApplyNegation(primaryWord, primary, dictWithVoice, v.conjClass)
    else primaryWord
  }

  /** `conjugatedEnding`: the built form with the kana head removed when it
      starts with it, so that head and ending concatenate back to the full
      form; otherwise the full form itself. */
  function ConjugatedEnding(v: Verb, primary: PrimaryForm, voice: Option<Voice>, negative: bool): (r: string)
    ensures StartsWith(BuildForm(v, primary, voice, negative), v.kanaStart) ==>
      v.kanaStart + r == BuildForm(v, primary, voice, negative)
    ensures !StartsWith(BuildForm(v, primary, voice, negative), v.kanaStart) ==>
      r == BuildForm(v, primary, voice, negative)
  {
    var full := BuildForm(v, primary, voice, negative);
    var prefix := v.kanaStart;
    if StartsWith(full, prefix) then full[|prefix|..] else full
  }
}
