/**
  Properties of the conjugation engine: agreement of its inline tables with
  the exported stem tables, the shape of every stage per class, and how each
  negative relates to the affirmative forms of the same request.
 */
module ConjugationProps {

  import opened Wrappers
  import opened Strings
  import opened Verbs
  import Gotan
  import opened Conjugation

  // ----- tables -----

  /** The engine's inline vowel-row tables are the exported ones: the voice
      a-row is `aStem`, the continuative table is `iStem`, and the e-row and
      o-row tables are `eStem` and `oStem`. */
  lemma InlineRowsAgree()
    ensures ARow == Gotan.AStem
    ensures GodanMasuStemEnd == Gotan.IStem
    ensures ERow == Gotan.EStem
    ensures ORow == Gotan.OStem
  {
  }

  /** The negative endings are the a-row kana plus ない, on the nine finals. */
  lemma NaEndIsAStemPlusNai()
    ensures GodanNaEnd.Keys == Gotan.Finals
    ensures forall k :: k in Gotan.Finals ==> GodanNaEnd[k] == Gotan.AStem[k] + "ない"
  {
  }

  /** The potential endings are the e-row kana plus る, on the nine finals. */
  lemma PotEndIsEStemPlusRu()
    ensures PotEnd.Keys == Gotan.Finals
    ensures forall k :: k in Gotan.Finals ==> PotEnd[k] == Gotan.EStem[k] + "る"
  {
  }

  /** `godanTeTa` agrees with the exported te/ta tables, except for the word
      いく, which takes って/った; a final outside the tables falls back to
      って/った. */
  lemma GodanTeTaFollowsTables(word: string)
    ensures word == "いく" ==> GodanTeTa(word) == TeTa("いって", "いった")
    ensures word != "いく" && LastKana(word) in Gotan.TeConjugate ==>
      GodanTeTa(word) == TeTa(Stem(word) + Gotan.TeConjugate[LastKana(word)],
                              Stem(word) + Gotan.TaConjugate[LastKana(word)])
    ensures LastKana(word) !in Gotan.TeConjugate ==>
      GodanTeTa(word) == TeTa(Stem(word) + "って", Stem(word) + "った")
  {
    if word != "いく" && LastKana(word) in Gotan.TeConjugate {
      GodanTeTaTableCase(word);
    } else if LastKana(word) !in Gotan.TeConjugate {
      GodanTeTaFallback(word);
    }
  }

  lemma GodanTeTaTableCase(word: string)
    requires word != "いく" && LastKana(word) in Gotan.TeConjugate
    ensures GodanTeTa(word) == TeTa(Stem(word) + Gotan.TeConjugate[LastKana(word)],
                                    Stem(word) + Gotan.TaConjugate[LastKana(word)])
  {
  }

  lemma GodanTeTaFallback(word: string)
    requires LastKana(word) !in Gotan.TeConjugate
    ensures GodanTeTa(word) == TeTa(Stem(word) + "って", Stem(word) + "った")
  {
  }

  // ----- primary forms -----

  /** The fixed one-grade suffix of each non-dictionary primary form. */
  function IchidanSuffix(primary: PrimaryForm): string
  {
    match primary
    case Dict => ""
    case Masu => "ます"
    case Ta => "た"
    case Te => "て"
    case Katei => "れば"
    case Meirei => "ろ"
    case Ikou => "よう"
    case Kibou => "たい"
    case Prog => "て" + "いる"
    case Perf => "て" + "しまう"
  }

  /** A one-grade word keeps its stem in every form: each non-dictionary
      form is the word minus its final kana plus a fixed suffix, and the
      progressive and perfective are the te form plus いる or しまう. */
  lemma IchidanPrimary(word: string, primary: PrimaryForm, cls: ConjClass)
    requires IsIchidan(cls)
    ensures primary == Dict ==> ApplyPrimary(word, primary, cls) == word
    ensures primary != Dict ==> ApplyPrimary(word, primary, cls) == Stem(word) + IchidanSuffix(primary)
    ensures primary == Prog ==> ApplyPrimary(word, primary, cls) == ApplyPrimary(word, Te, cls) + "いる"
    ensures primary == Perf ==> ApplyPrimary(word, primary, cls) == ApplyPrimary(word, Te, cls) + "しまう"
  {
    if primary == Prog {
      Assoc(Stem(word), "て", "いる");
    } else if primary == Perf {
      Assoc(Stem(word), "て", "しまう");
    }
  }

  /** The five-grade ending that replaces final `l` in each primary form,
      read off the exported stem tables. */
  function GodanEnding(l: string, primary: PrimaryForm): string
    requires l in Gotan.Finals
  {
    Gotan.RowEntries(l);
    match primary
    case Dict => l
    case Masu => Gotan.IStem[l] + "ます"
    case Ta => Gotan.TaConjugate[l]
    case Te => Gotan.TeConjugate[l]
    case Katei => Gotan.EStem[l] + "ば"
    case Meirei => Gotan.EStem[l]
    case Ikou => Gotan.OStem[l] + "う"
    case Kibou => Gotan.IStem[l] + "たい"
    case Prog => Gotan.TeConjugate[l] + "いる"
    case Perf => Gotan.TeConjugate[l] + "しまう"
  }

  /** Every class other than the one-grade codes, the irregular ones
      included, conjugates by the five-grade tables: the final kana is
      replaced by the table ending of the requested form. The word いく is
      the one exception, and only in its te-based forms. */
  lemma GodanPrimary(word: string, primary: PrimaryForm, cls: ConjClass)
    requires !IsIchidan(cls)
    requires LastKana(word) in Gotan.Finals
    requires primary in {Ta, Te, Prog, Perf} ==> word != "いく"
    ensures ApplyPrimary(word, primary, cls) == Stem(word) + GodanEnding(LastKana(word), primary)
  {
    match primary
    case Dict =>
    case Ta | Te | Prog | Perf => GodanTeForms(word, primary, cls);
    case Masu | Kibou => GodanIRowForms(word, primary, cls);
    case Katei | Meirei | Ikou => GodanEORowForms(word, primary, cls);
  }

  lemma GodanTeForms(word: string, primary: PrimaryForm, cls: ConjClass)
    requires !IsIchidan(cls)
    requires LastKana(word) in Gotan.Finals
    requires word != "いく"
    requires primary == Ta || primary == Te || primary == Prog || primary == Perf
    ensures ApplyPrimary(word, primary, cls) == Stem(word) + GodanEnding(LastKana(word), primary)
  {
    var l := LastKana(word);
    var st := Stem(word);
    Gotan.RowEntries(l);
    GodanTeTaFollowsTables(word);
    if primary == Prog {
      Assoc(st, Gotan.TeConjugate[l], "いる");
    } else if primary == Perf {
      Assoc(st, Gotan.TeConjugate[l], "しまう");
    }
  }

  lemma GodanIRowForms(word: string, primary: PrimaryForm, cls: ConjClass)
    requires !IsIchidan(cls)
    requires LastKana(word) in Gotan.Finals
    requires primary == Masu || primary == Kibou
    ensures ApplyPrimary(word, primary, cls) == Stem(word) + GodanEnding(LastKana(word), primary)
  {
    var l := LastKana(word);
    var st := Stem(word);
    InlineRowsAgree();
    Gotan.RowEntries(l);
    assert Get(GodanMasuStemEnd, l) == Gotan.IStem[l] != "";
    if primary == Masu {
      Assoc(st, Gotan.IStem[l], "ます");
    } else {
      Assoc(st, Gotan.IStem[l], "たい");
    }
  }

  lemma GodanEORowForms(word: string, primary: PrimaryForm, cls: ConjClass)
    requires !IsIchidan(cls)
    requires LastKana(word) in Gotan.Finals
    requires primary == Katei || primary == Meirei || primary == Ikou
    ensures ApplyPrimary(word, primary, cls) == Stem(word) + GodanEnding(LastKana(word), primary)
  {
    var l := LastKana(word);
    var st := Stem(word);
    InlineRowsAgree();
    Gotan.RowEntries(l);
    assert Get(ERow, l) == Gotan.EStem[l] != "";
    assert Get(ORow, l) == Gotan.OStem[l] != "";
    if primary == Katei {
      Assoc(st, Gotan.EStem[l], "ば");
    } else if primary == Ikou {
      Assoc(st, Gotan.OStem[l], "う");
    }
  }

  /** A five-grade word whose final is none of the nine: the suffix is
      appended to the whole word, and the imperative is the word itself. */
  lemma GodanRowsUnknownFinal(word: string, cls: ConjClass)
    requires !IsIchidan(cls)
    requires LastKana(word) !in Gotan.Finals
    ensures ApplyPrimary(word, Masu, cls) == word + "ます"
    ensures ApplyPrimary(word, Katei, cls) == word + "ば"
    ensures ApplyPrimary(word, Meirei, cls) == word
    ensures ApplyPrimary(word, Ikou, cls) == word + "う"
    ensures ApplyPrimary(word, Kibou, cls) == word + "たい"
  {
    var l := LastKana(word);
    InlineRowsAgree();
    Gotan.VowelRowKeys();
    assert Get(GodanMasuStemEnd, l) == "" && Get(ERow, l) == "" && Get(ORow, l) == "";
  }

  /** ... and its te and ta forms fall back to って/った after the stem. */
  lemma GodanTeTaUnknownFinal(word: string, cls: ConjClass)
    requires !IsIchidan(cls)
    requires LastKana(word) !in Gotan.Finals
    ensures ApplyPrimary(word, Ta, cls) == Stem(word) + "った"
    ensures ApplyPrimary(word, Te, cls) == Stem(word) + "って"
  {
    Gotan.TeTaKeys();
    GodanTeTaFallback(word);
  }

  /** The te form of any word in any class ends in て or で, and the
      progressive and perfective are built on it. */
  lemma TeFormEnding(word: string, cls: ConjClass)
    ensures var te := ApplyPrimary(word, Te, cls);
      && |te| >= 1 && IsTeEnd(te[|te| - 1])
      && ApplyPrimary(word, Prog, cls) == te + "いる"
      && ApplyPrimary(word, Perf, cls) == te + "しまう"
  {
  }

  /** The past of any word in any class ends in た or だ. */
  lemma TaFormEnding(word: string, cls: ConjClass)
    ensures var ta := ApplyPrimary(word, Ta, cls);
      |ta| >= 1 && (ta[|ta| - 1] == 'た' || ta[|ta| - 1] == 'だ')
  {
  }

  // ----- voice -----

  /** Without a voice the transform returns the dictionary reading. */
  lemma NoVoiceIsDict(v: Verb)
    ensures ApplyVoice(v, None) == DictKana(v)
    ensures BuildForm(v, Dict, None, false) == v.kanaStart + v.kanaEnd
    ensures ConjugatedEnding(v, Dict, None, false) == v.kanaEnd
  {
  }

  /** The dictionary form leaves the voice-applied reading as it is, so
      its affirmative surface is the voice transform's output. */
  lemma DictIsIdentity(v: Verb, voice: Option<Voice>)
    ensures BuildForm(v, Dict, voice, false) == ApplyVoice(v, voice)
  {
  }

  /** The suru voice endings; potential replaces する with できる. */
  function SuruVoiceEnding(voice: Voice): string
  {
    match voice
    case Causative => "させる"
    case Passive | Respect => "される"
    case Potential => "できる"
  }

  /** A reading ending in する, or a verb coded SAHEN, has its last two kana
      replaced by the suru voice ending, whatever else its class says. */
  lemma SuruVoice(v: Verb, voice: Voice)
    requires SuruLike(DictKana(v), v.conjClass)
    ensures ApplyVoice(v, Some(voice)) == DropLast(DictKana(v), 2) + SuruVoiceEnding(voice)
    ensures voice == Potential ==> ApplyVoice(v, Some(voice)) == DropLast(DictKana(v), 2) + "できる"
  {
  }

  /** Not suru-like but ending in くる or coded KAHEN: causative is こさせる,
      the other three voices collapse to こられる. */
  lemma KuruVoice(v: Verb, voice: Voice)
    requires !SuruLike(DictKana(v), v.conjClass) && KuruLike(DictKana(v), v.conjClass)
    ensures voice == Causative ==> ApplyVoice(v, Some(voice)) == DropLast(DictKana(v), 2) + "こさせる"
    ensures voice != Causative ==> ApplyVoice(v, Some(voice)) == DropLast(DictKana(v), 2) + "こられる"
  {
  }

  /** One-grade: causative is stem + させる, the other three voices
      collapse to stem + られる. */
  lemma IchidanVoice(v: Verb, voice: Voice)
    requires !SuruLike(DictKana(v), v.conjClass) && !KuruLike(DictKana(v), v.conjClass)
    requires IsIchidan(v.conjClass)
    ensures voice == Causative ==> ApplyVoice(v, Some(voice)) == Stem(DictKana(v)) + "させる"
    ensures voice != Causative ==> ApplyVoice(v, Some(voice)) == Stem(DictKana(v)) + "られる"
  {
  }

  /** Five-grade (every remaining class): causative and passive/respect put
      the a-row kana before せる/れる, and potential puts the e-row kana
      before る. */
  lemma GodanVoice(v: Verb, voice: Voice)
    requires !SuruLike(DictKana(v), v.conjClass) && !KuruLike(DictKana(v), v.conjClass)
    requires !IsIchidan(v.conjClass)
    requires LastKana(DictKana(v)) in Gotan.Finals
    ensures var base, l := DictKana(v), LastKana(DictKana(v));
      && (voice == Causative ==> ApplyVoice(v, Some(voice)) == Stem(base) + Gotan.AStem[l] + "せる")
      && (voice == Passive || voice == Respect ==>
            ApplyVoice(v, Some(voice)) == Stem(base) + Gotan.AStem[l] + "れる")
      && (voice == Potential ==> ApplyVoice(v, Some(voice)) == Stem(base) + (Gotan.EStem[l] + "る"))
  {
    var l := LastKana(DictKana(v));
    InlineRowsAgree();
    PotEndIsEStemPlusRu();
    Gotan.RowEntries(l);
    assert Get(ARow, l) == Gotan.AStem[l] != "";
    assert Get(PotEnd, l) == Gotan.EStem[l] + "る";
  }

  /** Five-grade with a final outside the tables: せる/れる follow the whole
      reading, and potential leaves the reading unchanged. */
  lemma GodanVoiceUnknownFinal(v: Verb, voice: Voice)
    requires !SuruLike(DictKana(v), v.conjClass) && !KuruLike(DictKana(v), v.conjClass)
    requires !IsIchidan(v.conjClass)
    requires LastKana(DictKana(v)) !in Gotan.Finals
    ensures voice == Causative ==> ApplyVoice(v, Some(voice)) == DictKana(v) + "せる"
    ensures voice == Passive || voice == Respect ==> ApplyVoice(v, Some(voice)) == DictKana(v) + "れる"
    ensures voice == Potential ==> ApplyVoice(v, Some(voice)) == DictKana(v)
  {
    var l := LastKana(DictKana(v));
    InlineRowsAgree();
    PotEndIsEStemPlusRu();
    Gotan.VowelRowKeys();
    assert Get(ARow, l) == "";
    assert Get(PotEnd, l) == "";
  }

  // ----- negation -----

  /** Every plain negative ends in ない. */
  lemma NegativeDictEndsInNai(w: string, cls: ConjClass)
    ensures EndsWith(NegativeDict(w, cls), "ない")
  {
    var l := LastKana(w);
    if SuruLike(w, cls) {
      EndsWithAppend(DropLast(w, 2), "しない", "ない");
    } else if KuruLike(w, cls) {
      EndsWithAppend(DropLast(w, 2), "こない", "ない");
    } else if IsIchidan(cls) {
      AppendSuffix(Stem(w), "ない");
    } else if l in Gotan.Finals {
      NaEndIsAStemPlusNai();
      AppendSuffix(Gotan.AStem[l], "ない");
      EndsWithAppend(Stem(w), GodanNaEnd[l], "ない");
    } else {
      NaEndIsAStemPlusNai();
      assert Get(GodanNaEnd, l) == "";
      AppendSuffix(w, "ない");
    }
  }

  /** The plain negative by class. Suru-like words end in しない, kuru-like
      ones in こない, one-grade words are stem + ない, five-grade words put
      the a-row kana before ない; an unknown final gets ない appended. */
  lemma NegativeDictByClass(w: string, cls: ConjClass)
    ensures SuruLike(w, cls) ==> NegativeDict(w, cls) == DropLast(w, 2) + "しない"
    ensures !SuruLike(w, cls) && KuruLike(w, cls) ==> NegativeDict(w, cls) == DropLast(w, 2) + "こない"
    ensures !SuruLike(w, cls) && !KuruLike(w, cls) && IsIchidan(cls) ==>
      NegativeDict(w, cls) == Stem(w) + "ない"
    ensures !SuruLike(w, cls) && !KuruLike(w, cls) && !IsIchidan(cls) ==>
      NegativeDict(w, cls) ==
        if LastKana(w) in Gotan.Finals then Stem(w) + Gotan.AStem[LastKana(w)] + "ない" else w + "ない"
  {
    var l := LastKana(w);
    NaEndIsAStemPlusNai();
    if l in Gotan.Finals {
      assert Get(GodanNaEnd, l) == Gotan.AStem[l] + "ない";
      assert Stem(w) + (Gotan.AStem[l] + "ない") == Stem(w) + Gotan.AStem[l] + "ない";
    } else {
      assert Get(GodanNaEnd, l) == "";
    }
  }

  /** The dictionary negative is the plain negative of the voice-applied
      reading. */
  lemma DictNegation(v: Verb, voice: Option<Voice>)
    ensures BuildForm(v, Dict, voice, true) == NegativeDict(BuildForm(v, Dict, voice, false), v.conjClass)
  {
  }

  /** The te, conditional and volitional negatives re-derive the plain
      negative and swap its final ない for なくて, なければ or ないでおこう. */
  lemma RederivedNegation(v: Verb, voice: Option<Voice>)
    ensures var nd := BuildForm(v, Dict, voice, true);
      && nd == DropLast(nd, 2) + "ない"
      && BuildForm(v, Te, voice, true) == DropLast(nd, 2) + "なくて"
      && BuildForm(v, Katei, voice, true) == DropLast(nd, 2) + "なければ"
      && BuildForm(v, Ikou, voice, true) == DropLast(nd, 2) + "ないでおこう"
  {
    var d := ApplyVoice(v, voice);
    var nd := NegativeDict(d, v.conjClass);
    NegativeDictEndsInNai(d, v.conjClass);
    EndsWithSplit(nd, "ない");
    NegationOfDictBased(v, Dict, voice);
    NegationOfDictBased(v, Te, voice);
    NegationOfDictBased(v, Katei, voice);
    NegationOfDictBased(v, Ikou, voice);
  }

  /** The negatives that ignore the primary surface and start from the
      plain negative of the voice-applied reading. */
  lemma NegationOfDictBased(v: Verb, primary: PrimaryForm, voice: Option<Voice>)
    requires primary in {Dict, Te, Katei, Ikou}
    ensures var nd := NegativeDict(ApplyVoice(v, voice), v.conjClass);
      BuildForm(v, primary, voice, true)
        == match primary
           case Te => DropLast(nd, 2) + "なくて"
           case Katei => DropLast(nd, 2) + "なければ"
           case Ikou => DropLast(nd, 2) + "ないでおこう"
           case _ => nd
  {
  }

  /** The polite form always ends in ます, and its negative swaps that for
      ません. */
  lemma MasuNegation(v: Verb, voice: Option<Voice>)
    ensures var pos := BuildForm(v, Masu, voice, false);
      && EndsWith(pos, "ます")
      && BuildForm(v, Masu, voice, true) == DropLast(pos, 2) + "ません"
  {
  }

  /** The desiderative always ends in たい, and its negative swaps that for
      たくない. */
  lemma KibouNegation(v: Verb, voice: Option<Voice>)
    ensures var pos := BuildForm(v, Kibou, voice, false);
      && EndsWith(pos, "たい")
      && BuildForm(v, Kibou, voice, true) == DropLast(pos, 2) + "たくない"
  {
  }

  /** The past always ends in た or だ; its negative drops that one kana of
      the past surface and appends なかった. */
  lemma TaNegation(v: Verb, voice: Option<Voice>)
    ensures var pos := BuildForm(v, Ta, voice, false);
      && |pos| >= 1 && (pos[|pos| - 1] == 'た' || pos[|pos| - 1] == 'だ')
      && BuildForm(v, Ta, voice, true) == DropLast(pos, 1) + "なかった"
  {
    var d := ApplyVoice(v, voice);
    TaFormEnding(d, v.conjClass);
    assert BuildForm(v, Ta, voice, false) == ApplyPrimary(d, Ta, v.conjClass);
  }

  /** The imperative negative ignores the imperative surface: it is the
      voice-applied dictionary reading plus な. */
  lemma MeireiNegation(v: Verb, voice: Option<Voice>)
    ensures BuildForm(v, Meirei, voice, true) == BuildForm(v, Dict, voice, false) + "な"
  {
  }

  /** Negating a te form plus いる gives the te form plus いない. */
  lemma ProgNegationOfTe(te: string, dictWord: string, cls: ConjClass)
    requires |te| >= 1 && IsTeEnd(te[|te| - 1])
    ensures ApplyNegation(te + "いる", Prog, dictWord, cls) == te + "いない"
  {
    var st := te[..|te| - 1];
    var c := te[|te| - 1];
    assert te == st + [c];
    assert te + "いる" == st + ([c] + "いる");
    AppendSuffix(st, [c] + "いる");
    if c == 'て' {
      assert [c] + "いる" == "ている";
    } else {
      assert [c] + "いる" == "でいる";
    }
    assert te + "いない" == st + ([c] + "いない");
  }

  /** Negating a te form plus しまう gives the te form plus しまわない. */
  lemma PerfNegationOfTe(te: string, dictWord: string, cls: ConjClass)
    requires |te| >= 1 && IsTeEnd(te[|te| - 1])
    ensures ApplyNegation(te + "しまう", Perf, dictWord, cls) == te + "しまわない"
  {
    var st := te[..|te| - 1];
    assert te == st + [te[|te| - 1]];
    if te[|te| - 1] == 'て' {
      assert te + "しまう" == st + "てしまう";
      AppendSuffix(st, "てしまう");
      assert te + "しまわない" == st + "てしまわない";
    } else {
      assert te + "しまう" == st + "でしまう";
      AppendSuffix(st, "でしまう");
      assert (st + "でしまう")[|st|] == 'で';
      assert te + "しまわない" == st + "でしまわない";
    }
  }

  /** The progressive is the te form plus いる, and since every te form ends
      in て or で its negative is always the te form plus いない: the
      append-ない fallback of the progressive negation is never taken. */
  lemma ProgNegation(v: Verb, voice: Option<Voice>)
    ensures BuildForm(v, Prog, voice, false) == BuildForm(v, Te, voice, false) + "いる"
    ensures BuildForm(v, Prog, voice, true) == BuildForm(v, Te, voice, false) + "いない"
  {
    var w := ApplyVoice(v, voice);
    TeFormEnding(w, v.conjClass);
    ProgNegationOfTe(ApplyPrimary(w, Te, v.conjClass), w, v.conjClass);
  }

  /** The perfective is the te form plus しまう, and its negative is always
      the te form plus しまわない: the regular-expression fallback of the
      perfective negation is never taken. */
  lemma PerfNegation(v: Verb, voice: Option<Voice>)
    ensures BuildForm(v, Perf, voice, false) == BuildForm(v, Te, voice, false) + "しまう"
    ensures BuildForm(v, Perf, voice, true) == BuildForm(v, Te, voice, false) + "しまわない"
  {
    var w := ApplyVoice(v, voice);
    TeFormEnding(w, v.conjClass);
    PerfNegationOfTe(ApplyPrimary(w, Te, v.conjClass), w, v.conjClass);
  }

  // ----- worked examples -----

  /** のむ, the five-grade verb of the worked examples. */
  function Nomu(): Verb
  {
    Verb("", [], "のむ", [], Godan, VT)
  }

  /** The reading of のむ without a voice, and its final kana and stem. */
  lemma NomuReading()
    ensures ApplyVoice(Nomu(), None) == "のむ"
    ensures LastKana("のむ") == "む" && Stem("のむ") == "の"
  {
    assert DictKana(Nomu()) == "のむ";
  }

  /** のむ in the polite form is のみます. */
  lemma NomuPolite()
    ensures BuildForm(Nomu(), Masu, None, false) == "のみます"
  {
    NomuReading();
    assert Get(GodanMasuStemEnd, "む") == "み";
    assert ApplyPrimary("のむ", Masu, Godan) == "のみます";
  }

  /** The plain negative of のむ is のまない. */
  lemma NomuNegative()
    ensures BuildForm(Nomu(), Dict, None, true) == "のまない"
  {
    NomuReading();
    NomuPlainNegative();
  }

  /** The plain negative of the reading のむ. */
  lemma NomuPlainNegative()
    ensures NegativeDict("のむ", Godan) == "のまない"
  {
    assert LastKana("のむ") == "む" && Stem("のむ") == "の";
    assert !EndsWith("のむ", "する") && !EndsWith("のむ", "くる");
    assert Get(GodanNaEnd, "む") == "まない";
  }

  /** のむ in the past is のんだ. */
  lemma NomuPast()
    ensures BuildForm(Nomu(), Ta, None, false) == "のんだ"
  {
    NomuReading();
    assert GodanTeTa("のむ").ta == "のんだ";
  }

  /** The past negative of のむ is のんなかった, not のまなかった: it edits the
      past surface rather than the plain negative. */
  lemma NomuPastNegative()
    ensures BuildForm(Nomu(), Ta, None, true) == "のんなかった"
  {
    NomuPast();
    NomuReading();
    assert DropLast("のんだ", 1) == "のん";
  }

  /** いく takes the って/った gemination. */
  lemma IkuExamples()
    ensures var iku := Verb("", [], "いく", [], Godan, VI);
      && BuildForm(iku, Te, None, false) == "いって"
      && BuildForm(iku, Ta, None, false) == "いった"
  {
  }

  /** かく, an ordinary く verb, keeps いて. */
  lemma KakuExample()
    ensures BuildForm(Verb("", [], "かく", [], Godan, VT), Te, None, false) == "かいて"
  {
    var kaku := Verb("", [], "かく", [], Godan, VT);
    assert ApplyVoice(kaku, None) == "かく";
    KakuTe();
  }

  /** The te form of the reading かく. */
  lemma KakuTe()
    ensures ApplyPrimary("かく", Te, Godan) == "かいて"
  {
    var w := "かく";
    assert LastKana(w) == "く" && Stem(w) == "か";
    assert GodanTeTa(w).te == "か" + "いて";
  }

  /** する: potential replaces it with できる, while the primary forms take
      the five-grade path, so the polite form is すります. */
  lemma SuruExamples()
    ensures var suru := Verb("", [], "する", [], Sahen, VT);
      && BuildForm(suru, Dict, Some(Potential), false) == "できる"
      && BuildForm(suru, Dict, None, true) == "しない"
      && BuildForm(suru, Masu, None, false) == "すります"
  {
  }

  /** たべる (lower one-grade, head た): imperative たべろ, ending べろ. */
  lemma TaberuExamples()
    ensures var taberu := Verb("た", [], "べる", [], ShimoIchidan, VT);
      && BuildForm(taberu, Meirei, None, false) == "たべろ"
      && ConjugatedEnding(taberu, Meirei, None, false) == "べろ"
      && BuildForm(taberu, Ta, None, true) == "たべなかった"
  {
    var taberu := Verb("た", [], "べる", [], ShimoIchidan, VT);
    assert ApplyVoice(taberu, None) == "たべる";
    assert Stem("たべる") == "たべ";
    assert IsIchidan(ShimoIchidan);
    assert BuildForm(taberu, Meirei, None, false) == "たべろ";
    assert "たべろ"[|"た"|..] == "べろ";
    assert BuildForm(taberu, Ta, None, false) == "たべた";
    assert DropLast("たべた", 1) == "たべ";
  }
}
