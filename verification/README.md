# Japanese verb conjugation, accent segmentation, romaji and CSV input

A Dafny model of the core of `japanese_word`, a study aid that builds the
inflected surface forms of Japanese verbs from a compact record (kana head,
kana tail, conjugation class) and renders their pitch accent. The model
covers:

- the **conjugation engine** (`src/utils/conjugation.ts`): the voice slot
  (passive, causative, potential, respect), the ten primary forms (dictionary,
  polite ます, past た, te, conditional ば, imperative, volitional, desiderative
  たい, progressive ている, perfective てしまう), the negation of each, the
  orchestration `buildForm` and the head-stripped `conjugatedEnding`;
- the **stem tables** (`src/utils/gotan.ts`): the a/i/e/o-row tables and the
  te/ta tables of five-grade (godan) verbs over their nine finals;
- the **accent segmenter** (`src/utils/accent.ts`): a reading cut into
  pitch-tagged spans for the labels ATA, NAKA, ODA and HEI;
- the **romaji converter** (`src/utils/romajiToKana.ts`): greedy
  longest-match conversion with gemination, and the romaji detector;
- the **CSV reader** (`src/utils/csvParser.ts`): the quote-aware line
  scanner and the text-to-header-and-rows split.

Modules follow the program: `Verbs` (the record and its enumerations, from
`src/types/verb.ts`), `Gotan`, `Conjugation` (the engine as written, inline
tables included) with `ConjugationProps` (what each stage does per class and
how each negative relates to the affirmative forms), `Accent`, `Romaji`,
`Csv`, and two helper modules, `Strings` (the JavaScript string operations
the code uses: `slice`, `endsWith`, `startsWith`, `trim`, `toLowerCase`,
plus a `Join` used only to state round trips) and `Wrappers` (`Option`, for
the nullable voice). `split` is modelled by `Csv.SplitOn`.

The engine's stages (`ApplyVoice`, `ApplyPrimary`, `NegativeDict`,
`ApplyNegation`, `BuildForm`) are plain functions that follow the code
branch for branch; what they compute is stated by the lemmas of
`ConjugationProps`, class by class, and against the exported stem tables.
Loops of the source (`romajiToHiragana`, `parseCSVLine`) are given twice: as
a method with the source's index loop, and as a recursive definition the
method is proved equal to. For the CSV line the recursive definition is in
turn tied to an independent definition, the raw fields between unquoted
commas. The romaji scan has no such second definition: `Romaji.ScanStep`
states the priority of its branches one step at a time, and what is proved
about the whole conversion is that it ignores case
(`Romaji.CaseInsensitive`), maps non-blank input to non-blank output
(`Romaji.RomajiToHiragana`) and passes text without ASCII letters through
trimmed (`Romaji.NoRomajiPassesThrough`).

### Behaviour of the code worth knowing

The model follows the code, including where it departs from standard
Japanese:

- The past negative edits the past surface (drop its last kana, add
  なかった), so のむ gives のんなかった; standard Japanese has のまなかった
  (`ConjugationProps.NomuPastNegative`).
- `applyPrimary` has no irregular branch: every class except the two
  one-grade codes takes the five-grade rules, so する in the polite form is
  すります; standard Japanese has します (`ConjugationProps.SuruExamples`).
- The perfective negation's last fallback, `replace(/しまう$/, …)`, leaves a
  word without a trailing しまう unchanged. The fallback is never reached
  from `buildForm` (`ConjugationProps.PerfNegation`).
- The kanji spellings of a verb are carried but never read by the engine.
- `parseCSV` cannot return an empty header list: `split` always yields at
  least one line, so blank text gives one empty header and no rows
  (`Csv.ParseCSV`).

## Model

| member | source | states |
|---|---|---|
| Strings.DropLast | src/utils/conjugation.ts:13 | `slice(0, -k)` keeps a prefix of the string, `k` characters shorter, or empty when the string is shorter than `k` |
| Strings.Last | src/utils/conjugation.ts:12 | `slice(-1)` is the final character ("" for ""), and the stem followed by it is the word again |
| Strings.Trim | src/utils/csvParser.ts:14 | `trim()`: the result is no longer than the input and neither starts nor ends with ECMAScript white space |
| Strings.TrimSlice | src/utils/romajiToKana.ts:55 | the trimmed text is one contiguous stretch of the input, starting after its leading white space |
| Strings.TrimDropsSpace | src/utils/csvParser.ts:42 | everything `trim()` drops, before and after the kept stretch, is white space |
| Strings.ToLower | src/utils/romajiToKana.ts:55 | `toLowerCase()` on ASCII: same length, each `A`–`Z` mapped to its lower-case letter, every other character kept, no upper-case ASCII letter left |
| Gotan.TableKeys | src/utils/gotan.ts:2-75 | all six exported tables are defined on exactly the nine five-grade finals う く ぐ す つ ぬ ぶ む る |
| Gotan.RowEntries | src/utils/gotan.ts:2-75 | for each final, every vowel-row entry is one kana and every te/ta entry two kana |
| Gotan.TaIsPastOfTe | src/utils/gotan.ts:53-75 | the ta table is the te table with its closing て turned into た and で into だ |
| Gotan.AStemInjective | src/utils/gotan.ts:2-12 | the a-row table sends the nine finals to nine distinct kana |
| Gotan.IStemInjective | src/utils/gotan.ts:15-25 | the i-row table sends the nine finals to nine distinct kana |
| Gotan.EStemInjective | src/utils/gotan.ts:28-38 | the e-row table sends the nine finals to nine distinct kana |
| Gotan.OStemInjective | src/utils/gotan.ts:41-51 | the o-row table sends the nine finals to nine distinct kana |
| Conjugation.DictKana | src/utils/conjugation.ts:11 | no contract; the reading is head + tail, used by `ConjugationProps.NoVoiceIsDict` |
| Conjugation.LastKana | src/utils/conjugation.ts:12 | no contract; it is `Strings.Last`, whose contract states it |
| Conjugation.Stem | src/utils/conjugation.ts:13 | no contract; it is `Strings.DropLast` by one, whose contract states it |
| Conjugation.ApplyVoice | src/utils/conjugation.ts:63-138 | no contract; behaviour stated by `ConjugationProps.NoVoiceIsDict`, `SuruVoice`, `KuruVoice`, `IchidanVoice`, `GodanVoice`, `GodanVoiceUnknownFinal` |
| Conjugation.ApplyPrimary | src/utils/conjugation.ts:141-204 | no contract; behaviour stated by `ConjugationProps.IchidanPrimary`, `GodanPrimary`, `GodanRowsUnknownFinal`, `GodanTeTaUnknownFinal`, `TeFormEnding`, `TaFormEnding` |
| Conjugation.NegativeDict | src/utils/conjugation.ts:207-225 | no contract; behaviour stated by `ConjugationProps.NegativeDictByClass` and `NegativeDictEndsInNai` |
| Conjugation.ReplaceTrailingShimau | src/utils/conjugation.ts:281 | no contract; the fallback it models is unreachable from `buildForm` (`ConjugationProps.PerfNegation`) |
| Conjugation.ApplyNegation | src/utils/conjugation.ts:227-285 | no contract; behaviour stated by `ConjugationProps.ProgNegationOfTe`, `PerfNegationOfTe` and the `BuildForm` negation lemmas |
| Conjugation.BuildForm | src/utils/conjugation.ts:288-302 | no contract; behaviour stated by `ConjugationProps.DictNegation`, `NegationOfDictBased`, `RederivedNegation`, `MasuNegation`, `KibouNegation`, `TaNegation`, `MeireiNegation`, `ProgNegation`, `PerfNegation` |
| Verbs.Verb | src/types/verb.ts:3-10 | the verb record: kana head, kanji heads, kana tail, accent labels, class code, transitivity |
| Conjugation.GodanTeTa | src/utils/conjugation.ts:42-60 | the five-grade te and ta forms are the word's stem plus two kana, the same first kana in both, te ending in て or で and ta in the matching た or だ |
| Conjugation.TeTaShape | src/utils/conjugation.ts:46-59 | each of the te/ta ending pairs used by `godanTeTa` yields forms of that shape |
| Conjugation.ConjugatedEnding | src/utils/conjugation.ts:304-315 | when the built form starts with the kana head, head and ending concatenate back to the built form; otherwise the ending is the whole built form |
| ConjugationProps.InlineRowsAgree | src/utils/conjugation.ts:29-192 | the engine's inline a-row, continuative, e-row and o-row tables equal the exported `aStem`, `iStem`, `eStem`, `oStem` |
| ConjugationProps.NaEndIsAStemPlusNai | src/utils/conjugation.ts:16-26 | the negative-ending table is defined on the nine finals and each entry is the a-row kana plus ない |
| ConjugationProps.PotEndIsEStemPlusRu | src/utils/conjugation.ts:122-134 | the potential-ending table is defined on the nine finals and each entry is the e-row kana plus る |
| ConjugationProps.GodanTeTaFollowsTables | src/utils/conjugation.ts:42-60 | `godanTeTa` gives いって/いった for いく, the stem plus the exported te/ta table entries for a tabled final, and って/った after the stem otherwise |
| ConjugationProps.GodanTeTaTableCase | src/utils/conjugation.ts:49-57 | for a tabled final other than the word いく, te and ta are the stem plus the exported table entries |
| ConjugationProps.GodanTeTaFallback | src/utils/conjugation.ts:59 | for a final outside the tables, te and ta are the stem plus って/った |
| ConjugationProps.IchidanPrimary | src/utils/conjugation.ts:141-204 | a one-grade word keeps its stem: each non-dictionary form is the word minus its final kana plus a fixed suffix, and the progressive and perfective are its te form plus いる/しまう |
| ConjugationProps.GodanPrimary | src/utils/conjugation.ts:141-204 | every non-one-grade class, irregular codes included, replaces a tabled final by the exported table ending of the requested form (i-row + ます, te/ta table, e-row + ば, e-row, o-row + う, i-row + たい, te + いる, te + しまう), except the te, past, progressive and perfective forms of the word いく (see `GodanTeTaFollowsTables`) |
| ConjugationProps.GodanTeForms | src/utils/conjugation.ts:159-165 | the te, ta, progressive and perfective cases of that statement, for every word except いく |
| ConjugationProps.GodanIRowForms | src/utils/conjugation.ts:153-201 | the polite and desiderative cases of that statement |
| ConjugationProps.GodanEORowForms | src/utils/conjugation.ts:167-195 | the conditional, imperative and volitional cases of that statement |
| ConjugationProps.GodanRowsUnknownFinal | src/utils/conjugation.ts:153-201 | a non-one-grade word whose final is outside the tables gets ます, ば, う or たい appended to the whole word, and its imperative is the word itself |
| ConjugationProps.GodanTeTaUnknownFinal | src/utils/conjugation.ts:159-162 | such a word's te and ta forms are its stem plus って and った |
| ConjugationProps.TeFormEnding | src/utils/conjugation.ts:159-165 | in every class the te form ends in て or で, and the progressive and perfective are the te form plus いる and しまう |
| ConjugationProps.TaFormEnding | src/utils/conjugation.ts:159-161 | in every class the past ends in た or だ |
| ConjugationProps.NoVoiceIsDict | src/utils/conjugation.ts:63-67 | without a voice the transform returns head + tail, so the plain dictionary form's ending is the kana tail |
| ConjugationProps.DictIsIdentity | src/utils/conjugation.ts:146 | for every verb and voice the affirmative dictionary form is the voice-applied reading itself, so `DictNegation` and `MeireiNegation` speak of that reading |
| ConjugationProps.SuruVoice | src/utils/conjugation.ts:69-76 | a reading ending in する or a SAHEN code loses its last two kana and takes させる, される (passive and respect alike) or できる, whatever its class |
| ConjugationProps.KuruVoice | src/utils/conjugation.ts:78-86 | otherwise, a reading ending in くる or a KAHEN code takes こさせる for causative and こられる for the other three voices |
| ConjugationProps.IchidanVoice | src/utils/conjugation.ts:88-98 | otherwise a one-grade word takes stem + させる for causative and stem + られる for the other three voices |
| ConjugationProps.GodanVoice | src/utils/conjugation.ts:100-135 | every remaining class puts the a-row kana before せる or れる and, for potential, the e-row kana before る |
| ConjugationProps.GodanVoiceUnknownFinal | src/utils/conjugation.ts:112-135 | with a final outside the tables, せる or れる follow the whole reading and the potential leaves the reading unchanged |
| ConjugationProps.NegativeDictEndsInNai | src/utils/conjugation.ts:207-225 | every plain negative ends in ない |
| ConjugationProps.NegativeDictByClass | src/utils/conjugation.ts:207-225 | the plain negative is head + しない for suru-like words, head + こない for kuru-like ones, stem + ない for one-grade, stem + a-row kana + ない for a tabled five-grade final and word + ない otherwise |
| ConjugationProps.DictNegation | src/utils/conjugation.ts:238-240 | the dictionary negative is the plain negative of the voice-applied reading |
| ConjugationProps.NegationOfDictBased | src/utils/conjugation.ts:233-262 | the te, dictionary, conditional and volitional negatives ignore the primary surface and start from the plain negative of the voice-applied reading |
| ConjugationProps.RederivedNegation | src/utils/conjugation.ts:233-262 | the te, conditional and volitional negatives are the dictionary negative with its final ない replaced by なくて, なければ and ないでおこう |
| ConjugationProps.MasuNegation | src/utils/conjugation.ts:242-244 | the polite form always ends in ます and its negative swaps that for ません |
| ConjugationProps.KibouNegation | src/utils/conjugation.ts:264-266 | the desiderative always ends in たい and its negative swaps that for たくない |
| ConjugationProps.TaNegation | src/utils/conjugation.ts:246-248 | the past always ends in た or だ and its negative is the past without that kana plus なかった |
| ConjugationProps.MeireiNegation | src/utils/conjugation.ts:255-257 | the imperative negative is the voice-applied dictionary reading plus な, whatever the imperative surface |
| ConjugationProps.ProgNegationOfTe | src/utils/conjugation.ts:268-272 | negating any te form plus いる gives the te form plus いない |
| ConjugationProps.PerfNegationOfTe | src/utils/conjugation.ts:274-282 | negating any te form plus しまう gives the te form plus しまわない |
| ConjugationProps.ProgNegation | src/utils/conjugation.ts:288-302 | the progressive is the te form plus いる and its negative the te form plus いない, so the append-ない fallback is never taken |
| ConjugationProps.PerfNegation | src/utils/conjugation.ts:288-302 | the perfective is the te form plus しまう and its negative the te form plus しまわない, so the regular-expression fallback is never taken |
| ConjugationProps.NomuPolite | src/utils/conjugation.ts:153-157 | のむ in the polite form is のみます |
| ConjugationProps.NomuNegative | src/utils/conjugation.ts:207-225 | the plain negative of のむ is のまない |
| ConjugationProps.NomuPast | src/utils/conjugation.ts:52-53 | the past of のむ is のんだ |
| ConjugationProps.NomuPastNegative | src/utils/conjugation.ts:246-248 | the past negative of のむ is のんなかった |
| ConjugationProps.IkuExamples | src/utils/conjugation.ts:46-48 | いく has te form いって and past いった |
| ConjugationProps.KakuExample | src/utils/conjugation.ts:55 | かく has te form かいて |
| ConjugationProps.SuruExamples | src/utils/conjugation.ts:69-76 | する: the potential is できる, the plain negative しない and the polite form すります |
| ConjugationProps.TaberuExamples | src/utils/conjugation.ts:304-315 | たべる: imperative たべろ with ending べろ after the head た, past negative たべなかった |
| Accent.AccentSegment | src/utils/accent.ts:4 | a segment: one pitch class and its text |
| Accent.AccentSegments | src/utils/accent.ts:6-40 | for a known label the first segment is the reading's first character; the pitch classes are falling-low (ATA), rising-falling or rising-falling-low with a one-character low tail (NAKA), rising-high (ODA, HEI); any other label gives the whole reading as one low segment |
| Accent.SegmentsLossless | src/utils/accent.ts:6-40 | for every label and reading the segment texts concatenate back to the reading |
| Accent.OdakaIsHeiban | src/utils/accent.ts:32-37 | tail-high and flat segment identically |
| Romaji.RomajiKana | src/utils/romajiToKana.ts:6-48 | no contract; the conversion table, read with "" for a missing key, every key starting with a lower-case letter (`Romaji.RomajiKeysStartLower`) |
| Romaji.GeminateMark | src/utils/romajiToKana.ts:62-67 | no contract; っ for a doubled geminable consonant, "" otherwise, used by `Romaji.GeminationStep` |
| Romaji.Scan | src/utils/romajiToKana.ts:58-118 | no contract; one `ScanStep` after another, computed by `Romaji.ScanLoop` and non-empty on non-empty input (`Romaji.ScanNonEmpty`) |
| Romaji.ScanStep | src/utils/romajiToKana.ts:69-116 | one loop pass consumes one to three characters and emits non-empty text, with priority gemination, then three-, two- and one-letter keys, then copying the character |
| Romaji.RomajiToHiragana | src/utils/romajiToKana.ts:54-56 | the result is empty exactly when the lower-cased, trimmed input is empty |
| Romaji.ScanNonEmpty | src/utils/romajiToKana.ts:69-116 | non-empty input converts to non-empty output |
| Romaji.StepAt | src/utils/romajiToKana.ts:70-115 | the loop body at index `i` advances and emits what one scan step prescribes for the rest of the input |
| Romaji.ScanLoop | src/utils/romajiToKana.ts:58-118 | the index loop produces the whole scan |
| Romaji.RomajiToHiraganaLoop | src/utils/romajiToKana.ts:54-119 | the converter as written, loop and all, computes the converter's definition |
| Romaji.CaseInsensitive | src/utils/romajiToKana.ts:55 | upper- and lower-case spellings convert alike |
| Romaji.ContainsRomaji | src/utils/romajiToKana.ts:124-126 | true exactly when some character is an ASCII letter |
| Romaji.RomajiKeysStartLower | src/utils/romajiToKana.ts:6-47 | every key of the conversion table starts with a lower-case ASCII letter |
| Romaji.GeminationStep | src/utils/romajiToKana.ts:69-84 | when gemination applies, the first two characters are the same doubled consonant and the third a vowel, and the step emits っ followed by the single-consonant syllable |
| Romaji.ScanCopiesNonLetters | src/utils/romajiToKana.ts:107-115 | input without ASCII letters is copied unchanged |
| Romaji.NoRomajiPassesThrough | src/utils/romajiToKana.ts:54-126 | text the detector rejects comes back from the converter only trimmed |
| Romaji.NoLettersAfterTrim | src/utils/romajiToKana.ts:55 | trimming adds no letters |
| Romaji.KitteExample | src/utils/romajiToKana.ts:69-84 | kitte converts to きって |
| Romaji.ShiExample | src/utils/romajiToKana.ts:87-94 | shi converts to し by its three-letter key |
| Romaji.NnaExample | src/utils/romajiToKana.ts:69-84 | nna converts to っな: the doubled n is a gemination key |
| Csv.CSVData | src/utils/csvParser.ts:5-8 | the parse result: header fields and rows of fields |
| Csv.Feed | src/utils/csvParser.ts:37-46 | no contract; one pass of the loop body, tied to the raw fields by `Csv.ScanMatchesRawFields` |
| Csv.FeedAll | src/utils/csvParser.ts:36-47 | no contract; the loop over the rest of the line, tied to the raw fields by `Csv.ScanMatchesRawFields` |
| Csv.Finish | src/utils/csvParser.ts:49-50 | no contract; the final push of the trimmed current field |
| Csv.RawFields | src/utils/csvParser.ts:31-51 | the raw fields between unquoted commas, at least one; the independent definition the loop is proved against |
| Csv.ParseCSVLine | src/utils/csvParser.ts:31-51 | the fields are the line's raw fields between unquoted commas, each trimmed; there is one more field than unquoted commas and no field holds a double quote |
| Csv.ParseCSVLineLoop | src/utils/csvParser.ts:31-51 | the character loop as written computes that result |
| Csv.ScanFromStart | src/utils/csvParser.ts:32-50 | the scanner run from its start state over the line yields the trimmed raw fields |
| Csv.ScanMatchesRawFields | src/utils/csvParser.ts:36-50 | from any scanner state the loop finishes with the pushed fields, then the current field extended by the first raw field, then the remaining raw fields, all trimmed |
| Csv.FieldCount | src/utils/csvParser.ts:41-43 | each comma outside quotes opens exactly one more field |
| Csv.RawFieldsUnquoted | src/utils/csvParser.ts:39-40 | quotes only toggle the state and never reach a field |
| Csv.RawFieldsJoin | src/utils/csvParser.ts:36-47 | joining the raw fields with commas gives back the line with its quotes removed |
| Csv.PlainLineIsOneField | src/utils/csvParser.ts:31-51 | a line with neither commas nor quotes is one trimmed field |
| Csv.SplitOn | src/utils/csvParser.ts:14 | `split` yields at least one piece and no piece holds the separator |
| Csv.SplitJoin | src/utils/csvParser.ts:14 | joining the pieces with the separator gives back the string |
| Csv.ParseCSV | src/utils/csvParser.ts:13-26 | the headers are the parse of the first line of the trimmed text and the rows, in order, the parses of the remaining lines; blank text gives one empty header and no rows |
| Csv.ParseLines | src/utils/csvParser.ts:19-25 | given at least one line, the headers are the parse of the first line and the rows, in order, the parses of the others, one row per remaining line |
| Csv.EmptyText | src/utils/csvParser.ts:14-17 | the empty text splits into one empty line, which parses to one empty field |
| Csv.QuotedCommaExample | src/utils/csvParser.ts:39-45 | `a,"b,c",d` parses to `a`, `b,c`, `d` |

## Left out

- Strings are sequences of `char`, and a Dafny `char` is a Unicode scalar
  value, while JavaScript indexes by UTF-16 code unit. The two coincide on
  Basic Multilingual Plane text, which holds the Hiragana and Katakana
  blocks (U+3040–U+30FF) and so every kana in the program's tables. For a
  character outside that plane, such as the archaic kana of the Kana
  Supplement (U+1B000–U+1B0FF), the source's `charAt(0)`, `substring(1)` and
  `slice(-1)` (`src/utils/accent.ts:8-9,24-25`) and `slice(-1)` and
  `slice(0, -k)` (`src/utils/conjugation.ts:12-13,71,80`) split a surrogate
  pair, and the model does not.
- Strings.ToLower: only `A`–`Z` are lower-cased. `toLowerCase` also maps
  other characters, and a few of them to ASCII letters: U+212A (KELVIN SIGN)
  becomes `k`, U+0130 becomes `i` followed by U+0307. On such input the model
  and the source differ: the source converts U+212A followed by `a` to か,
  the model to U+212A followed by あ. Full Unicode case mapping is not
  modelled, so `Romaji.RomajiToHiragana` and `Romaji.CaseInsensitive` hold
  for this ASCII-only lowering.
- Romaji.RomajiKana: the conversion table and the gemination table are
  written as functions of the key's characters rather than as map literals;
  they return the table's entry for every key and "" elsewhere, which is how
  the code reads them (`map[key] || ''`). Keys inherited from
  `Object.prototype` are all longer than three characters and cannot be
  looked up.
- Conjugation.ApplyVoice, Conjugation.ApplyPrimary, Conjugation.ApplyNegation:
  the voice and primary form are closed enumerations, so the fall-through
  returns at `src/utils/conjugation.ts:75,85,97,137,203,284` cannot be reached
  and are not modelled.
- Conjugation.GodanTeTa: its contract states only the shape of the te/ta
  pair; which pair each final gets is stated by
  `ConjugationProps.GodanTeTaFollowsTables`.
- Accent.AccentSegments takes the reading as a parameter: the source builds it
  from `v.kanaStart` and `v.kanaEnd` (`src/utils/accent.ts:7`), which the
  `Verb` record (`src/types/verb.ts:3-10`) does not declare; callers pass
  the kana head plus tail. (The Dafny `Verb` fields `kanaStart` and
  `kanaEnd` stand for the record's `KANA_START` and `KANA_END`.) The pitch codes `l`, `h`, `l2h`, `h2l` become the
  `Pitch` constructors.
- Csv.ParseCSV: the `lines.length === 0` branch is kept but unreachable, as
  `split` never returns an empty list.
- The kanji spellings, accent labels and transitivity of a `Verb` are
  carried as data; the engine never reads them.
  `src/constants/transitivity.ts` contributes only its four codes (VI, VT,
  VIT, OTHER); their Japanese display labels are not modelled.
- `helper-script/sort_verbs.py` (a data-sorting script) and `vite.config.ts`
  (build configuration) are outside the modelled core.
