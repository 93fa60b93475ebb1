/**
  The romaji-to-hiragana transliterator used for search: a greedy
  left-to-right scan that tries a doubled consonant before a vowel, then
  three-, two- and one-character keys, and copies anything else through.
 */
module Romaji {

  import opened Strings

  /** Picks the entry for vowel `v` from a row of five (a, i, u, e, o);
      "" for any other character or an empty slot. */
  function Row(v: char, a: string, i: string, u: string, e: string, o: string): string
  {
    match v
    case 'a' => a
    case 'i' => i
    case 'u' => u
    case 'e' => e
    case 'o' => o
    case _ => ""
  }

  /** `romajiToHiraganaMap` read as the source reads it, `map[key] || ''`:
      the kana for a romaji key of one, two or three letters, or "" when
      the key is not in the table. The table is written out by the key's
      letters rather than as a list of string keys. */
  function RomajiKana(key: string): string
  {
    if |key| == 1 then KanaOfOne(key[0])
    else if |key| == 2 then KanaOfTwo(key[0], key[1])
    else if |key| == 3 then KanaOfThree(key[0], key[1], key[2])
    else ""
  }

  /** The vowels and the syllabic n. */
  function KanaOfOne(c: char): string
  {
    if c == 'n' then "ん" else Row(c, "あ", "い", "う", "え", "お")
  }

  /** Consonant + vowel keys, including `ja`/`ju`/`jo`, `fu`, `si`, `zi`,
      `ti`, `tu`, `hu`. */
  function KanaOfTwo(c: char, v: char): string
  {
    match c
    case 'k' => Row(v, "か", "き", "く", "け", "こ")
    case 'g' => Row(v, "が", "ぎ", "ぐ", "げ", "ご")
    case 's' => Row(v, "さ", "し", "す", "せ", "そ")
    case 'z' => Row(v, "ざ", "じ", "ず", "ぜ", "ぞ")
    case 'j' => Row(v, "じゃ", "じ", "じゅ", "", "じょ")
    case 't' => Row(v, "た", "ち", "つ", "て", "と")
    case 'd' => Row(v, "だ", "ぢ", "づ", "で", "ど")
    case 'n' => Row(v, "な", "に", "ぬ", "ね", "の")
    case 'h' => Row(v, "は", "ひ", "ふ", "へ", "ほ")
    case 'f' => Row(v, "", "", "ふ", "", "")
    case 'b' => Row(v, "ば", "び", "ぶ", "べ", "ぼ")
    case 'p' => Row(v, "ぱ", "ぴ", "ぷ", "ぺ", "ぽ")
    case 'm' => Row(v, "ま", "み", "む", "め", "も")
    case 'y' => Row(v, "や", "", "ゆ", "", "よ")
    case 'r' => Row(v, "ら", "り", "る", "れ", "ろ")
    case 'w' => Row(v, "わ", "", "", "", "を")
    case _ => ""
  }

  /** Three-letter keys: `shi`, `chi`, `tsu`, and the contracted sounds
      (consonant + y + a/u/o, `sh`/`ch` + a/u/o). */
  function KanaOfThree(c: char, d: char, v: char): string
  {
    if d == 'y' then
      match c
      case 'k' => Row(v, "きゃ", "", "きゅ", "", "きょ")
      case 'g' => Row(v, "ぎゃ", "", "ぎゅ", "", "ぎょ")
      case 's' => Row(v, "しゃ", "", "しゅ", "", "しょ")
      case 'z' => Row(v, "じゃ", "", "じゅ", "", "じょ")
      case 't' => Row(v, "ちゃ", "", "ちゅ", "", "ちょ")
      case 'n' => Row(v, "にゃ", "", "にゅ", "", "にょ")
      case 'h' => Row(v, "ひゃ", "", "ひゅ", "", "ひょ")
      case 'b' => Row(v, "びゃ", "", "びゅ", "", "びょ")
      case 'p' => Row(v, "ぴゃ", "", "ぴゅ", "", "ぴょ")
      case 'm' => Row(v, "みゃ", "", "みゅ", "", "みょ")
      case 'r' => Row(v, "りゃ", "", "りゅ", "", "りょ")
      case _ => ""
    else if c == 's' && d == 'h' then Row(v, "しゃ", "し", "しゅ", "", "しょ")
    else if c == 'c' && d == 'h' then Row(v, "ちゃ", "ち", "ちゅ", "", "ちょ")
    else if c == 't' && d == 's' && v == 'u' then "つ"
    else ""
  }

  /** The consonants whose doubling is a key of `geminateMap`. */
  predicate IsGeminable(c: char)
  {
    c in "tkspcdgbmnrzjhfvwylx"
  }

  /** `geminateMap[twoChars] || ''`: "っ" for a doubled geminable consonant,
      "" for anything else. */
  function GeminateMark(pair: string): string
  {
    if |pair| == 2 && pair[0] == pair[1] && IsGeminable(pair[0]) then "っ" else ""
  }

  /** `/[aeiou]/.test(c)`. */
  predicate IsVowel(c: char)
  {
    c == 'a' || c == 'e' || c == 'i' || c == 'o' || c == 'u'
  }

  /** A table lookup used as a condition: present with a non-empty value. */
  predicate Has(m: string -> string, k: string)
  {
    m(k) != ""
  }

  /** What one pass of the scan loop does at the front of the remaining
      input: how many characters it consumes and the text it appends. */
  datatype Step = Step(consumed: nat, emitted: string)

  /** The gemination rule applies: a doubled consonant from `gem`, then a
      vowel, where consonant + vowel is a key of `kana`. */
  predicate GeminateAt(kana: string -> string, gem: string -> string, s: string)
  {
    |s| > 2 && Has(gem, s[..2]) && IsVowel(s[2]) && Has(kana, [s[0], s[2]])
  }

  /** One pass of the loop, over the kana table `kana` and the doubled-
      consonant table `gem`. It always consumes one to three characters and
      always appends something. A doubled consonant before a vowel emits
      the gemination mark and the single consonant's kana; otherwise the
      longest key among three, two and one characters wins; failing all,
      the character is copied unchanged. */
  function ScanStep(kana: string -> string, gem: string -> string, s: string): (st: Step)
    requires s != ""
    ensures 1 <= st.consumed <= 3 && st.consumed <= |s|
    ensures st.emitted != ""
    ensures GeminateAt(kana, gem, s) ==>
      st == Step(3, gem(s[..2]) + kana([s[0], s[2]]))
    ensures (!GeminateAt(kana, gem, s) && |s| >= 3 && Has(kana, s[..3])) ==>
      st == Step(3, kana(s[..3]))
    ensures (!GeminateAt(kana, gem, s) && (|s| < 3 || !Has(kana, s[..3]))
             && |s| >= 2 && Has(kana, s[..2])) ==>
      st == Step(2, kana(s[..2]))
    ensures (!GeminateAt(kana, gem, s) && (|s| < 3 || !Has(kana, s[..3]))
             && (|s| < 2 || !Has(kana, s[..2]))) ==>
      st == Step(1, if Has(kana, s[..1]) then kana(s[..1]) else s[..1])
  {
    if GeminateAt(kana, gem, s) then
      Step(3, gem(s[..2]) + kana([s[0], s[2]]))
    else if |s| >= 3 && Has(kana, s[..3]) then
      Step(3, kana(s[..3]))
    else if |s| >= 2 && Has(kana, s[..2]) then
      Step(2, kana(s[..2]))
    else if Has(kana, s[..1]) then
      Step(1, kana(s[..1]))
    else
      Step(1, s[..1])
  }

  /** The scan of the whole remaining input, one step after another. */
  function Scan(kana: string -> string, gem: string -> string, s: string): string
    decreases |s|
  {
    if s == "" then ""
    else
      var st := ScanStep(kana, gem, s);
      st.emitted + Scan(kana, gem, s[st.consumed..])
  }

  /** `romajiToHiragana`: lower-case (ASCII), trim, then scan with the
      romaji and doubled-consonant tables. Input that is empty after
      lower-casing and trimming gives "", and any other input gives a
      non-empty result. */
  function RomajiToHiragana(romaji: string): (r: string)
    ensures Trim(ToLower(romaji)) == "" ==> r == ""
    ensures Trim(ToLower(romaji)) != "" ==> r != ""
  {
    var lower := Trim(ToLower(romaji));
    if lower == "" then ""
    else
      ScanNonEmpty(RomajiKana, GeminateMark, lower);
      Scan(RomajiKana, GeminateMark, lower)
  }

  /** One unfolding of the scan on non-empty input. */
  lemma ScanUnfold(kana: string -> string, gem: string -> string, s: string)
    requires s != ""
    ensures Scan(kana, gem, s)
         == ScanStep(kana, gem, s).emitted + Scan(kana, gem, s[ScanStep(kana, gem, s).consumed..])
  {
  }

  /** Every step emits something, so a non-empty input scans to non-empty
      output, whatever the tables. */
  lemma ScanNonEmpty(kana: string -> string, gem: string -> string, s: string)
    requires s != ""
    ensures Scan(kana, gem, s) != ""
  {
    ScanUnfold(kana, gem, s);
  }

  /** The body of the source's loop at index `i`: the same tests on
      `lower` by index, giving the same step as `ScanStep` on the rest. */
  method StepAt(kana: string -> string, gem: string -> string, lower: string, i: nat)
    returns (n: nat, out: string)
    requires i < |lower|
    ensures Step(n, out) == ScanStep(kana, gem, lower[i..])
  {
    ghost var rest := lower[i..];
    if i + 2 < |lower| && Has(gem, lower[i..i + 2]) && IsVowel(lower[i + 2])
       && Has(kana, [lower[i], lower[i + 2]]) {
      assert rest[..2] == lower[i..i + 2];
      return 3, gem(lower[i..i + 2]) + kana([lower[i], lower[i + 2]]);
    }
    assert !GeminateAt(kana, gem, rest) by {
      if |rest| > 2 { assert rest[..2] == lower[i..i + 2]; }
    }
    if i + 3 <= |lower| && Has(kana, lower[i..i + 3]) {
      assert rest[..3] == lower[i..i + 3];
      return 3, kana(lower[i..i + 3]);
    }
    assert |rest| < 3 || !Has(kana, rest[..3]) by {
      if |rest| >= 3 { assert rest[..3] == lower[i..i + 3]; }
    }
    if i + 2 <= |lower| && Has(kana, lower[i..i + 2]) {
      assert rest[..2] == lower[i..i + 2];
      return 2, kana(lower[i..i + 2]);
    }
    assert |rest| < 2 || !Has(kana, rest[..2]) by {
      if |rest| >= 2 { assert rest[..2] == lower[i..i + 2]; }
    }
    var one := [lower[i]];
    assert rest[..1] == one;
    if Has(kana, one) {
      return 1, kana(one);
    }
    return 1, one;
  }

  /** The source's index loop: it walks `lower` from index 0 to its end and
      produces exactly the functional scan. */
  method ScanLoop(kana: string -> string, gem: string -> string, lower: string) returns (result: string)
    ensures result == Scan(kana, gem, lower)
  {
    result := "";
    var i := 0;
    while i < |lower|
      invariant 0 <= i <= |lower|
      invariant result + Scan(kana, gem, lower[i..]) == Scan(kana, gem, lower)
      decreases |lower| - i
    {
      var n, out := StepAt(kana, gem, lower, i);
      ScanUnfold(kana, gem, lower[i..]);
      assert lower[i..][n..] == lower[i + n..];
      Assoc(result, out, Scan(kana, gem, lower[i + n..]));
      result := result + out;
      i := i + n;
    }
  }

  /** `romajiToHiragana` as the source writes it, with its loop. */
  method RomajiToHiraganaLoop(romaji: string) returns (result: string)
    ensures result == RomajiToHiragana(romaji)
  {
    var lower := Trim(ToLower(romaji));
    if lower == "" {
      return "";
    }
    result := ScanLoop(RomajiKana, GeminateMark, lower);
  }

  /** The result depends only on the lower-cased input, so upper and lower
      case spell the same kana. */
  lemma CaseInsensitive(romaji: string)
    ensures RomajiToHiragana(ToLower(romaji)) == RomajiToHiragana(romaji)
  {
    assert ToLower(ToLower(romaji)) == ToLower(romaji);
  }

  /** `containsRomaji`: true exactly when some character is an ASCII letter. */
  function ContainsRomaji(text: string): (r: bool)
    ensures r <==> exists i :: 0 <= i < |text| && IsAsciiLetter(text[i])
  {
    if text == "" then false
    else IsAsciiLetter(text[0]) || ContainsRomaji(text[1..])
  }

  /** Every key of a kana table starts with a lower-case ASCII letter. */
  ghost predicate KeysStartLower(kana: string -> string)
  {
    forall k :: kana(k) != "" ==> k != "" && 'a' <= k[0] <= 'z'
  }

  lemma RomajiKeysStartLower()
    ensures KeysStartLower(RomajiKana)
  {
  }

  /** A doubled consonant before a vowel whose single-consonant syllable is
      in the table is read as っ followed by that syllable, and all three
      characters are consumed. */
  lemma GeminationStep(s: string)
    requires GeminateAt(RomajiKana, GeminateMark, s)
    ensures s[0] == s[1] && IsGeminable(s[0]) && IsVowel(s[2])
    ensures ScanStep(RomajiKana, GeminateMark, s)
         == Step(3, "っ" + RomajiKana([s[0], s[2]]))
  {
    assert s[..2][0] == s[0] && s[..2][1] == s[1];
  }

  /** With keys that all start with a lower-case letter, input without ASCII
      letters is copied through one character at a time. */
  lemma {:induction false} ScanCopiesNonLetters(kana: string -> string, gem: string -> string, s: string)
    requires KeysStartLower(kana)
    requires forall i :: 0 <= i < |s| ==> !IsAsciiLetter(s[i])
    ensures Scan(kana, gem, s) == s
    decreases |s|
  {
    if s != "" {
      assert s[0] == s[..1][0];
      assert !Has(kana, s[..1]);
      if |s| >= 2 {
        assert s[0] == s[..2][0];
        assert !Has(kana, s[..2]);
      }
      if |s| >= 3 {
        assert s[0] == s[..3][0];
        assert !Has(kana, s[..3]);
        assert s[0] == [s[0], s[2]][0];
        assert !Has(kana, [s[0], s[2]]);
      }
      assert ScanStep(kana, gem, s) == Step(1, s[..1]);
      ScanUnfold(kana, gem, s);
      ScanCopiesNonLetters(kana, gem, s[1..]);
      assert s[..1] + s[1..] == s;
    }
  }

  /** Text that `containsRomaji` rejects comes back from the converter
      only trimmed: nothing in it is transliterated. */
  lemma NoRomajiPassesThrough(text: string)
    requires !ContainsRomaji(text)
    ensures RomajiToHiragana(text) == Trim(text)
  {
    ToLowerUnchanged(text);
    var t := Trim(text);
    NoLettersAfterTrim(text);
    RomajiKeysStartLower();
    if t != "" {
      ScanCopiesNonLetters(RomajiKana, GeminateMark, t);
    }
  }

  lemma NoLettersAfterTrim(text: string)
    requires forall i :: 0 <= i < |text| ==> !IsAsciiLetter(text[i])
    ensures forall i :: 0 <= i < |Trim(text)| ==> !IsAsciiLetter(Trim(text)[i])
  {
    var t := Trim(text);
    var lead := |text| - |TrimStart(text)|;
    TrimSlice(text);
    forall i | 0 <= i < |t|
      ensures !IsAsciiLetter(t[i])
    {
      assert t[i] == text[lead + i];
    }
  }

  /** Worked examples: a doubled consonant, a three-letter key and a
      doubled n before a vowel. */
  lemma KitteExample()
    ensures RomajiToHiragana("kitte") == "きって"
  {
    ToLowerUnchanged("kitte");
    TrimUnchanged("kitte");
    KitteScan();
  }

  lemma KitteScan()
    ensures Scan(RomajiKana, GeminateMark, "kitte") == "きって"
  {
    var k, g := RomajiKana, GeminateMark;
    assert "kitte"[..2] == "ki" && "kitte"[..3] == "kit";
    assert g("ki") == "" && k("kit") == "" && k("ki") == "き";
    assert ScanStep(k, g, "kitte") == Step(2, "き");
    ScanUnfold(k, g, "kitte");
    assert "kitte"[2..] == "tte";
    TteScan();
  }

  lemma TteScan()
    ensures Scan(RomajiKana, GeminateMark, "tte") == "って"
  {
    var k, g := RomajiKana, GeminateMark;
    assert "tte"[..2] == "tt" && g("tt") == "っ" && k("te") == "て";
    assert ScanStep(k, g, "tte") == Step(3, "って");
    ScanUnfold(k, g, "tte");
    assert "tte"[3..] == "";
  }

  lemma ShiExample()
    ensures RomajiToHiragana("shi") == "し"
  {
    var k, g := RomajiKana, GeminateMark;
    ToLowerUnchanged("shi");
    TrimUnchanged("shi");
    assert "shi"[..2] == "sh" && g("sh") == "";
    assert "shi"[..3] == "shi" && k("shi") == "し";
    assert ScanStep(k, g, "shi") == Step(3, "し");
    ScanUnfold(k, g, "shi");
    assert "shi"[3..] == "";
  }

  lemma NnaExample()
    ensures RomajiToHiragana("nna") == "っな"
  {
    var k, g := RomajiKana, GeminateMark;
    ToLowerUnchanged("nna");
    TrimUnchanged("nna");
    assert "nna"[..2] == "nn" && g("nn") == "っ";
    assert k("na") == "な";
    assert ScanStep(k, g, "nna") == Step(3, "っな");
    ScanUnfold(k, g, "nna");
    assert "nna"[3..] == "";
  }
}
