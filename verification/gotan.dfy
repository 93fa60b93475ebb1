/**
  The exported five-grade stem tables. Each maps one of the nine
  dictionary-form finals to the kana that replaces it: the a-, i-, e- and
  o-row stems, and the geminated te/ta endings.
 */
module Gotan {

  /** The nine finals a five-grade verb can end in. */
  const Finals: set<string> := {"う", "く", "ぐ", "す", "つ", "ぬ", "ぶ", "む", "る"}

  const AStem: map<string, string> := map[
    "う" := "わ", "く" := "か", "ぐ" := "が", "す" := "さ", "つ" := "た",
    "ぬ" := "な", "ぶ" := "ば", "む" := "ま", "る" := "ら"]

  const IStem: map<string, string> := map[
    "う" := "い", "く" := "き", "ぐ" := "ぎ", "す" := "し", "つ" := "ち",
    "ぬ" := "に", "ぶ" := "び", "む" := "み", "る" := "り"]

  const EStem: map<string, string> := map[
    "う" := "え", "く" := "け", "ぐ" := "げ", "す" := "せ", "つ" := "て",
    "ぬ" := "ね", "ぶ" := "べ", "む" := "め", "る" := "れ"]

  const OStem: map<string, string> := map[
    "う" := "お", "く" := "こ", "ぐ" := "ご", "す" := "そ", "つ" := "と",
    "ぬ" := "の", "ぶ" := "ぼ", "む" := "も", "る" := "ろ"]

  const TeConjugate: map<string, string> := map[
    "う" := "って", "つ" := "って", "る" := "って",
    "む" := "んで", "ぶ" := "んで", "ぬ" := "んで",
    "く" := "いて", "ぐ" := "いで", "す" := "して"]

  const TaConjugate: map<string, string> := map[
    "う" := "った", "つ" := "った", "る" := "った",
    "む" := "んだ", "ぶ" := "んだ", "ぬ" := "んだ",
    "く" := "いた", "ぐ" := "いだ", "す" := "した"]

  /** No two keys share a value. */
  ghost predicate Injective(m: map<string, string>)
  {
    forall k1, k2 :: k1 in m && k2 in m && k1 != k2 ==> m[k1] != m[k2]
  }

  /** The past ending of a te ending: final て becomes た, final で becomes だ. */
  function PastOfTe(te: string): string
  {
    if te == "" then ""
    else if te[|te| - 1] == 'て' then te[..|te| - 1] + "た"
    else if te[|te| - 1] == 'で' then te[..|te| - 1] + "だ"
    else te
  }

  /** All six tables are defined on exactly the nine finals. */
  lemma TableKeys()
    ensures AStem.Keys == Finals && IStem.Keys == Finals
    ensures EStem.Keys == Finals && OStem.Keys == Finals
    ensures TeConjugate.Keys == Finals && TaConjugate.Keys == Finals
  {
    VowelRowKeys();
    TeTaKeys();
  }

  lemma VowelRowKeys()
    ensures AStem.Keys == Finals && IStem.Keys == Finals
    ensures EStem.Keys == Finals && OStem.Keys == Finals
  {
  }

  lemma TeTaKeys()
    ensures TeConjugate.Keys == Finals && TaConjugate.Keys == Finals
  {
  }

  /** For each final, each vowel-row entry is a single kana and the te/ta
      entries are two kana. */
  lemma RowEntries(l: string)
    requires l in Finals
    ensures l in AStem && |AStem[l]| == 1
    ensures l in IStem && |IStem[l]| == 1
    ensures l in EStem && |EStem[l]| == 1
    ensures l in OStem && |OStem[l]| == 1
    ensures l in TeConjugate && |TeConjugate[l]| == 2
    ensures l in TaConjugate && |TaConjugate[l]| == 2
  {
  }

  /** The ta table is the te table with its voiced or voiceless て/で
      turned into た/だ; every te ending is two kana ending in て or で. */
  lemma TaIsPastOfTe()
    ensures forall k :: k in TeConjugate ==>
      && |TeConjugate[k]| == 2
      && TeConjugate[k][1] in {'て', 'で'}
      && k in TaConjugate
      && TaConjugate[k] == PastOfTe(TeConjugate[k])
  {
  }

  /** Each vowel-row table sends the nine finals to nine distinct kana. */
  lemma AStemInjective()
    ensures Injective(AStem)
  {
  }

  lemma IStemInjective()
    ensures Injective(IStem)
  {
  }

  lemma EStemInjective()
    ensures Injective(EStem)
  {
  }

  lemma OStemInjective()
    ensures Injective(OStem)
  {
  }
}
