/**
  The accent segmenter: a reading is cut into contiguous spans, each tagged
  with a pitch class, according to one of four accent pattern labels.
 */
module Accent {

  import opened Strings

  /** The pitch classes, with the codes the renderer uses. */
  datatype Pitch =
    | Low      // 'l'
    | High     // 'h'
    | Rising   // 'l2h'
    | Falling  // 'h2l'

  datatype AccentSegment = AccentSegment(cls: Pitch, text: string)

  /** The segment texts, concatenated in order. */
  function Texts(segs: seq<AccentSegment>): string
  {
    if segs == [] then "" else segs[0].text + Texts(segs[1..])
  }

  /** The pattern labels the segmenter recognises: atamadaka (head-high),
      nakadaka (middle-high), odaka (tail-high) and heiban (flat). */
  predicate IsKnownLabel(accent: string)
  {
    accent == "ATA" || accent == "NAKA" || accent == "ODA" || accent == "HEI"
  }

  function Classes(segs: seq<AccentSegment>): seq<Pitch>
  {
    seq(|segs|, i requires 0 <= i < |segs| => segs[i].cls)
  }

  /** `accentSegments` on the full reading. For a known label the first
      segment is the reading's first character (empty for an empty
      reading). Head-high is falling then low; middle-high is rising then
      falling, with a final one-character low segment when more than one
      character follows the first; tail-high and flat are rising then high;
      any other label gives one low segment holding the whole reading. */
  function AccentSegments(reading: string, accent: string): (segs: seq<AccentSegment>)
    ensures IsKnownLabel(accent) ==>
      && |segs| >= 2
      && segs[0].text <= reading
      && |segs[0].text| == (if reading == "" then 0 else 1)
    ensures accent == "ATA" ==> Classes(segs) == [Falling, Low]
    ensures accent == "NAKA" && |reading| <= 2 ==> Classes(segs) == [Rising, Falling]
    ensures accent == "NAKA" && |reading| > 2 ==>
      && Classes(segs) == [Rising, Falling, Low]
      && |segs[1].text| >= 1
      && |segs[2].text| == 1
    ensures accent == "ODA" || accent == "HEI" ==> Classes(segs) == [Rising, High]
    ensures !IsKnownLabel(accent) ==> segs == [AccentSegment(Low, reading)]
  {
    var first := if reading == "" then "" else reading[..1];
    var rest := if reading == "" then "" else reading[1..];
    if accent == "ATA" then
      [AccentSegment(Falling, first), AccentSegment(Low, rest)]
    else if accent == "NAKA" then
      if |rest| <= 1 then
        [AccentSegment(Rising, first), AccentSegment(Falling, rest)]
      else
        [AccentSegment(Rising, first), AccentSegment(Falling, DropLast(rest, 1)), AccentSegment(Low, Last(rest))]
    else if accent == "ODA" || accent == "HEI" then
      [AccentSegment(Rising, first), AccentSegment(High, rest)]
    else
      [AccentSegment(Low, reading)]
  }

  /** For every label and every reading the segment texts concatenate back
      to the reading exactly. */
  lemma {:induction false} SegmentsLossless(reading: string, accent: string)
    ensures Texts(AccentSegments(reading, accent)) == reading
  {
    var segs := AccentSegments(reading, accent);
    var first := if reading == "" then "" else reading[..1];
    var rest := if reading == "" then "" else reading[1..];
    assert first + rest == reading;
    if accent == "ATA" {
      assert segs == [AccentSegment(Falling, first), AccentSegment(Low, rest)];
      TextsOfTwo(segs);
    } else if accent == "NAKA" && |rest| <= 1 {
      assert segs == [AccentSegment(Rising, first), AccentSegment(Falling, rest)];
      TextsOfTwo(segs);
    } else if accent == "NAKA" {
      assert DropLast(rest, 1) + Last(rest) == rest;
      TextsOfThree(segs);
    } else if accent == "ODA" || accent == "HEI" {
      assert segs == [AccentSegment(Rising, first), AccentSegment(High, rest)];
      TextsOfTwo(segs);
    } else {
      assert Texts(segs) == segs[0].text + Texts([]);
    }
  }

  lemma TextsOfTwo(segs: seq<AccentSegment>)
    requires |segs| == 2
    ensures Texts(segs) == segs[0].text + segs[1].text
  {
    assert segs[1..][1..] == [];
    assert Texts(segs[1..]) == segs[1].text + Texts([]) == segs[1].text;
  }

  lemma TextsOfThree(segs: seq<AccentSegment>)
    requires |segs| == 3
    ensures Texts(segs) == segs[0].text + segs[1].text + segs[2].text
  {
    assert segs[1..][1..][1..] == [];
    assert Texts(segs[1..][1..]) == segs[2].text + Texts([]) == segs[2].text;
    assert Texts(segs[1..]) == segs[1].text + segs[2].text;
  }

  /** Tail-high and flat are rendered identically. */
  lemma OdakaIsHeiban(reading: string)
    ensures AccentSegments(reading, "ODA") == AccentSegments(reading, "HEI")
  {
  }
}
