/**
  The CSV reader for the verb list: the text is trimmed and cut into lines,
  the first line gives the headers and every other line a row. A line is
  split at commas, where a double quote only toggles whether commas count
  and is itself dropped, and every field is trimmed.
 */
module Csv {

  import opened Strings

  /** `CSVData`: the header fields and the rows of fields. */
  datatype CSVData = CSVData(headers: seq<string>, rows: seq<seq<string>>)

  /** The state of the line scanner between characters: the fields pushed
      so far (already trimmed), the field being collected, and whether the
      scanner is inside quotes. */
  datatype Scanner = Scanner(fields: seq<string>, current: string, inQuotes: bool)

  /** One pass of the scanner's loop on character `c`. */
  function Feed(st: Scanner, c: char): Scanner
  {
    if c == '"' then st.(inQuotes := !st.inQuotes)
    else if c == ',' && !st.inQuotes then Scanner(st.fields + [Trim(st.current)], "", st.inQuotes)
    else st.(current := st.current + [c])
  }

  /** The scanner run over `s` from state `st`. */
  function FeedAll(st: Scanner, s: string): Scanner
    decreases |s|
  {
    if s == "" then st else FeedAll(Feed(st, s[0]), s[1..])
  }

  /** After the loop the last field is pushed, trimmed. */
  function Finish(st: Scanner): seq<string>
  {
    st.fields + [Trim(st.current)]
  }

  const Start := Scanner([], "", false)

  /** Every field trimmed. */
  function TrimAll(fs: seq<string>): (r: seq<string>)
    ensures |r| == |fs|
    ensures forall j :: 0 <= j < |fs| ==> r[j] == Trim(fs[j])
  {
    if fs == [] then [] else [Trim(fs[0])] + TrimAll(fs[1..])
  }

  /** The raw fields of `s` when reading starts inside quotes exactly when
      `q` holds, defined from the front: a quote switches `q` and is
      dropped, a comma outside quotes starts a new field, anything else
      joins the first field. */
  function RawFields(s: string, q: bool): (r: seq<string>)
    ensures |r| >= 1
    decreases |s|
  {
    if s == "" then [""]
    else if s[0] == '"' then RawFields(s[1..], !q)
    else if s[0] == ',' && !q then [""] + RawFields(s[1..], q)
    else
      var rest := RawFields(s[1..], q);
      [[s[0]] + rest[0]] + rest[1..]
  }

  /** The number of commas in `s` that are outside quotes, reading from the
      front with the quote state starting at `q`. */
  function CommasOutside(s: string, q: bool): nat
    decreases |s|
  {
    if s == "" then 0
    else if s[0] == '"' then CommasOutside(s[1..], !q)
    else if s[0] == ',' && !q then 1 + CommasOutside(s[1..], q)
    else CommasOutside(s[1..], q)
  }

  /** `s` with every double quote removed. */
  function Unquote(s: string): (r: string)
    ensures '"' !in r
    decreases |s|
  {
    if s == "" then ""
    else if s[0] == '"' then Unquote(s[1..])
    else [s[0]] + Unquote(s[1..])
  }

  /** `parseCSVLine`: the line's raw fields, each trimmed. There is one
      field more than there are commas outside quotes, and no field holds
      a double quote. */
  function ParseCSVLine(line: string): (fields: seq<string>)
    ensures fields == TrimAll(RawFields(line, false))
    ensures |fields| == 1 + CommasOutside(line, false)
    ensures forall j :: 0 <= j < |fields| ==> '"' !in fields[j]
  {
    ScanFromStart(line);
    FieldCount(line, false);
    RawFieldsUnquoted(line, false);
    TrimmedUnquoted(RawFields(line, false));
    Finish(FeedAll(Start, line))
  }

  /** From the start state the scanner yields exactly the trimmed raw
      fields. */
  lemma ScanFromStart(line: string)
    ensures Finish(FeedAll(Start, line)) == TrimAll(RawFields(line, false))
  {
    var r := RawFields(line, false);
    calc {
      Finish(FeedAll(Start, line));
      { ScanMatchesRawFields([], "", false, line); }
      [] + [Trim("" + r[0])] + TrimAll(r[1..]);
      { assert "" + r[0] == r[0]; }
      [Trim(r[0])] + TrimAll(r[1..]);
      TrimAll(r);
    }
  }

  /** The loop and the front-first definition agree: running the scanner
      from any state over `t` and pushing the last field gives the fields
      already pushed, then the current field completed by the first raw
      field of `t`, then the rest of `t`'s raw fields, all trimmed. */
  lemma {:induction false} ScanMatchesRawFields(fs: seq<string>, c: string, q: bool, t: string)
    ensures Finish(FeedAll(Scanner(fs, c, q), t))
         == fs + [Trim(c + RawFields(t, q)[0])] + TrimAll(RawFields(t, q)[1..])
    decreases |t|, 1
  {
    if t == "" {
      assert c + "" == c;
    } else if t[0] == '"' {
      ScanMatchesRawFields(fs, c, !q, t[1..]);
    } else if t[0] == ',' && !q {
      ScanAtComma(fs, c, q, t);
    } else {
      ScanAtOther(fs, c, q, t);
    }
  }

  /** A comma outside quotes pushes the current field and starts an empty
      one. */
  lemma {:induction false} ScanAtComma(fs: seq<string>, c: string, q: bool, t: string)
    requires t != "" && t[0] == ',' && !q
    ensures Finish(FeedAll(Scanner(fs, c, q), t))
         == fs + [Trim(c + RawFields(t, q)[0])] + TrimAll(RawFields(t, q)[1..])
    decreases |t|, 0
  {
    var rest := RawFields(t[1..], q);
    var r := RawFields(t, q);
    var a := fs + [Trim(c)];
    assert r[0] == "" && r[1..] == rest by {
      assert r == [""] + rest;
    }
    calc {
      Finish(FeedAll(Scanner(fs, c, q), t));
      Finish(FeedAll(Scanner(a, "", q), t[1..]));
      { ScanMatchesRawFields(a, "", q, t[1..]); }
      a + [Trim("" + rest[0])] + TrimAll(rest[1..]);
      { assert "" + rest[0] == rest[0]; Assoc(a, [Trim(rest[0])], TrimAll(rest[1..])); }
      a + ([Trim(rest[0])] + TrimAll(rest[1..]));
      a + TrimAll(rest);
      { assert c + r[0] == c; }
      fs + [Trim(c + r[0])] + TrimAll(r[1..]);
    }
  }

  /** Any other character, or a comma inside quotes, extends the current
      field. */
  lemma {:induction false} ScanAtOther(fs: seq<string>, c: string, q: bool, t: string)
    requires t != "" && t[0] != '"' && !(t[0] == ',' && !q)
    ensures Finish(FeedAll(Scanner(fs, c, q), t))
         == fs + [Trim(c + RawFields(t, q)[0])] + TrimAll(RawFields(t, q)[1..])
    decreases |t|, 0
  {
    var rest := RawFields(t[1..], q);
    assert FeedAll(Scanner(fs, c, q), t) == FeedAll(Scanner(fs, c + [t[0]], q), t[1..]);
    ScanMatchesRawFields(fs, c + [t[0]], q, t[1..]);
    assert RawFields(t, q) == [[t[0]] + rest[0]] + rest[1..];
    assert c + [t[0]] + rest[0] == c + ([t[0]] + rest[0]);
  }

  /** Each comma outside quotes opens one more field. */
  lemma {:induction false} FieldCount(s: string, q: bool)
    ensures |RawFields(s, q)| == 1 + CommasOutside(s, q)
    decreases |s|
  {
    if s != "" {
      FieldCount(s[1..], q);
      FieldCount(s[1..], !q);
    }
  }

  /** Quotes never reach a field. */
  lemma {:induction false} RawFieldsUnquoted(s: string, q: bool)
    ensures forall j :: 0 <= j < |RawFields(s, q)| ==> '"' !in RawFields(s, q)[j]
    decreases |s|
  {
    if s == "" {
    } else if s[0] == '"' {
      RawFieldsUnquoted(s[1..], !q);
    } else if s[0] == ',' && !q {
      RawFieldsUnquoted(s[1..], q);
      var r := RawFields(s, q);
      forall j | 0 <= j < |r|
        ensures '"' !in r[j]
      {
        if j > 0 { assert r[j] == RawFields(s[1..], q)[j - 1]; }
      }
    } else {
      RawFieldsUnquoted(s[1..], q);
      var rest := RawFields(s[1..], q);
      var r := RawFields(s, q);
      forall j | 0 <= j < |r|
        ensures '"' !in r[j]
      {
        if j == 0 {
          assert r[0] == [s[0]] + rest[0];
        } else {
          assert r[j] == rest[j];
        }
      }
    }
  }

  /** Trimming keeps a stretch of the field, so it adds no quote. */
  lemma TrimmedUnquoted(fs: seq<string>)
    requires forall j :: 0 <= j < |fs| ==> '"' !in fs[j]
    ensures forall j :: 0 <= j < |fs| ==> '"' !in Trim(fs[j])
  {
    forall j | 0 <= j < |fs|
      ensures '"' !in Trim(fs[j])
    {
      var f := fs[j];
      var lead := |f| - |TrimStart(f)|;
      TrimSlice(f);
      assert forall k :: 0 <= k < |Trim(f)| ==> Trim(f)[k] == f[lead + k];
    }
  }

  /** Joining the raw fields with commas gives back the input without its
      quotes: only the separating commas and the quotes are consumed. */
  lemma {:induction false} RawFieldsJoin(s: string, q: bool)
    ensures Join(RawFields(s, q), ",") == Unquote(s)
    decreases |s|, 1
  {
    if s == "" {
    } else if s[0] == '"' {
      RawFieldsJoin(s[1..], !q);
    } else if s[0] == ',' && !q {
      JoinAtComma(s, q);
    } else {
      var rest := RawFields(s[1..], q);
      RawFieldsJoin(s[1..], q);
      JoinConsFirst(s[0], rest, ",");
    }
  }

  /** A separating comma becomes the separator before the remaining
      fields. */
  lemma {:induction false} JoinAtComma(s: string, q: bool)
    requires s != "" && s[0] == ',' && !q
    ensures Join(RawFields(s, q), ",") == Unquote(s)
    decreases |s|, 0
  {
    var rest := RawFields(s[1..], q);
    calc {
      Join(RawFields(s, q), ",");
      Join([""] + rest, ",");
      { assert ([""] + rest)[1..] == rest; }
      "" + "," + Join(rest, ",");
      { RawFieldsJoin(s[1..], q); }
      "," + Unquote(s[1..]);
      Unquote(s);
    }
  }

  /** The source's `for` loop, character by character. */
  method ParseCSVLineLoop(line: string) returns (result: seq<string>)
    ensures result == ParseCSVLine(line)
  {
    result := [];
    var current := "";
    var inQuotes := false;
    var i := 0;
    while i < |line|
      invariant 0 <= i <= |line|
      invariant FeedAll(Scanner(result, current, inQuotes), line[i..]) == FeedAll(Start, line)
      decreases |line| - i
    {
      var ch := line[i];
      assert line[i..][1..] == line[i + 1..];
      if ch == '"' {
        inQuotes := !inQuotes;
      } else if ch == ',' && !inQuotes {
        result := result + [Trim(current)];
        current := "";
      } else {
        current := current + [ch];
      }
      i := i + 1;
    }
    result := result + [Trim(current)];
  }

  /** A line with neither commas nor quotes is one trimmed field. */
  lemma {:induction false} PlainLineIsOneField(line: string)
    requires ',' !in line && '"' !in line
    ensures ParseCSVLine(line) == [Trim(line)]
  {
    PlainRawFields(line, false);
  }

  lemma {:induction false} PlainRawFields(s: string, q: bool)
    requires ',' !in s && '"' !in s
    ensures RawFields(s, q) == [s]
    decreases |s|
  {
    if s != "" {
      assert s[0] in s;
      assert forall k :: 0 <= k < |s[1..]| ==> s[1..][k] == s[k + 1];
      PlainRawFields(s[1..], q);
      assert [s[0]] + s[1..] == s;
    }
  }

  /** `split(sep)`: the pieces of `s` between occurrences of `sep`; the
      empty string is one empty piece. */
  function SplitOn(s: string, sep: char): (pieces: seq<string>)
    ensures |pieces| >= 1
    ensures forall j :: 0 <= j < |pieces| ==> sep !in pieces[j]
    decreases |s|
  {
    if s == "" then [""]
    else
      var rest := SplitOn(s[1..], sep);
      if s[0] == sep then [""] + rest
      else
        assert forall j :: 1 <= j < |rest| ==> rest[j] == rest[1..][j - 1];
        [[s[0]] + rest[0]] + rest[1..]
  }

  /** Joining the pieces with the separator gives back the string. */
  lemma {:induction false} SplitJoin(s: string, sep: char)
    ensures Join(SplitOn(s, sep), [sep]) == s
    decreases |s|
  {
    if s != "" {
      var rest := SplitOn(s[1..], sep);
      SplitJoin(s[1..], sep);
      if s[0] == sep {
        assert ([""] + rest)[1..] == rest;
        assert Join([""] + rest, [sep]) == "" + [sep] + Join(rest, [sep]);
      } else {
        JoinConsFirst(s[0], rest, [sep]);
      }
      assert [s[0]] + s[1..] == s;
    }
  }

  /** Putting a character in front of the first part puts it in front of
      the join. */
  lemma JoinConsFirst(c: char, parts: seq<string>, sep: string)
    requires |parts| >= 1
    ensures Join([[c] + parts[0]] + parts[1..], sep) == [c] + Join(parts, sep)
  {
    var p := [[c] + parts[0]] + parts[1..];
    if |parts| == 1 {
      assert p == [[c] + parts[0]];
    } else {
      assert p[1..] == parts[1..];
      assert [c] + parts[0] + sep + Join(parts[1..], sep)
          == [c] + (parts[0] + sep + Join(parts[1..], sep));
    }
  }

  /** `parseCSV`: the trimmed text is split into lines; the first line gives
      the headers and each later line, in order, one row. `split` never
      returns an empty list, so the no-lines result is never produced, and
      blank text gives a single empty header and no rows. */
  function ParseCSV(csvText: string): (d: CSVData)
    ensures var lines := SplitOn(Trim(csvText), '\n');
      && d.headers == ParseCSVLine(lines[0])
      && |d.rows| == |lines| - 1
      && (forall j :: 0 <= j < |d.rows| ==> d.rows[j] == ParseCSVLine(lines[j + 1]))
    ensures Trim(csvText) == "" ==> d == CSVData([""], [])
  {
    EmptyText();
    var lines := SplitOn(Trim(csvText), '\n');
    if |lines| == 0 then CSVData([], [])
    else ParseLines(lines)
  }

  /** The first line parsed as the headers, each later line as one row. */
  function ParseLines(lines: seq<string>): (d: CSVData)
    requires |lines| >= 1
    ensures d.headers == ParseCSVLine(lines[0])
    ensures |d.rows| == |lines| - 1
    ensures forall j :: 0 <= j < |d.rows| ==> d.rows[j] == ParseCSVLine(lines[j + 1])
  {
    CSVData(ParseCSVLine(lines[0]), seq(|lines| - 1, j requires 0 <= j < |lines| - 1 => ParseCSVLine(lines[j + 1])))
  }

  /** The empty text is one empty line, and the empty line one empty
      field. */
  lemma EmptyText()
    ensures SplitOn("", '\n') == [""]
    ensures ParseCSVLine("") == [""]
  {
    assert TrimAll([""]) == [Trim("")] + TrimAll([]);
  }

  /** Worked example: a quoted comma stays inside its field and the quotes
      disappear. */
  lemma QuotedCommaExample(line: string)
    requires line == "a,\"b,c\",d"
    ensures ParseCSVLine(line) == ["a", "b,c", "d"]
  {
    QuotedCommaRaw();
    QuotedCommaTrimmed();
  }

  lemma QuotedCommaTrimmed()
    ensures TrimAll(["a", "b,c", "d"]) == ["a", "b,c", "d"]
  {
    TrimUnchanged("a");
    TrimUnchanged("b,c");
    TrimUnchanged("d");
  }

  lemma QuotedCommaRaw()
    ensures RawFields("a,\"b,c\",d", false) == ["a", "b,c", "d"]
  {
    QuotedTail();
    assert "\"b,c\",d"[1..] == "b,c\",d";
    assert RawFields("\"b,c\",d", false) == ["b,c", "d"];
    assert ",\"b,c\",d"[1..] == "\"b,c\",d";
    assert RawFields(",\"b,c\",d", false) == ["", "b,c", "d"];
    assert "a,\"b,c\",d"[1..] == ",\"b,c\",d";
    assert ['a'] + "" == "a";
  }

  lemma QuotedTail()
    ensures RawFields("b,c\",d", true) == ["b,c", "d"]
  {
    OneFieldD();
    assert "\",d"[1..] == ",d";
    assert RawFields("\",d", true) == ["", "d"];
    assert "c\",d"[1..] == "\",d";
    assert ['c'] + "" == "c";
    assert RawFields("c\",d", true) == ["c", "d"];
    assert ",c\",d"[1..] == "c\",d";
    assert [','] + "c" == ",c";
    assert RawFields(",c\",d", true) == [",c", "d"];
    assert "b,c\",d"[1..] == ",c\",d";
    assert ['b'] + ",c" == "b,c";
  }

  lemma OneFieldD()
    ensures RawFields(",d", false) == ["", "d"]
  {
    assert "d"[1..] == "";
    assert ['d'] + "" == "d";
    assert [""][1..] == [];
    assert RawFields("d", false) == ["d"];
    assert ",d"[1..] == "d";
  }
}
