/**
 The column splitter of the trade bill, set against an encoder that follows section 2 of RFC 4180:
 fields in quotes or, where nothing forbids it, bare (rules 5 and 6), inner quotes doubled (rule 7).
 */
module Csv {
  import opened Text

  /** The columns still to come, given the column begun and whether a quote is open. */
  function Scan(line: string, current: string, quoted: bool): (columns: seq<string>)
    ensures |columns| > 0
  {
    if line == "" then [Trim(current)]
    else if line[0] == '"' then Scan(line[1..], current, !quoted)
    else if line[0] == ',' && !quoted then [Trim(current)] + Scan(line[1..], "", quoted)
    else Scan(line[1..], current + [line[0]], quoted)
  }

  method Columns(line: string) returns (columns: seq<string>)
    ensures columns == Scan(line, "", false)
  {
    columns := [];
    var current, quoted := "", false;
    for index := 0 to |line|
      invariant columns + Scan(line[index..], current, quoted) == Scan(line, "", false)
    {
      var character := line[index];
      assert line[index..][1..] == line[index + 1..];
      if character == '"' {
        quoted := !quoted;
      } else if character == ',' && !quoted {
        columns := columns + [Trim(current)];
        current := "";
      } else {
        current := current + [character];
      }
    }
    columns := columns + [Trim(current)];
  }

  // ---------------------------------------------------------------- the encoder

  /** Rule 7: a quote inside a field is doubled. */
  function Doubled(field: string): string {
    if field == "" then ""
    else (if field[0] == '"' then ['"', '"'] else [field[0]]) + Doubled(field[1..])
  }

  /** A field that may go without quotes. */
  predicate Plain(field: string) {
    ',' !in field && '"' !in field && '\r' !in field && '\n' !in field
  }

  datatype Field = Bare(text: string) | Enclosed(text: string)

  predicate Encodable(fields: seq<Field>) {
    |fields| > 0 && forall f | f in fields :: f.Bare? ==> Plain(f.text)
  }

  function EncodeField(f: Field): string {
    match f
    case Bare(text) => text
    case Enclosed(text) => ['"'] + Doubled(text) + ['"']
  }

  function Encode(fields: seq<Field>): string
    requires |fields| > 0
  {
    if |fields| == 1 then EncodeField(fields[0])
    else EncodeField(fields[0]) + [','] + Encode(fields[1..])
  }

  function Unquoted(field: string): string {
    if field == "" then "" else (if field[0] == '"' then "" else [field[0]]) + Unquoted(field[1..])
  }

  // ------------------------------------------------------------------ decoding

  lemma {:induction false} ScanPlain(text: string, rest: string, current: string)
    requires Plain(text)
    ensures Scan(text + rest, current, false) == Scan(rest, current + text, false)
  {
    if text == "" {
      assert text + rest == rest && current + text == current;
    } else {
      assert (text + rest)[1..] == text[1..] + rest;
      ScanPlain(text[1..], rest, current + [text[0]]);
      assert current + [text[0]] + text[1..] == current + text;
    }
  }

  /** Inside quotes a doubled quote closes and reopens them and adds nothing. */
  lemma ScanPair(rest: string, current: string)
    ensures Scan(['"', '"'] + rest, current, true) == Scan(rest, current, true)
  {
    var line := ['"', '"'] + rest;
    assert line[1..] == ['"'] + rest && line[1..][1..] == rest;
    assert Scan(line, current, true) == Scan(line[1..], current, false);
  }

  lemma ScanInside(c: char, rest: string, current: string)
    requires c != '"'
    ensures Scan([c] + rest, current, true) == Scan(rest, current + [c], true)
  {
    assert ([c] + rest)[1..] == rest;
  }

  lemma {:induction false} ScanDoubled(text: string, rest: string, current: string)
    ensures Scan(Doubled(text) + rest, current, true) == Scan(rest, current + Unquoted(text), true)
  {
    hide Scan;
    if text == "" {
      assert Doubled(text) + rest == rest && current + Unquoted(text) == current;
    } else if text[0] == '"' {
      assert Doubled(text) + rest == ['"', '"'] + (Doubled(text[1..]) + rest);
      ScanPair(Doubled(text[1..]) + rest, current);
      ScanDoubled(text[1..], rest, current);
      assert Unquoted(text) == Unquoted(text[1..]);
    } else {
      assert Doubled(text) + rest == [text[0]] + (Doubled(text[1..]) + rest);
      ScanInside(text[0], Doubled(text[1..]) + rest, current);
      ScanDoubled(text[1..], rest, current + [text[0]]);
      assert current + [text[0]] + Unquoted(text[1..]) == current + Unquoted(text);
    }
  }

  lemma {:induction false} UnquotedPlain(text: string)
    ensures '"' !in Unquoted(text)
    ensures Unquoted(text) == text <==> '"' !in text
  {
    if text != "" {
      UnquotedPlain(text[1..]);
      UnquotedShrinks(text[1..]);
      if text[0] == '"' {
        assert |Unquoted(text)| < |text|;
      } else {
        assert text == [text[0]] + text[1..];
        assert Unquoted(text)[1..] == Unquoted(text[1..]);
      }
    }
  }

  lemma {:induction false} UnquotedShrinks(text: string)
    ensures |Unquoted(text)| <= |text|
  {
    if text != "" {
      UnquotedShrinks(text[1..]);
    }
  }

  lemma ScanField(f: Field, rest: string)
    requires f.Bare? ==> Plain(f.text)
    ensures Scan(EncodeField(f) + rest, "", false) == Scan(rest, Unquoted(f.text), false)
  {
    UnquotedPlain(f.text);
    match f
    case Bare(text) =>
      ScanPlain(text, rest, "");
      assert "" + text == text;
    case Enclosed(text) =>
      var line := EncodeField(f) + rest;
      assert line[1..] == Doubled(text) + (['"'] + rest);
      ScanDoubled(text, ['"'] + rest, "");
      assert "" + Unquoted(text) == Unquoted(text);
      assert (['"'] + rest)[1..] == rest;
  }

  /** What the splitter makes of any encoded line: each field without its quotes and outer blanks. */
  lemma {:induction false} ScanEncoded(fields: seq<Field>)
    requires Encodable(fields)
    ensures var columns := Scan(Encode(fields), "", false);
            && |columns| == |fields|
            && forall i :: 0 <= i < |fields| ==> columns[i] == Trim(Unquoted(fields[i].text))
  {
    if |fields| == 1 {
      ScanField(fields[0], "");
      assert EncodeField(fields[0]) + "" == Encode(fields);
    } else {
      var rest := [','] + Encode(fields[1..]);
      assert Encode(fields) == EncodeField(fields[0]) + rest;
      ScanField(fields[0], rest);
      assert rest[1..] == Encode(fields[1..]);
      ScanEncoded(fields[1..]);
    }
  }

  lemma TrimAddsNothing(s: string)
    ensures forall c | c in Trim(s) :: c in s
  {
    var i, j := TrimDropsOuterSpace(s);
  }

  predicate Intact(text: string) {
    '"' !in text && Trim(text) == text
  }

  /** A field comes back as it was exactly when it holds no quote and no outer blanks. */
  lemma FieldSurvivesIff(text: string)
    ensures Trim(Unquoted(text)) == text <==> Intact(text)
  {
    UnquotedPlain(text);
    TrimAddsNothing(Unquoted(text));
  }

  /**
   The splitter undoes the encoder, commas and line breaks included, exactly on trimmed fields without
   quotes; it does not implement rule 7.
   */
  lemma RoundTripIff(fields: seq<Field>, texts: seq<string>)
    requires Encodable(fields) && |texts| == |fields|
    requires forall i :: 0 <= i < |fields| ==> texts[i] == fields[i].text
    ensures Scan(Encode(fields), "", false) == texts <==> forall i :: 0 <= i < |texts| ==> Intact(texts[i])
  {
    hide Encode; hide Scan; hide Unquoted; hide Trim; hide Intact;
    ScanEncoded(fields);
    forall i | 0 <= i < |fields| ensures Trim(Unquoted(fields[i].text)) == texts[i] <==> Intact(texts[i]) {
      FieldSurvivesIff(texts[i]);
    }
  }
}
