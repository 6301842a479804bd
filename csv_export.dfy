/** The CSV export of app/api/srs/export/route.ts, with a reader for the
    format it writes: the quoting of section 2 of RFC 4180 (every field
    quoted, inner double quotes doubled, rule 7), with records separated by
    LF rather than the CRLF of rule 1. */
module CsvExport {
  import opened Js

  /** A card as the export query returns it; each column may be null. */
  datatype ExportCard = ExportCard(front: Option<string>, back: Option<string>, tags: Option<string>)

  const Header: string := "Front,Back,Tags\n"

  /** `s.replace(/"/g, '""')`. */
  function Escape(s: string): (r: string)
    ensures |r| == |s| + CountChar(s, '"')
  {
    if s == [] then []
    else (if s[0] == '"' then "\"\"" else [s[0]]) + Escape(s[1..])
  }

  /** A field wrapped in double quotes, inner quotes doubled. */
  function Quote(s: string): (r: string)
    ensures |r| >= 2 && r[0] == '"' && r[|r| - 1] == '"'
  {
    "\"" + Escape(s) + "\""
  }

  /** The three exported values of a card: a missing or empty column is "". */
  function Fields(card: ExportCard): (fields: seq<string>)
    ensures |fields| == 3
    ensures fields[0] == OrElse(card.front, "") && fields[1] == OrElse(card.back, "")
      && fields[2] == OrElse(card.tags, "")
  {
    [OrElse(card.front, ""), OrElse(card.back, ""), OrElse(card.tags, "")]
  }

  /** One CSV line: three quoted fields separated by commas. */
  function Row(card: ExportCard): (row: string)
    ensures |row| >= 8 && row[0] == '"' && row[|row| - 1] == '"'
  {
    var f := Fields(card);
    Quote(f[0]) + "," + Quote(f[1]) + "," + Quote(f[2])
  }

  /** `cards.map(...)`: one line per card, in order. */
  function Rows(cards: seq<ExportCard>): (rows: seq<string>)
    ensures |rows| == |cards|
    ensures forall i :: 0 <= i < |cards| ==> rows[i] == Row(cards[i])
  {
    if cards == [] then [] else [Row(cards[0])] + Rows(cards[1..])
  }

  /** The body of the response: header, then the rows joined by line breaks. */
  function ExportCsv(cards: seq<ExportCard>): (csv: string)
    ensures |csv| >= |Header| && csv[..|Header|] == Header
    ensures cards == [] <==> csv == Header
  {
    var body := Join(Rows(cards), "\n");
    assert cards != [] ==> body != [] by {
      if cards != [] {
        JoinedRowsEndInQuote(Rows(cards));
      }
    }
    Header + body
  }

  // ---------------------------------------------------------------------
  // Reading the format back

  /** The value of a quoted field after its opening quote, up to the closing
      quote, with `""` read as one `"`; also the text after the closing quote. */
  function ReadQuoted(s: string): (r: Option<(string, string)>)
    ensures r.Some? ==> |r.value.1| < |s|
  {
    if s == [] then None
    else if s[0] == '"' then
      if |s| >= 2 && s[1] == '"' then
        match ReadQuoted(s[2..])
        case None => None
        case Some((v, rest)) => Some(("\"" + v, rest))
      else Some(([], s[1..]))
    else
      match ReadQuoted(s[1..])
      case None => None
      case Some((v, rest)) => Some(([s[0]] + v, rest))
  }

  function ReadField(s: string): (r: Option<(string, string)>)
    ensures r.Some? ==> |r.value.1| < |s|
  {
    if s != [] && s[0] == '"' then ReadQuoted(s[1..]) else None
  }

  /** Three quoted fields separated by commas; also the text after them. */
  function ReadRecord(s: string): (r: Option<(seq<string>, string)>)
    ensures r.Some? ==> |r.value.1| < |s|
  {
    match ReadField(s)
    case None => None
    case Some((a, r1)) =>
      if r1 == [] || r1[0] != ',' then None
      else match ReadField(r1[1..])
        case None => None
        case Some((b, r2)) =>
          if r2 == [] || r2[0] != ',' then None
          else match ReadField(r2[1..])
            case None => None
            case Some((c, r3)) => Some(([a, b, c], r3))
  }

  /** Records separated by line breaks, with no line break after the last. */
  function ReadRecords(s: string): Option<seq<seq<string>>>
    decreases |s|
  {
    match ReadRecord(s)
    case None => None
    case Some((record, rest)) =>
      if rest == [] then Some([record])
      else if rest[0] != '\n' then None
      else match ReadRecords(rest[1..])
        case None => None
        case Some(records) => Some([record] + records)
  }

  /** The records of an exported file, or None when it is not in that format. */
  function ParseCsv(csv: string): Option<seq<seq<string>>> {
    if |csv| < |Header| || csv[..|Header|] != Header then None
    else if csv[|Header|..] == [] then Some([])
    else ReadRecords(csv[|Header|..])
  }

  /** The field values the export is meant to carry, card by card. */
  function Table(cards: seq<ExportCard>): (t: seq<seq<string>>)
    ensures |t| == |cards|
    ensures forall i :: 0 <= i < |cards| ==> t[i] == Fields(cards[i])
  {
    if cards == [] then [] else [Fields(cards[0])] + Table(cards[1..])
  }

  // ---------------------------------------------------------------------
  // Round trips

  /** Reading an escaped value up to its closing quote gives the value back. */
  lemma ReadQuotedPairStep(t: string, v: string, rest: string)
    requires ReadQuoted(t) == Some((v, rest))
    ensures ReadQuoted("\"\"" + t) == Some(("\"" + v, rest))
  {
    assert ("\"\"" + t)[2..] == t;
  }

  lemma ReadQuotedCharStep(c: char, t: string, v: string, rest: string)
    requires c != '"' && ReadQuoted(t) == Some((v, rest))
    ensures ReadQuoted([c] + t) == Some(([c] + v, rest))
  {
    assert ([c] + t)[1..] == t;
  }

  lemma Regroup(a: string, b: string, c: string, d: string)
    ensures (a + b) + c + d == a + (b + c + d)
  {
  }

  lemma {:induction false} ReadQuotedEscape(x: string, rest: string)
    requires rest == [] || rest[0] != '"'
    ensures ReadQuoted(Escape(x) + "\"" + rest) == Some((x, rest))
  {
    if x == [] {
      assert Escape(x) + "\"" + rest == "\"" + rest;
    } else {
      var t := Escape(x[1..]) + "\"" + rest;
      ReadQuotedEscape(x[1..], rest);
      var head := if x[0] == '"' then "\"\"" else [x[0]];
      Regroup(head, Escape(x[1..]), "\"", rest);
      if x[0] == '"' {
        ReadQuotedPairStep(t, x[1..], rest);
        assert "\"" + x[1..] == x;
      } else {
        ReadQuotedCharStep(x[0], t, x[1..], rest);
        assert [x[0]] + x[1..] == x;
      }
    }
  }

  /** A quoted field reads back as its value, whatever follows that is not a quote. */
  lemma FieldRoundTrip(x: string, rest: string)
    requires rest == [] || rest[0] != '"'
    ensures ReadField(Quote(x) + rest) == Some((x, rest))
  {
    ReadQuotedEscape(x, rest);
    assert (Quote(x) + rest)[1..] == Escape(x) + "\"" + rest;
  }

  lemma RegroupRow(a: string, b: string, c: string, d: string, e: string, r: string)
    ensures a + b + c + d + e + r == a + (b + (c + (d + (e + r))))
  {
  }

  /** A line reads back as the card's three values. */
  lemma RowRoundTrip(card: ExportCard, rest: string)
    requires rest == [] || rest[0] == '\n'
    ensures ReadRecord(Row(card) + rest) == Some((Fields(card), rest))
  {
    var f := Fields(card);
    var tail2 := "," + (Quote(f[2]) + rest);
    var tail1 := "," + (Quote(f[1]) + tail2);
    RegroupRow(Quote(f[0]), ",", Quote(f[1]), ",", Quote(f[2]), rest);
    FieldRoundTrip(f[0], tail1);
    assert tail1[1..] == Quote(f[1]) + tail2;
    FieldRoundTrip(f[1], tail2);
    assert tail2[1..] == Quote(f[2]) + rest;
    FieldRoundTrip(f[2], rest);
  }

  /** A record followed by a line break and further records. */
  lemma ReadRecordsStep(s: string, record: seq<string>, tail: string, records: seq<seq<string>>)
    requires ReadRecord(s) == Some((record, "\n" + tail))
    requires ReadRecords(tail) == Some(records)
    ensures ReadRecords(s) == Some([record] + records)
  {
    assert ("\n" + tail)[1..] == tail;
  }

  lemma {:induction false} RowsRoundTrip(cards: seq<ExportCard>)
    requires cards != []
    ensures ReadRecords(Join(Rows(cards), "\n")) == Some(Table(cards))
  {
    var rows := Rows(cards);
    if |cards| == 1 {
      RowRoundTrip(cards[0], []);
      assert Row(cards[0]) + [] == Row(cards[0]);
      assert Join(rows, "\n") == Row(cards[0]);
      assert Table(cards) == [Fields(cards[0])];
    } else {
      assert rows[1..] == Rows(cards[1..]);
      var tail := Join(rows[1..], "\n");
      RowRoundTrip(cards[0], "\n" + tail);
      assert Join(rows, "\n") == Row(cards[0]) + ("\n" + tail);
      RowsRoundTrip(cards[1..]);
      ReadRecordsStep(Join(rows, "\n"), Fields(cards[0]), tail, Table(cards[1..]));
    }
  }

  /** The exported file reads back as the header and one record per card, in
      input order, each holding the card's front, back and tags ("" when missing). */
  lemma ExportRoundTrip(cards: seq<ExportCard>)
    ensures ParseCsv(ExportCsv(cards)) == Some(Table(cards))
  {
    var csv := ExportCsv(cards);
    assert csv[|Header|..] == Join(Rows(cards), "\n");
    if cards != [] {
      RowsRoundTrip(cards);
    }
  }

  /** Rows joined by line breaks end in the closing quote of the last row:
      there is no trailing line break. */
  lemma {:induction false} JoinedRowsEndInQuote(rows: seq<string>)
    requires rows != []
    requires forall i :: 0 <= i < |rows| ==> |rows[i]| >= 1 && rows[i][|rows[i]| - 1] == '"'
    ensures var j := Join(rows, "\n"); |j| >= 1 && j[|j| - 1] == '"'
  {
    if |rows| > 1 {
      JoinedRowsEndInQuote(rows[1..]);
    }
  }

  /** With at least one card the file ends with the last row's closing quote. */
  lemma NoTrailingNewline(cards: seq<ExportCard>)
    requires cards != []
    ensures var csv := ExportCsv(cards); csv[|csv| - 1] == '"'
  {
    JoinedRowsEndInQuote(Rows(cards));
  }
}
