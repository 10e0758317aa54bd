/**
 * The part of `parse_html_for_shanty_types` that works on the text of the
 * index: which `h3` headings name a shanty type, the type name, and the
 * name and number taken from each linked row of the table after a type
 * heading. The HTML tree is replaced by the sequence of headings, each with
 * the rows of the table that follows it.
 */
module ShantyIndex {
  import opened Wrappers
  import opened Text
  import opened ShantyNames
  import opened OrderedDicts
  import opened ShantyMatching

  /** A `td` cell: its text and, when it holds an `a` element, that link's text. */
  datatype Cell = Cell(text: string, link: Option<string>)

  /** A `tr` row and its `td` cells. */
  datatype Row = Row(cells: seq<Cell>)

  /** An `h3` heading: its text and the rows of the table found after it, if any. */
  datatype Heading = Heading(text: string, table: Option<seq<Row>>)

  /** A linked row whose first cell has no token: the row on which `split()[0]` raises IndexError. */
  predicate BlankNumber(row: Row)
  {
    |row.cells| > 0 && row.cells[0].link.Some? && AllSpace(row.cells[0].text)
  }

  /** A type heading with a table that holds a row with a blank number. */
  predicate FailingHeading(h: Heading)
  {
    IsTypeHeading(Strip(h.text)) && h.table.Some? && exists r :: r in h.table.value && BlankNumber(r)
  }

  /**
   * One row of a type heading's table. A row whose first cell holds a link
   * records the stripped link text with the type and the cell's first token;
   * None when that token does not exist.
   */
  function AddRow(d: Dict<ShantyInfo>, shantyType: string, row: Row): Option<Dict<ShantyInfo>>
  {
    if |row.cells| == 0 || row.cells[0].link.None? then Some(d)
    else
      match FirstToken(Strip(row.cells[0].text))
      case None => None
      case Some(number) => Some(Put(d, Strip(row.cells[0].link.value), ShantyInfo(shantyType, number)))
  }

  /** The rows of one table, in order; the first failing row aborts the whole parse. */
  function AddRows(d: Dict<ShantyInfo>, shantyType: string, rows: seq<Row>): Option<Dict<ShantyInfo>>
    decreases |rows|
  {
    if rows == [] then Some(d)
    else
      match AddRow(d, shantyType, rows[0])
      case None => None
      case Some(next) => AddRows(next, shantyType, rows[1..])
  }

  /** One heading: only a type heading's table is read, under the heading's cleaned type name. */
  function AddHeading(d: Dict<ShantyInfo>, h: Heading): Option<Dict<ShantyInfo>>
  {
    var text := Strip(h.text);
    if IsTypeHeading(text) && h.table.Some? then AddRows(d, CleanTypeName(text), h.table.value)
    else Some(d)
  }

  /** The headings from d on, in document order. */
  function AddHeadings(d: Dict<ShantyInfo>, hs: seq<Heading>): Option<Dict<ShantyInfo>>
    decreases |hs|
  {
    if hs == [] then Some(d)
    else
      match AddHeading(d, hs[0])
      case None => None
      case Some(next) => AddHeadings(next, hs[1..])
  }

  /** `parse_html_for_shanty_types`, from the headings on: None where the source raises IndexError. */
  function ParseShantyTypes(hs: seq<Heading>): Option<Dict<ShantyInfo>>
  {
    AddHeadings([], hs)
  }

  // ---------------------------------------------------------------------
  // What every entry looks like
  // ---------------------------------------------------------------------

  /** A recorded entry: a trimmed name, a type name without colons or outer whitespace, a one-token number. */
  predicate ValidEntry(p: (string, ShantyInfo))
  {
    && Trimmed(p.0)
    && NoColon(p.1.shantyType) && Trimmed(p.1.shantyType)
    && p.1.number != [] && NoSpace(p.1.number)
  }

  predicate ValidIndex(d: Dict<ShantyInfo>)
  {
    DistinctKeys(d) && forall i :: 0 <= i < |d| ==> ValidEntry(d[i])
  }

  lemma PutKeepsValid(d: Dict<ShantyInfo>, k: string, v: ShantyInfo)
    requires ValidIndex(d) && ValidEntry((k, v))
    ensures ValidIndex(Put(d, k, v))
  {
    PutSemantics(d, k, v, k);
  }

  lemma AddRowKeepsValid(d: Dict<ShantyInfo>, shantyType: string, row: Row)
    requires ValidIndex(d) && NoColon(shantyType) && Trimmed(shantyType)
    ensures AddRow(d, shantyType, row).Some? ==> ValidIndex(AddRow(d, shantyType, row).value)
  {
    if |row.cells| > 0 && row.cells[0].link.Some? {
      var tok := FirstToken(Strip(row.cells[0].text));
      if tok.Some? {
        TokenIsField(Strip(row.cells[0].text));
        StripIsCore(row.cells[0].link.value);
        PutKeepsValid(d, Strip(row.cells[0].link.value), ShantyInfo(shantyType, tok.value));
      }
    }
  }

  lemma {:induction false} AddRowsKeepsValid(d: Dict<ShantyInfo>, shantyType: string, rows: seq<Row>)
    requires ValidIndex(d) && NoColon(shantyType) && Trimmed(shantyType)
    ensures AddRows(d, shantyType, rows).Some? ==> ValidIndex(AddRows(d, shantyType, rows).value)
    decreases |rows|
  {
    if rows != [] {
      AddRowKeepsValid(d, shantyType, rows[0]);
      var next := AddRow(d, shantyType, rows[0]);
      if next.Some? {
        AddRowsKeepsValid(next.value, shantyType, rows[1..]);
      }
    }
  }

  lemma {:induction false} AddHeadingsKeepsValid(d: Dict<ShantyInfo>, hs: seq<Heading>)
    requires ValidIndex(d)
    ensures AddHeadings(d, hs).Some? ==> ValidIndex(AddHeadings(d, hs).value)
    decreases |hs|
  {
    if hs != [] {
      var text := Strip(hs[0].text);
      if IsTypeHeading(text) && hs[0].table.Some? {
        CleanTypeNameIsClean(text);
        AddRowsKeepsValid(d, CleanTypeName(text), hs[0].table.value);
      }
      var next := AddHeading(d, hs[0]);
      if next.Some? {
        AddHeadingsKeepsValid(next.value, hs[1..]);
      }
    }
  }

  /**
   * Every recorded shanty has a trimmed name, distinct from every other
   * recorded name; a type name without colons or surrounding whitespace;
   * and a number that is a single non-empty token.
   */
  lemma ParsedEntriesAreValid(hs: seq<Heading>)
    ensures ParseShantyTypes(hs).Some? ==> ValidIndex(ParseShantyTypes(hs).value)
  {
    AddHeadingsKeepsValid([], hs);
  }

  // ---------------------------------------------------------------------
  // When the parse fails
  // ---------------------------------------------------------------------

  lemma RowFails(d: Dict<ShantyInfo>, shantyType: string, row: Row)
    ensures AddRow(d, shantyType, row).None? <==> BlankNumber(row)
  {
    if |row.cells| > 0 && row.cells[0].link.Some? {
      FirstTokenIsFirstField(row.cells[0].text);
      NoTokenIffBlank(Strip(row.cells[0].text));
    }
  }

  lemma {:induction false} RowsFail(d: Dict<ShantyInfo>, shantyType: string, rows: seq<Row>)
    ensures AddRows(d, shantyType, rows).None? <==> exists r :: r in rows && BlankNumber(r)
    decreases |rows|
  {
    if rows != [] {
      RowFails(d, shantyType, rows[0]);
      var next := AddRow(d, shantyType, rows[0]);
      if next.Some? {
        RowsFail(next.value, shantyType, rows[1..]);
        assert forall r :: r in rows <==> r == rows[0] || r in rows[1..];
      }
    }
  }

  lemma HeadingFails(d: Dict<ShantyInfo>, h: Heading)
    ensures AddHeading(d, h).None? <==> FailingHeading(h)
  {
    var text := Strip(h.text);
    if IsTypeHeading(text) && h.table.Some? {
      RowsFail(d, CleanTypeName(text), h.table.value);
    }
  }

  lemma {:induction false} HeadingsFail(d: Dict<ShantyInfo>, hs: seq<Heading>)
    ensures AddHeadings(d, hs).None? <==> exists h :: h in hs && FailingHeading(h)
    decreases |hs|
  {
    if hs != [] {
      HeadingFails(d, hs[0]);
      var next := AddHeading(d, hs[0]);
      if next.Some? {
        HeadingsFail(next.value, hs[1..]);
        assert forall g :: g in hs <==> g == hs[0] || g in hs[1..];
      }
    }
  }

  /**
   * The parse fails exactly when some type heading's table has a linked
   * row whose first cell is blank; rows under other headings are never
   * read.
   */
  lemma ParseFailsIffBlankNumber(hs: seq<Heading>)
    ensures ParseShantyTypes(hs).None? <==> exists h :: h in hs && FailingHeading(h)
  {
    HeadingsFail([], hs);
  }
}
