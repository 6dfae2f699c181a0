/**
 * The corpus reader's record of one line of a relation file: a pair of entity
 * mentions ("two tokens") with their columns, and, for a gold file, the relation
 * tag written in front of them.
 *
 * The constructor reads thirteen columns. A line too short for it raises an
 * index error in the program; here it yields `None`.
 */
module CorpusReader {
  import opened Wrappers

  /** Number of columns a mention line carries after any gold tag. */
  const ColumnCount := 13

  datatype TwoTokens = TwoTokens(
    splitLine: seq<string>,
    tag: Option<string>,
    docNum: string,
    column3: string,
    column4: string,
    column5: string,
    entityType1: string,
    column7: string,
    token1: string,
    column9: string,
    column10: string,
    column11: string,
    entityType2: string,
    column13: string,
    token2: string)
  {
    /** The thirteen columns the record was read from, in file order. */
    function Columns(): (cols: seq<string>)
      ensures |cols| == ColumnCount
      ensures cols[0] == docNum && cols[6] == token1 && cols[12] == token2
    {
      [docNum, column3, column4, column5, entityType1, column7, token1,
       column9, column10, column11, entityType2, column13, token2]
    }
  }

  /** The record whose thirteen columns are the first thirteen entries of `cols`. */
  function FromColumns(splitLine: seq<string>, tag: Option<string>, cols: seq<string>): (tt: TwoTokens)
    requires |cols| >= ColumnCount
    ensures tt.splitLine == splitLine && tt.tag == tag
    ensures tt.Columns() == cols[..ColumnCount]
  {
    TwoTokens(splitLine, tag, cols[0], cols[1], cols[2], cols[3], cols[4], cols[5],
              cols[6], cols[7], cols[8], cols[9], cols[10], cols[11], cols[12])
  }

  /**
   * The constructor as the program has it: for a gold line the tag is taken from
   * the first entry and the stored line loses it, but the columns are read from
   * the line as it was given, tag included.
   */
  function NewTwoTokensAsWritten(splitLine: seq<string>, readingGoldFile: bool): (r: Option<TwoTokens>)
    ensures r.Some? <==> |splitLine| >= ColumnCount
    ensures r.Some? ==> r.value.Columns() == splitLine[..ColumnCount]
    ensures r.Some? && readingGoldFile ==>
              r.value.tag == Some(splitLine[0]) && r.value.splitLine == splitLine[1..]
    ensures r.Some? && !readingGoldFile ==> r.value.tag.None? && r.value.splitLine == splitLine
  {
    if |splitLine| < ColumnCount then None
    else if readingGoldFile then Some(FromColumns(splitLine[1..], Some(splitLine[0]), splitLine))
    else Some(FromColumns(splitLine, None, splitLine))
  }

  /** As written, a gold record's document number is its relation tag. */
  lemma AsWrittenGoldDocNumIsTag(splitLine: seq<string>)
    requires NewTwoTokensAsWritten(splitLine, true).Some?
    ensures NewTwoTokensAsWritten(splitLine, true).value.tag == Some(NewTwoTokensAsWritten(splitLine, true).value.docNum)
  {
  }

  /** On a concrete gold line every column is shifted by one: the document number is
      the tag and the first token is the mention's identifier column. */
  lemma AsWrittenMisreadsGoldLine()
    ensures var line := ["rel.employs", "doc1", "0", "0", "1", "PER", "e1", "John",
                         "0", "2", "3", "ORG", "e2", "Acme"];
            var tt := NewTwoTokensAsWritten(line, true).value;
            tt.docNum == "rel.employs" && tt.token1 == "e1" && tt.token2 == "e2" &&
            tt.Columns() != tt.splitLine[..ColumnCount]
  {
    var line := ["rel.employs", "doc1", "0", "0", "1", "PER", "e1", "John",
                 "0", "2", "3", "ORG", "e2", "Acme"];
    var tt := NewTwoTokensAsWritten(line, true).value;
    assert tt.Columns()[0] == "rel.employs" != "doc1" == tt.splitLine[0];
  }

  /**
   * The constructor as evidently intended: the columns are read from the line
   * after the gold tag has been removed. An empty gold line has no tag to take.
   */
  function NewTwoTokens(splitLine: seq<string>, readingGoldFile: bool): (r: Option<TwoTokens>)
    ensures readingGoldFile ==> (r.Some? <==> |splitLine| >= ColumnCount + 1)
    ensures !readingGoldFile ==> (r.Some? <==> |splitLine| >= ColumnCount)
    ensures r.Some? ==> |r.value.splitLine| >= ColumnCount && r.value.Columns() == r.value.splitLine[..ColumnCount]
    ensures r.Some? && readingGoldFile ==>
              r.value.tag == Some(splitLine[0]) && r.value.splitLine == splitLine[1..]
    ensures r.Some? && !readingGoldFile ==> r.value.tag.None? && r.value.splitLine == splitLine
  {
    if readingGoldFile then
      if |splitLine| < ColumnCount + 1 then None
      else Some(FromColumns(splitLine[1..], Some(splitLine[0]), splitLine[1..]))
    else if |splitLine| < ColumnCount then None
    else Some(FromColumns(splitLine, None, splitLine))
  }

  /** A gold line is its tag followed by a plain line: reading it gives the plain
      record with the tag added. */
  lemma GoldLineIsTaggedPlainLine(tag: string, fields: seq<string>)
    ensures NewTwoTokens([tag] + fields, true).Some? <==> NewTwoTokens(fields, false).Some?
    ensures NewTwoTokens(fields, false).Some? ==>
              NewTwoTokens([tag] + fields, true).value == NewTwoTokens(fields, false).value.(tag := Some(tag))
  {
    assert ([tag] + fields)[1..] == fields;
  }

  /** Reading a line of exactly thirteen columns and listing the columns gives the line back. */
  lemma ColumnsRoundTrip(splitLine: seq<string>)
    requires |splitLine| == ColumnCount
    ensures NewTwoTokens(splitLine, false).Some?
    ensures NewTwoTokens(splitLine, false).value.Columns() == splitLine
  {
  }

  /** The corrected reading and the program's agree exactly on non-gold lines. */
  lemma CorrectedAgreesOffGold(splitLine: seq<string>)
    ensures NewTwoTokens(splitLine, false) == NewTwoTokensAsWritten(splitLine, false)
  {
  }
}
