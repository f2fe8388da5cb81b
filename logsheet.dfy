/**
 * The logsheet file (`write_logsheet`, `_append_to_logsheet`): a header,
 * every record's rendering in input order, and a trailer, written into a
 * file that is first truncated.
 *
 * The file is an object holding the text written so far; creating it
 * empties it, and each write appends to it.
 */
module LogsheetWriter {
  import opened QsoRecord
  import opened Text
  import opened Decimal
  import opened Seqs

  const Header: string := "<LOGSHEET TYPE=ylog>\n"
  const Trailer: string := "\n</LOGSHEET>\n"

  /** The renderings of the records, concatenated in order with nothing in between. */
  function Records(data: seq<Qso>): string {
    if |data| == 0 then "" else FormatQso(data[0]) + Records(data[1..])
  }

  /** The whole file `write_logsheet` leaves behind: it starts with the header and ends with the trailer. */
  function Logsheet(data: seq<Qso>): (r: string)
    ensures |r| >= |Header| + |Trailer|
    ensures r[..|Header|] == Header && r[|r| - |Trailer|..] == Trailer
  {
    Wrapped(Records(data))
  }

  /** A body between the header and the trailer. */
  function Wrapped(body: string): (r: string)
    ensures |r| == |Header| + |body| + |Trailer|
    ensures r[..|Header|] == Header && r[|r| - |Trailer|..] == Trailer
    ensures r[|Header|..|r| - |Trailer|] == body
  {
    var r := Header + body + Trailer;
    assert r[..|Header|] == Header;
    assert r[|r| - |Trailer|..] == Trailer;
    assert r[|Header|..|r| - |Trailer|] == body;
    r
  }

  /** Writing one more record extends the body by that record's rendering. */
  lemma {:induction false} RecordsAppend(data: seq<Qso>, q: Qso)
    ensures Records(data + [q]) == Records(data) + FormatQso(q)
  {
    SnocHeadTail(data, q);
    if |data| == 0 {
      RecordsSingle(q);
    } else {
      RecordsAppend(data[1..], q);
      Regroup(FormatQso(data[0]), Records(data[1..]), FormatQso(q), Records(data), Records(data[1..] + [q]));
    }
  }

  /** The loop step of `write_logsheet`: after the header and `i` records, the next record's rendering follows. */
  lemma HeaderAndRecordsStep(data: seq<Qso>, i: nat, content: string)
    requires i < |data| && content == Header + Records(data[..i])
    ensures content + FormatQso(data[i]) == Header + Records(data[..i + 1])
  {
    TakeNext(data, i);
    RecordsAppend(data[..i], data[i]);
    AppendToBody(content, Header, Records(data[..i]), FormatQso(data[i]), Records(data[..i + 1]));
  }

  /** The file on disk (`logsheet.txt`): the text written to it so far. */
  class LogFile {
    var content: string

    /** A file object that holds nothing yet. */
    constructor ()
      ensures content == []
    {
      content := [];
    }

    /** `File::create`: creates the file, or truncates it when it already exists. */
    method Create()
      modifies this
      ensures content == []
    {
      content := [];
    }

    /** Writes `data` at the end of the file. */
    method Write(data: string)
      modifies this
      ensures content == old(content) + data
    {
      content := content + data;
    }
  }

  /** `_append_to_logsheet`: writes a piece of text at the end of the logsheet. */
  method AppendToLogsheet(file: LogFile, data: string)
    modifies file
    ensures file.content == old(file.content) + data
  {
    file.Write(data);
  }

  /**
   * `write_logsheet`: truncates the file, then writes the header, each
   * record's rendering in order and the trailer. What was in the file
   * before plays no part in what is there afterwards.
   */
  method WriteLogsheet(file: LogFile, data: seq<Qso>)
    modifies file
    ensures file.content == Logsheet(data)
  {
    file.Create();
    AppendToLogsheet(file, Header);
    for i := 0 to |data|
      invariant file.content == Header + Records(data[..i])
    {
      HeaderAndRecordsStep(data, i, file.content);
      AppendToLogsheet(file, FormatQso(data[i]));
    }
    TakeAll(data);
    AppendToLogsheet(file, Trailer);
  }

  /**
   * Two submissions in a row, as the Submit button makes them: the second
   * call replaces the first logsheet instead of extending it.
   */
  method SubmitTwice(file: LogFile, first: seq<Qso>, second: seq<Qso>)
    modifies file
    ensures file.content == Logsheet(second)
  {
    WriteLogsheet(file, first);
    WriteLogsheet(file, second);
  }

  /** Every text field of every record is free of line breaks. */
  predicate AllNoNewline(data: seq<Qso>) {
    forall k :: 0 <= k < |data| ==> NoNewline(data[k])
  }

  /** The body adds no line break of its own. */
  lemma {:induction false} RecordsNoNewline(data: seq<Qso>)
    requires AllNoNewline(data)
    ensures '\n' !in Records(data)
  {
    if |data| > 0 {
      FormatQsoNoNewline(data[0]);
      RecordsNoNewline(data[1..]);
    }
  }

  /** Around a body without line breaks, the header's and the trailer's are the only ones. */
  lemma WrappedNewlines(body: string)
    requires '\n' !in body
    ensures var r := Wrapped(body);
      forall i :: 0 <= i < |r| ==>
        (r[i] == '\n' <==> i == |Header| - 1 || i == |r| - |Trailer| || i == |r| - 1)
  {
    var r := Wrapped(body);
    assert r == Header + body + Trailer;
    forall i | 0 <= i < |r|
      ensures r[i] == '\n' <==> i == |Header| - 1 || i == |r| - |Trailer| || i == |r| - 1
    {
      if i < |Header| {
        assert r[i] == Header[i];
      } else if i < |Header| + |body| {
        assert r[i] == body[i - |Header|];
      } else {
        assert r[i] == Trailer[i - |Header| - |body|];
      }
    }
  }

  /**
   * The only line breaks in the file are the header's and the trailer's
   * two: records are not separated by line breaks.
   */
  lemma LogsheetNewlines(data: seq<Qso>)
    requires AllNoNewline(data)
    ensures var r := Logsheet(data);
      forall i :: 0 <= i < |r| ==>
        (r[i] == '\n' <==> i == |Header| - 1 || i == |r| - |Trailer| || i == |r| - 1)
  {
    RecordsNoNewline(data);
    WrappedNewlines(Records(data));
  }

  /** A single record's body is its rendering. */
  lemma RecordsSingle(q: Qso)
    ensures Records([q]) == FormatQso(q)
  {
    Single([q]);
    AppendEmpty(FormatQso(q));
  }

  /**
   * The program's test writes its one record between the header and the
   * trailer, stamped with whatever instant it was built at.
   */
  lemma SampleLogsheet(t: DateTime)
    ensures Logsheet([SampleQso(t)]) ==
      Header + FormatDate(t) + " " + FormatTime(t) + SampleRest + Trailer
  {
    SampleFormat(t);
    RecordsSingle(SampleQso(t));
  }

  /**
   * With no line terminator after a record, two records share one line:
   * split on spaces it has 21 tokens, not 22, because the first record's
   * score and the second one's date fuse into one token.
   */
  lemma SplitTwoRecords(a: Qso, b: Qso)
    requires NoSpace(a) && NoSpace(b)
    ensures var t := Split(Records([a, b]), ' ');
      |t| == 21 && t[..10] == Fields(a)[..10] &&
      t[10] == FormatInt(a.score) + FormatDate(b.datetime) && t[11..] == Fields(b)[1..]
  {
    RecordsSingle(b);
    PairTail(a, b);
    assert Records([a, b]) == FormatQso(a) + FormatQso(b);
    SplitConcat(FormatQso(a), FormatQso(b), ' ');
    SplitFormatQso(a);
    SplitFormatQso(b);
    FuseParts(Fields(a), Fields(b));
  }

  /** The score 2 written straight before the date 2023-10-08. */
  lemma SampleScoreThenDate(score: int, date: string)
    requires score == 2 && date == "2023-10-08"
    ensures FormatInt(score) + date == "22023-10-08"
  {
    assert FormatInt(score) == "2";
  }

  /**
   * A record with score 2 (the test record's score) followed by one dated
   * 2023-10-08 gives the fused token `22023-10-08`.
   */
  lemma SampleRecordsRunTogether(a: Qso, b: Qso)
    requires NoSpace(a) && NoSpace(b) && a.score == 2
    requires b.datetime.year == 2023 && b.datetime.month == 10 && b.datetime.day == 8
    ensures var t := Split(Records([a, b]), ' ');
      |t| == 21 && t[10] == "22023-10-08"
  {
    SplitTwoRecords(a, b);
    SampleDate(b.datetime);
    SampleScoreThenDate(a.score, FormatDate(b.datetime));
  }
}
