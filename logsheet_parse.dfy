/**
 * Reading a logsheet back. Not part of the program: it is the partner
 * against which the file `write_logsheet` produces is proved to hold every
 * record, once each and in input order.
 *
 * Because a record ends without a line terminator, the score of one record
 * and the date of the next form a single space-free token; the date is the
 * token's last ten characters, since `%Y-%m-%d` has a fixed width.
 */
module LogsheetReader {
  import opened Options
  import opened Text
  import opened QsoRecord
  import opened LogsheetWriter

  /** The records with their seconds cleared, in the same order. */
  function DropAllSeconds(data: seq<Qso>): (r: seq<Qso>)
    ensures |r| == |data|
    ensures forall k :: 0 <= k < |data| ==> r[k] == DropSeconds(data[k])
  {
    if |data| == 0 then []
    else [DropSeconds(data[0])] + DropAllSeconds(data[1..])
  }

  /** No text field of any record holds a space. */
  predicate AllNoSpace(data: seq<Qso>) {
    forall k :: 0 <= k < |data| ==> NoSpace(data[k])
  }

  /**
   * Reads the records of a body whose first date token is `date` and whose
   * remaining tokens are `rest`: nine field tokens, then either the last
   * score, or a score fused with the next record's date.
   */
  function ParseRun(date: string, rest: seq<string>): Option<seq<Qso>>
    decreases |rest|
  {
    if |rest| < 10 then None
    else if |rest| == 10 then
      match ParseFields([date] + rest)
      case Some(q) => Some([q])
      case None => None
    else
      var fused := rest[9];
      if |fused| <= 10 then None
      else
        match ParseFields([date] + rest[..9] + [fused[..|fused| - 10]])
        case None => None
        case Some(q) =>
          match ParseRun(fused[|fused| - 10..], rest[10..])
          case None => None
          case Some(qs) => Some([q] + qs)
  }

  /** Reads the space-separated tokens between the header and the trailer. */
  function ParseBody(t: seq<string>): Option<seq<Qso>>
    requires |t| >= 1
  {
    if t == [""] then Some([]) else ParseRun(t[0], t[1..])
  }

  /** Reads a whole logsheet file. */
  function ParseLogsheet(s: string): Option<seq<Qso>> {
    if |s| >= |Header| + |Trailer| && s[..|Header|] == Header && s[|s| - |Trailer|..] == Trailer
    then ParseBody(Split(s[|Header|..|s| - |Trailer|], ' '))
    else None
  }

  /** The tokens of a body are the first record's fields fused with the tokens of the rest. */
  lemma SplitRecords(data: seq<Qso>)
    requires |data| >= 1 && NoSpace(data[0])
    ensures Split(Records(data), ' ') == Fuse(Fields(data[0]), Split(Records(data[1..]), ' '))
  {
    SplitConcat(FormatQso(data[0]), Records(data[1..]), ' ');
    SplitFormatQso(data[0]);
  }

  /** A record's eleven tokens, alone, read back as that one record. */
  lemma ParseRunLast(f: seq<string>, q: Qso)
    requires |f| == 11 && ParseFields(f) == Some(q)
    ensures ParseRun(f[0], f[1..]) == Some([q])
  {
    assert [f[0]] + f[1..] == f;
  }

  /** A record's tokens fused with the tokens of a further run read back as that record, then the run. */
  lemma ParseRunFused(f: seq<string>, b: seq<string>, q: Qso, qs: seq<Qso>)
    requires |f| == 11 && ParseFields(f) == Some(q) && |f[10]| >= 1
    requires |b| >= 11 && |b[0]| == 10 && ParseRun(b[0], b[1..]) == Some(qs)
    ensures var t := Fuse(f, b); |t| >= 11 && t[0] == f[0] && ParseRun(t[0], t[1..]) == Some([q] + qs)
  {
    var t := Fuse(f, b);
    var rest := t[1..];
    var fused := rest[9];
    assert fused == f[10] + b[0];
    assert fused[..|fused| - 10] == f[10];
    assert fused[|fused| - 10..] == b[0];
    assert [t[0]] + rest[..9] + [f[10]] == f;
    assert rest[10..] == b[1..];
  }

  /** A body of one record splits into its eleven tokens, which read back as that record. */
  lemma ParseRecordsSingle(q: Qso)
    requires NoSpace(q)
    ensures var t := Split(Records([q]), ' ');
      |t| >= 11 && t[0] == FormatDate(q.datetime) && ParseRun(t[0], t[1..]) == Some([DropSeconds(q)])
  {
    ParseFieldsOfFields(q);
    RecordsSingle(q);
    SplitFormatQso(q);
    ParseRunLast(Fields(q), DropSeconds(q));
  }

  /** The records after the first are free of spaces too. */
  lemma AllNoSpaceTail(data: seq<Qso>)
    requires |data| >= 1 && AllNoSpace(data)
    ensures AllNoSpace(data[1..])
  {
    var more := data[1..];
    forall k | 0 <= k < |more| ensures NoSpace(more[k]) {
      assert more[k] == data[k + 1];
    }
  }

  /** The body of the records splits into tokens that read back as the records, in order. */
  lemma {:induction false} ParseRecords(data: seq<Qso>)
    requires |data| >= 1 && AllNoSpace(data)
    ensures var t := Split(Records(data), ' ');
      |t| >= 11 && t[0] == FormatDate(data[0].datetime) &&
      ParseRun(t[0], t[1..]) == Some(DropAllSeconds(data))
  {
    var q, more := data[0], data[1..];
    assert DropAllSeconds(data) == [DropSeconds(q)] + DropAllSeconds(more);
    if |more| == 0 {
      assert data == [q];
      assert DropAllSeconds(data) == [DropSeconds(q)];
      ParseRecordsSingle(q);
    } else {
      AllNoSpaceTail(data);
      ParseRecords(more);
      SplitRecords(data);
      ParseFieldsOfFields(q);
      ParseRunFused(Fields(q), Split(Records(more), ' '), DropSeconds(q), DropAllSeconds(more));
    }
  }

  /**
   * Round trip of the whole file: reading back what `write_logsheet` writes
   * gives every record, once each and in input order, with its seconds cleared.
   */
  lemma ParseLogsheetRoundTrip(data: seq<Qso>)
    requires AllNoSpace(data)
    ensures ParseLogsheet(Logsheet(data)) == Some(DropAllSeconds(data))
  {
    var s := Logsheet(data);
    assert s[|Header|..|s| - |Trailer|] == Records(data);
    if |data| == 0 {
      assert Records(data) == "";
    } else {
      ParseRecords(data);
    }
  }

  /**
   * Two logsheets are the same text only if they were written from the same
   * records, in the same order, up to seconds: nothing is skipped, repeated
   * or reordered.
   */
  lemma LogsheetInjective(a: seq<Qso>, b: seq<Qso>)
    requires AllNoSpace(a) && AllNoSpace(b) && Logsheet(a) == Logsheet(b)
    ensures |a| == |b|
    ensures forall k :: 0 <= k < |a| ==> DropSeconds(a[k]) == DropSeconds(b[k])
  {
    ParseLogsheetRoundTrip(a);
    ParseLogsheetRoundTrip(b);
  }
}
