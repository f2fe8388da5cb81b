/**
 * The contact record (`struct QSO`) and its one-line rendering (`format_qso`).
 *
 * The timestamp is chrono's `DateTime<Utc>`, here only the broken-down
 * fields that the rendering reads. The parsers below are not part of the
 * program: they are the partner against which the rendering is proved
 * to lose nothing but the seconds.
 */
module QsoRecord {
  import opened Options
  import opened Decimal
  import opened Text

  type Year = y: int | 0 <= y <= 9999
  type Month = m: int | 1 <= m <= 12 witness 1
  type Day = d: int | 1 <= d <= 31 witness 1
  type Hour = h: int | 0 <= h <= 23
  type Minute = m: int | 0 <= m <= 59
  type Second = s: int | 0 <= s <= 59

  /** Rust's `i32`: the score carries no further range check. */
  type I32 = x: int | -0x8000_0000 <= x <= 0x7fff_ffff

  /** A UTC timestamp with second precision. */
  datatype DateTime = DateTime(year: Year, month: Month, day: Day, hour: Hour, minute: Minute, second: Second)

  /** One logged contact; the eight text fields are passed through verbatim. */
  datatype Qso = Qso(
    datetime: DateTime,
    band: string,
    mode: string,
    callsign: string,
    sentRst: string,
    sentNum: string,
    recvRst: string,
    recvNum: string,
    multi: string,
    score: I32)

  /** chrono's `%Y-%m-%d`: a zero-padded four-digit year, two-digit month and day. */
  function FormatDate(t: DateTime): (r: string)
    ensures |r| == 10 && r[4] == '-' && r[7] == '-'
    ensures AllDigits(r[..4]) && Value(r[..4]) == t.year
    ensures AllDigits(r[5..7]) && Value(r[5..7]) == t.month
    ensures AllDigits(r[8..]) && Value(r[8..]) == t.day
  {
    assert Pow10(4) == 10000 && Pow10(2) == 100;
    var y, m, d := Padded(t.year, 4), Padded(t.month, 2), Padded(t.day, 2);
    var r := y + "-" + m + "-" + d;
    assert r[..4] == y && r[5..7] == m && r[8..] == d;
    r
  }

  /** chrono's `%H:%M`: zero-padded hour and minute; the seconds are not shown. */
  function FormatTime(t: DateTime): (r: string)
    ensures |r| == 5 && r[2] == ':'
    ensures AllDigits(r[..2]) && Value(r[..2]) == t.hour
    ensures AllDigits(r[3..]) && Value(r[3..]) == t.minute
  {
    assert Pow10(2) == 100;
    var h, m := Padded(t.hour, 2), Padded(t.minute, 2);
    var r := h + ":" + m;
    assert r[..2] == h && r[3..] == m;
    r
  }

  /** The eleven values `format_qso` interpolates, in the order of its format string. */
  function Fields(q: Qso): seq<string> {
    [FormatDate(q.datetime), FormatTime(q.datetime),
     q.band, q.mode, q.callsign, q.sentRst, q.sentNum, q.recvRst, q.recvNum, q.multi,
     FormatInt(q.score)]
  }

  /** `format_qso`: eleven fields separated by single spaces, with no line terminator. */
  function FormatQso(q: Qso): string {
    FormatDate(q.datetime) + " " + FormatTime(q.datetime) + " " +
    q.band + " " + q.mode + " " + q.callsign + " " +
    q.sentRst + " " + q.sentNum + " " + q.recvRst + " " + q.recvNum + " " +
    q.multi + " " + FormatInt(q.score)
  }

  /** The record with its seconds cleared: all that the rendering keeps of the timestamp. */
  function DropSeconds(q: Qso): Qso {
    q.(datetime := q.datetime.(second := 0))
  }

  /** No text field holds a space, so each stays one token of the line. */
  predicate NoSpace(q: Qso) {
    ' ' !in q.band && ' ' !in q.mode && ' ' !in q.callsign &&
    ' ' !in q.sentRst && ' ' !in q.sentNum && ' ' !in q.recvRst && ' ' !in q.recvNum &&
    ' ' !in q.multi
  }

  /** No text field holds a line break. */
  predicate NoNewline(q: Qso) {
    '\n' !in q.band && '\n' !in q.mode && '\n' !in q.callsign &&
    '\n' !in q.sentRst && '\n' !in q.sentNum && '\n' !in q.recvRst && '\n' !in q.recvNum &&
    '\n' !in q.multi
  }

  /** Reads a `YYYY-MM-DD` token. */
  function ParseDate(s: string): Option<(Year, Month, Day)> {
    if |s| == 10 && s[4] == '-' && s[7] == '-' &&
       AllDigits(s[..4]) && AllDigits(s[5..7]) && AllDigits(s[8..])
    then
      var y, m, d := Value(s[..4]), Value(s[5..7]), Value(s[8..]);
      if y <= 9999 && 1 <= m <= 12 && 1 <= d <= 31 then Some((y, m, d)) else None
    else None
  }

  /** Reads an `HH:MM` token. */
  function ParseTime(s: string): Option<(Hour, Minute)> {
    if |s| == 5 && s[2] == ':' && AllDigits(s[..2]) && AllDigits(s[3..]) then
      var h, m := Value(s[..2]), Value(s[3..]);
      if h <= 23 && m <= 59 then Some((h, m)) else None
    else None
  }

  /** Reads a decimal token that fits in an `i32`. */
  function ParseScore(s: string): Option<I32> {
    match ParseInt(s)
    case Some(v) => if -0x8000_0000 <= v <= 0x7fff_ffff then Some(v) else None
    case None => None
  }

  /** Rebuilds a record from its eleven tokens; the seconds read as zero. */
  function ParseFields(t: seq<string>): Option<Qso>
    requires |t| == 11
  {
    match (ParseDate(t[0]), ParseTime(t[1]), ParseScore(t[10]))
    case (Some(d), Some(hm), Some(score)) =>
      Some(Qso(DateTime(d.0, d.1, d.2, hm.0, hm.1, 0), t[2], t[3], t[4], t[5], t[6], t[7], t[8], t[9], score))
    case _ => None
  }

  /** Reads one rendered record back. */
  function ParseQso(line: string): Option<Qso> {
    var t := Split(line, ' ');
    if |t| == 11 then ParseFields(t) else None
  }

  /** Moving one field across a separator: `(p + " " + x) + " " + rest == p + " " + (x + " " + rest)`. */
  lemma ShiftField(p: string, x: string, rest: string)
    ensures p + " " + x + " " + rest == p + " " + (x + " " + rest)
  {
  }

  /** `Join` peels off its first part. */
  lemma JoinFirst(parts: seq<string>)
    requires |parts| >= 2
    ensures Join(parts, ' ') == parts[0] + " " + Join(parts[1..], ' ')
  {
  }

  /** The rendering is exactly the eleven fields joined by single spaces, in their fixed order. */
  lemma FormatQsoIsJoin(q: Qso)
    ensures FormatQso(q) == Join(Fields(q), ' ')
  {
    var f := Fields(q);
    assert Join(f[10..], ' ') == f[10];
    var prefix := FormatDate(q.datetime) + " " + FormatTime(q.datetime) + " " +
      q.band + " " + q.mode + " " + q.callsign + " " +
      q.sentRst + " " + q.sentNum + " " + q.recvRst + " " + q.recvNum;
    // Each step moves the last field of the prefix into the joined suffix.
    JoinFirst(f[9..]);
    assert f[9..][1..] == f[10..];
    ShiftField(prefix, q.multi, f[10]);
    assert FormatQso(q) == prefix + " " + Join(f[9..], ' ');
    var p8 := FormatDate(q.datetime) + " " + FormatTime(q.datetime) + " " +
      q.band + " " + q.mode + " " + q.callsign + " " +
      q.sentRst + " " + q.sentNum + " " + q.recvRst;
    JoinFirst(f[8..]);
    assert f[8..][1..] == f[9..];
    ShiftField(p8, q.recvNum, Join(f[9..], ' '));
    var p7 := FormatDate(q.datetime) + " " + FormatTime(q.datetime) + " " +
      q.band + " " + q.mode + " " + q.callsign + " " + q.sentRst + " " + q.sentNum;
    JoinFirst(f[7..]);
    assert f[7..][1..] == f[8..];
    ShiftField(p7, q.recvRst, Join(f[8..], ' '));
    var p6 := FormatDate(q.datetime) + " " + FormatTime(q.datetime) + " " +
      q.band + " " + q.mode + " " + q.callsign + " " + q.sentRst;
    JoinFirst(f[6..]);
    assert f[6..][1..] == f[7..];
    ShiftField(p6, q.sentNum, Join(f[7..], ' '));
    var p5 := FormatDate(q.datetime) + " " + FormatTime(q.datetime) + " " +
      q.band + " " + q.mode + " " + q.callsign;
    JoinFirst(f[5..]);
    assert f[5..][1..] == f[6..];
    ShiftField(p5, q.sentRst, Join(f[6..], ' '));
    var p4 := FormatDate(q.datetime) + " " + FormatTime(q.datetime) + " " + q.band + " " + q.mode;
    JoinFirst(f[4..]);
    assert f[4..][1..] == f[5..];
    ShiftField(p4, q.callsign, Join(f[5..], ' '));
    var p3 := FormatDate(q.datetime) + " " + FormatTime(q.datetime) + " " + q.band;
    JoinFirst(f[3..]);
    assert f[3..][1..] == f[4..];
    ShiftField(p3, q.mode, Join(f[4..], ' '));
    var p2 := FormatDate(q.datetime) + " " + FormatTime(q.datetime);
    JoinFirst(f[2..]);
    assert f[2..][1..] == f[3..];
    ShiftField(p2, q.band, Join(f[3..], ' '));
    JoinFirst(f[1..]);
    assert f[1..][1..] == f[2..];
    ShiftField(f[0], f[1], Join(f[2..], ' '));
    JoinFirst(f);
  }

  /** The date, time and score tokens never hold a space or a line break. */
  lemma RenderedTokenChars(q: Qso, c: char)
    requires !IsDigit(c) && c != '-' && c != ':'
    ensures c !in FormatDate(q.datetime) && c !in FormatTime(q.datetime) && c !in FormatInt(q.score)
  {
    var d, t, s := FormatDate(q.datetime), FormatTime(q.datetime), FormatInt(q.score);
    forall k | 0 <= k < 10 ensures d[k] != c {
      if k < 4 { assert d[k] == d[..4][k]; }
      else if 4 < k < 7 { assert d[k] == d[5..7][k - 5]; }
      else if k > 7 { assert d[k] == d[8..][k - 8]; }
    }
    forall k | 0 <= k < 5 ensures t[k] != c {
      if k < 2 { assert t[k] == t[..2][k]; }
      else if k > 2 { assert t[k] == t[3..][k - 3]; }
    }
    forall k | 0 <= k < |s| ensures s[k] != c {
      FormatIntChars(q.score, k);
    }
  }

  /**
   * Splitting the line on spaces gives back exactly the eleven fields, in
   * order, when no text field contains a space.
   */
  lemma SplitFormatQso(q: Qso)
    requires NoSpace(q)
    ensures Split(FormatQso(q), ' ') == Fields(q)
  {
    RenderedTokenChars(q, ' ');
    FormatQsoIsJoin(q);
    SplitJoin(Fields(q), ' ');
  }

  /** The date and time tokens read back as the timestamp without its seconds, the score token as the score. */
  lemma ParseFieldsOfFields(q: Qso)
    ensures ParseFields(Fields(q)) == Some(DropSeconds(q))
  {
    var t := q.datetime;
    assert ParseDate(FormatDate(t)) == Some((t.year, t.month, t.day));
    assert ParseTime(FormatTime(t)) == Some((t.hour, t.minute));
    ParseFormatInt(q.score);
    assert ParseScore(FormatInt(q.score)) == Some(q.score);
  }

  /** Round trip: reading the line back recovers the record, except its seconds. */
  lemma ParseFormatQso(q: Qso)
    requires NoSpace(q)
    ensures ParseQso(FormatQso(q)) == Some(DropSeconds(q))
  {
    SplitFormatQso(q);
    ParseFieldsOfFields(q);
  }

  /** Two records render alike only when they differ at most in their seconds. */
  lemma FormatQsoInjective(a: Qso, b: Qso)
    requires NoSpace(a) && NoSpace(b) && FormatQso(a) == FormatQso(b)
    ensures DropSeconds(a) == DropSeconds(b)
  {
    ParseFormatQso(a);
    ParseFormatQso(b);
  }

  /** The rendering adds no line break: a record contains one only if a text field does. */
  lemma FormatQsoNoNewline(q: Qso)
    requires NoNewline(q)
    ensures '\n' !in FormatQso(q)
  {
    RenderedTokenChars(q, '\n');
  }

  /**
   * The record that the program's test and its Submit button build: fixed
   * text fields and score 2, stamped with `t` (the current time in the
   * program).
   */
  function SampleQso(t: DateTime): Qso {
    Qso(t, "50", "SSB", "JA1YXP", "59", "13M", "59", "20M", "20", 2)
  }

  /** A timestamp dated 8 October 2023 renders as `2023-10-08`. */
  lemma SampleDate(t: DateTime)
    requires t.year == 2023 && t.month == 10 && t.day == 8
    ensures FormatDate(t) == "2023-10-08"
  {
    PaddedFour(2023);
    PaddedTwo(10);
    PaddedTwo(8);
  }

  /** A timestamp at 14:05, whatever its seconds, renders as `14:05`. */
  lemma SampleTime(t: DateTime)
    requires t.hour == 14 && t.minute == 5
    ensures FormatTime(t) == "14:05"
  {
    PaddedTwo(14);
    PaddedTwo(5);
  }

  /** The test record's fixed fields after the time, each preceded by a space. */
  const SampleRest: string := " 50 SSB JA1YXP 59 13M 59 20M 20 2"

  /** The test record's eleven tokens, separated by spaces; `FormatQso` of `SampleQso` unfolds to this. */
  lemma SampleLine(date: string, time: string, score: string)
    requires score == "2"
    ensures date + " " + time + " " + "50" + " " + "SSB" + " " + "JA1YXP" + " " +
      "59" + " " + "13M" + " " + "59" + " " + "20M" + " " + "20" + " " + score
      == date + " " + time + SampleRest
  {
    var dt := date + " " + time;
    var p1 := dt + " " + "50" + " " + "SSB" + " " + "JA1YXP";
    assert p1 == dt + " 50 SSB JA1YXP";
    var p2 := p1 + " " + "59" + " " + "13M" + " " + "59";
    assert p2 == dt + " 50 SSB JA1YXP 59 13M 59";
    var p3 := p2 + " " + "20M" + " " + "20" + " " + score;
    assert p3 == dt + SampleRest;
  }

  /**
   * The sample renders as its date, its time and then its fixed fields,
   * whatever instant it is stamped with.
   */
  lemma SampleFormat(t: DateTime)
    ensures FormatQso(SampleQso(t)) == FormatDate(t) + " " + FormatTime(t) + SampleRest
  {
    assert FormatInt(2) == "2";
    SampleLine(FormatDate(t), FormatTime(t), FormatInt(2));
  }

  /** One instant worked out: stamped 2023-10-08 14:05 and any seconds, the sample renders as this line. */
  lemma SampleFormatAt(second: Second)
    ensures FormatQso(SampleQso(DateTime(2023, 10, 8, 14, 5, second))) ==
      "2023-10-08 14:05 50 SSB JA1YXP 59 13M 59 20M 20 2"
  {
    var t := DateTime(2023, 10, 8, 14, 5, second);
    SampleDate(t);
    SampleTime(t);
    assert FormatInt(2) == "2";
    SampleInstantLine(FormatDate(t), FormatTime(t), FormatInt(2));
  }

  /** The worked instant's eleven tokens, separated by spaces. */
  lemma SampleInstantLine(date: string, time: string, score: string)
    requires date == "2023-10-08" && time == "14:05" && score == "2"
    ensures date + " " + time + " " + "50" + " " + "SSB" + " " + "JA1YXP" + " " +
      "59" + " " + "13M" + " " + "59" + " " + "20M" + " " + "20" + " " + score
      == "2023-10-08 14:05 50 SSB JA1YXP 59 13M 59 20M 20 2"
  {
    var p1 := date + " " + time + " " + "50";
    assert p1 == "2023-10-08 14:05 50";
    var p2 := p1 + " " + "SSB" + " " + "JA1YXP";
    assert p2 == "2023-10-08 14:05 50 SSB JA1YXP";
    var p3 := p2 + " " + "59" + " " + "13M" + " " + "59";
    assert p3 == "2023-10-08 14:05 50 SSB JA1YXP 59 13M 59";
    var p4 := p3 + " " + "20M" + " " + "20" + " " + score;
    assert p4 == "2023-10-08 14:05 50 SSB JA1YXP 59 13M 59 20M 20 2";
  }
}
