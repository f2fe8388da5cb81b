# ylog logsheet serialiser, modelled in Dafny

ylog is an amateur-radio contest logger. The part of it modelled here is
the logsheet serialiser in `src/main.rs`:

- the contact record `QSO`: a UTC timestamp, eight text fields (band, mode,
  callsign, sent report, sent number, received report, received number,
  multiplier) and an `i32` score;
- `format_qso`, which renders one record as eleven space-separated fields:
  the date as `YYYY-MM-DD`, the time as `HH:MM`, the eight text fields
  verbatim, and the score in decimal, with no line terminator;
- `write_logsheet` with its helper `_append_to_logsheet`, which creates (and
  so truncates) `logsheet.txt`, writes the header `<LOGSHEET TYPE=ylog>\n`,
  each record's rendering in input order, and the trailer `\n</LOGSHEET>\n`.

Modules, one per concern:

- `Options` (`options.dfy`): the `Option` type the parsers return.
- `Seqs` (`seqs.dfy`): slicing facts about sequences of any element type.
- `Decimal` (`decimal.dfy`): chrono's zero-padded `%Y`, `%m`, `%d`, `%H`,
  `%M` and Rust's `Display` for a signed integer, each with the parser
  that undoes it.
- `Text` (`text.dfy`): joining on a separator and splitting on it (Rust's
  `str::split(char)`), with the lemma that splitting undoes joining.
- `QsoRecord` (`qso.dfy`): `DateTime`, `Qso`, `FormatQso`, and a
  reader `ParseQso` that serves as its partner.
- `LogsheetWriter` (`logsheet.dfy`): the file as a class `LogFile` whose
  text grows as it is written; `WriteLogsheet` is a method whose loop
  appends each record; `Logsheet` is the function it is proved against.
- `LogsheetReader` (`logsheet_parse.dfy`): a reader for a whole logsheet,
  used to prove that the file holds every record once, in input order.

The readers are not part of the program. They are the reference against
which the program's output is shown to lose nothing but the seconds of
each timestamp.

Points about the code that the model keeps as they are:

- Records are not separated by line breaks. `format_qso` ends without a
  line terminator (the format string on `src/main.rs:273`), so all records
  of a logsheet share one line, and the score of each record runs straight
  into the year of the next one (`...20 22023-10-08 14:05 ...`).
  `SplitTwoRecords` and `SampleRecordsRunTogether` state this. The
  fixed-width date still lets `ParseLogsheet` separate the records.
- No field is validated: the score is any `i32` and any text field may be
  empty or hold any character. The model has no validation either.
- `File::create` truncates, so each call replaces the file's content
  instead of appending to it (`SubmitTwice`).
- The record that the test and the Submit button write is stamped with
  `Utc::now()`, so its line is stated for every instant (`SampleFormat`,
  `SampleLogsheet`); 2023-10-08 14:05 is only one worked instant
  (`SampleFormatAt`).
- Besides the logsheet writer, the program has a WebSocket server that
  only echoes text frames back; there is no submission queue or
  acknowledgement to model.

## Model

| member | source | states |
|---|---|---|
| `Decimal.Padded` | src/main.rs:270-271 | a value below 10^width is written with exactly `width` digits that read back as the value |
| `Decimal.PaddedTwo` | src/main.rs:270-271 | a two-digit field (`%m`, `%d`, `%H`, `%M`) is the tens digit then the units digit, so values below ten get a leading zero |
| `Decimal.PaddedFour` | src/main.rs:270 | the four-digit year (`%Y`) is its thousands, hundreds, tens and units digits, zero-padded |
| `Decimal.FormatInt` | src/main.rs:284 | the score is at least one character; it starts with `-` exactly when negative; the rest are digits whose value is the magnitude, in shortest form: no leading zero, and `0` alone for zero |
| `Decimal.ParseFormatInt` | src/main.rs:284 | reading the rendered score back gives the score, for every integer including negative ones |
| `Decimal.FormatIntChars` | src/main.rs:284 | the rendered score holds only digits and a leading `-` |
| `QsoRecord.FormatDate` | src/main.rs:270 | the date is ten characters `YYYY-MM-DD`: dashes at positions 4 and 7, digit groups whose values are year, month and day |
| `QsoRecord.FormatTime` | src/main.rs:271 | the time is five characters `HH:MM`: a colon at position 2, digit groups whose values are hour and minute; the seconds do not appear |
| `QsoRecord.FormatQso` | src/main.rs:269-286 | the rendering of one record; what it means is stated by `FormatQsoIsJoin`, `SplitFormatQso`, `ParseFormatQso`, `FormatQsoInjective` and `FormatQsoNoNewline` |
| `QsoRecord.FormatQsoIsJoin` | src/main.rs:272-285 | the rendering is exactly date, time, band, mode, callsign, sent report, sent number, received report, received number, multiplier and score, in that order, separated by single spaces |
| `QsoRecord.RenderedTokenChars` | src/main.rs:270-284 | the date, time and score tokens hold no character other than digits, `-` and `:` |
| `QsoRecord.SplitFormatQso` | src/main.rs:272-285 | when no text field holds a space, splitting the line on spaces gives exactly the eleven fields: tokens 3 to 10 are the text fields verbatim |
| `QsoRecord.ParseFieldsOfFields` | src/main.rs:270-284 | the date and time tokens read back as the timestamp without its seconds, the last token as the score |
| `QsoRecord.ParseFormatQso` | src/main.rs:269-286 | round trip: reading a rendered line back gives the record with its seconds set to zero, when no text field holds a space |
| `QsoRecord.FormatQsoInjective` | src/main.rs:269-286 | two space-free records render alike only if they differ at most in their seconds |
| `QsoRecord.FormatQsoNoNewline` | src/main.rs:273 | the rendering adds no line break: a record contains one only if one of its text fields does |
| `QsoRecord.SampleDate` | src/main.rs:270 | a timestamp dated 2023-10-08 renders as `2023-10-08`, with zero-padded day |
| `QsoRecord.SampleTime` | src/main.rs:271 | a timestamp at 14:05, whatever its seconds, renders as `14:05`, with zero-padded minute and no seconds |
| `QsoRecord.SampleFormat` | src/main.rs:249-259 | the test's record, stamped with any instant, renders as that instant's date and time followed by ` 50 SSB JA1YXP 59 13M 59 20M 20 2`, score 2 as `2` |
| `QsoRecord.SampleFormatAt` | src/main.rs:249-259 | one worked instant: stamped 2023-10-08 14:05 with any seconds, the test's record renders as `2023-10-08 14:05 50 SSB JA1YXP 59 13M 59 20M 20 2` |
| `LogsheetWriter.Records` | src/main.rs:23-25 | the records' renderings concatenated in input order with nothing between them; stated by `RecordsAppend`, `RecordsSingle`, `RecordsNoNewline` and `ParseRecords` |
| `LogsheetWriter.Logsheet` | src/main.rs:22-26 | the file always starts with the header `<LOGSHEET TYPE=ylog>\n` and ends with the trailer `\n</LOGSHEET>\n`, also for no records |
| `LogsheetWriter.Wrapped` | src/main.rs:22-26 | the header, then the body, then the trailer: the three parts can be cut apart again |
| `LogsheetWriter.RecordsAppend` | src/main.rs:23-25 | one more record extends the body by exactly that record's rendering, with nothing in between |
| `LogsheetWriter.HeaderAndRecordsStep` | src/main.rs:22-25 | after the header and the first `i` records, writing record `i` gives the header and the first `i + 1` records |
| `LogsheetWriter.LogFile.Create` | src/main.rs:21 | creating the file leaves it empty, whatever it held |
| `LogsheetWriter.LogFile.Write` | src/main.rs:266 | a write appends its text to the file |
| `LogsheetWriter.AppendToLogsheet` | src/main.rs:265-267 | appends its text to the logsheet and changes nothing else |
| `LogsheetWriter.WriteLogsheet` | src/main.rs:20-27 | afterwards the file holds exactly header, the renderings of all records in input order, and trailer; its old content plays no part |
| `LogsheetWriter.SubmitTwice` | src/main.rs:76-88 | two calls in a row leave only the second call's logsheet: the file is replaced, not extended |
| `LogsheetWriter.RecordsNoNewline` | src/main.rs:23-25 | the body holds no line break when no text field does |
| `LogsheetWriter.LogsheetNewlines` | src/main.rs:22-26 | the only line breaks in the file are the header's and the trailer's two (positions 20, length-13 and length-1) |
| `LogsheetWriter.RecordsSingle` | src/main.rs:23-25 | a body of one record is that record's rendering |
| `LogsheetWriter.SampleLogsheet` | src/main.rs:248-262 | the test leaves the header, its record's line for whatever instant it was stamped with, and the trailer in the file |
| `LogsheetWriter.SplitTwoRecords` | src/main.rs:273 | two records in a row split into 21 tokens, not 22: the first score and the second date fuse into one token |
| `LogsheetWriter.SampleRecordsRunTogether` | src/main.rs:273 | a record with score 2 (the test's score) followed by one dated 2023-10-08 gives the fused token `22023-10-08` |
| `LogsheetReader.DropAllSeconds` | src/main.rs:271 | the records, in the same order, each with its seconds cleared |
| `LogsheetReader.ParseRunLast` | src/main.rs:272-285 | the eleven tokens of the last record read back as that record |
| `LogsheetReader.ParseRunFused` | src/main.rs:23-25 | a record's tokens fused with those of the next records read back as that record followed by the next records |
| `LogsheetReader.SplitRecords` | src/main.rs:23-25 | the tokens of the body are the first record's fields fused with the tokens of the rest |
| `LogsheetReader.ParseRecordsSingle` | src/main.rs:23-25 | a body of one record splits into its eleven tokens, which read back as that record |
| `LogsheetReader.ParseRecords` | src/main.rs:23-25 | the body's tokens read back as all the records, in order |
| `LogsheetReader.ParseLogsheetRoundTrip` | src/main.rs:20-27 | reading the written file back gives every record once, in input order, with its seconds cleared, when no text field holds a space |
| `LogsheetReader.LogsheetInjective` | src/main.rs:20-27 | equal files come from record lists of the same length that agree record by record up to seconds: nothing is skipped, repeated or reordered |

## Left out

- The Leptos UI components (`TableView`, `CWKeyboard`, `Dashboard`, `Message`, `App`): presentation only. `SubmitTwice` stands for the Submit button calling `write_logsheet` with a one-record list.
- The WebSocket server in `main`: network I/O and one thread per connection, which only echo text frames back.
- The file system: `logsheet.txt` is an in-memory `LogFile` passed as a parameter instead of a fixed path. The file holds characters, not UTF-8 bytes.
- Failures of `File::create` and of `write`, which panic through `expect`: the model's create and write always succeed.
- `LogFile.Write`: appends all of its text. `_append_to_logsheet` ignores the byte count that `write` returns, so a short write would silently drop the rest of the text; the model does not represent short writes.
- `Utc::now()`: the timestamp is a given value.
- chrono's calendar: a `DateTime` holds a year from 0 to 9999, a month from 1 to 12, a day from 1 to 31, an hour, a minute and a second as given integers. Days that do not exist in their month are not ruled out. Leap seconds and years outside 0 to 9999 (which chrono prints with a sign or more digits) are not modelled.
- Text fields holding a space: a text field that holds a space makes the line split into more than eleven tokens, and the round-trip lemmas require that no text field holds one.
