/** Recorded sessions: `DataLogger` writes a session to numbered CSV files,
    `LogParser` replays one as a cursor over its rows.  The file system is a
    parameter: a folder listing is a sequence of names and a file is a
    sequence of already tokenised CSV rows. */
module LogManager {
  import opened Common

  // ---------------------------------------------------------------------
  // Decimal formatting, as Python's `str` on a non-negative int

  function DigitChar(d: nat): char
    requires d < 10
  {
    (48 + d) as char
  }

  predicate IsDigit(c: char) {
    '0' <= c <= '9'
  }

  function DigitValue(c: char): nat
    requires IsDigit(c)
  {
    c as int - 48
  }

  /** The decimal digits of `n`, without leading zeros. */
  function NatToString(n: nat): (s: string)
    ensures |s| >= 1
    ensures forall i :: 0 <= i < |s| ==> IsDigit(s[i])
    ensures n >= 10 ==> s[0] != '0'
    decreases n
  {
    if n < 10 then [DigitChar(n)] else NatToString(n / 10) + [DigitChar(n % 10)]
  }

  /** The number a non-empty string of decimal digits denotes. */
  function ParseDigits(s: string): nat
    requires |s| >= 1
    requires forall i :: 0 <= i < |s| ==> IsDigit(s[i])
  {
    if |s| == 1 then DigitValue(s[0])
    else ParseDigits(s[..|s| - 1]) * 10 + DigitValue(s[|s| - 1])
  }

  /** Reading back what `NatToString` wrote gives the number again. */
  lemma {:induction false} DecimalRoundTrip(n: nat)
    ensures ParseDigits(NatToString(n)) == n
  {
    if n >= 10 {
      var s := NatToString(n);
      DecimalRoundTrip(n / 10);
      assert s[..|s| - 1] == NatToString(n / 10);
    }
  }

  /** Distinct numbers are written as distinct strings. */
  lemma NatToStringInjective(a: nat, b: nat)
    requires NatToString(a) == NatToString(b)
    ensures a == b
  {
    DecimalRoundTrip(a);
    DecimalRoundTrip(b);
  }

  // ---------------------------------------------------------------------
  // DataLogger

  /** One written CSV field. */
  datatype Cell = IntCell(i: int) | TextCell(t: string) | NumCell(x: real)

  type OutRow = seq<Cell>

  /** A record file: its name inside the session folder and the rows
      written to it so far. */
  datatype Record = Record(name: string, rows: seq<OutRow>)

  /** `DataLogger`: the next record number, the record being written (the
      `output_file`/`writer` pair, which the code always sets and clears
      together) and the records already closed. */
  datatype DataLogger = DataLogger(recordNum: int, current: Option<Record>, closed: seq<Record>)

  /** A fresh logger; creating its session folder is file-system work
      outside the model. */
  function NewLogger(): (lg: DataLogger)
    ensures lg.recordNum == 0 && lg.current.None? && lg.closed == []
  {
    DataLogger(0, None, [])
  }

  /** The file name of record number `n`. */
  function RecordName(n: nat): string {
    NatToString(n) + ".csv"
  }

  /** Different record numbers never name the same file. */
  lemma RecordNamesDistinct(a: nat, b: nat)
    requires a != b
    ensures RecordName(a) != RecordName(b)
  {
    if RecordName(a) == RecordName(b) {
      var sa, sb := NatToString(a), NatToString(b);
      assert |sa| == |sb|;
      assert sa == RecordName(a)[..|sa|];
      assert sb == RecordName(b)[..|sb|];
      NatToStringInjective(a, b);
    }
  }

  function Labels(prefix: string, channels: seq<nat>): (r: seq<Cell>)
    ensures |r| == |channels|
    ensures forall i :: 0 <= i < |channels| ==> r[i] == TextCell(prefix + NatToString(channels[i]))
  {
    seq(|channels|, i requires 0 <= i < |channels| => TextCell(prefix + NatToString(channels[i])))
  }

  /** The column-header row of a record. */
  function Header(exg: seq<nat>, accel: seq<nat>, analog: seq<nat>): (h: OutRow)
    ensures |h| == 10 + |exg| + |accel| + |analog|
    ensures h[0] == TextCell("Packet Num")
    ensures forall i :: 0 <= i < |exg| ==> h[1 + i] == TextCell("EXG Channel " + NatToString(exg[i]))
    ensures forall i :: 0 <= i < |accel| ==>
      h[1 + |exg| + i] == TextCell("Accel Channel " + NatToString(accel[i]))
    ensures forall j :: 1 + |exg| + |accel| <= j < 8 + |exg| + |accel| ==> h[j] == TextCell("Other")
    ensures forall i :: 0 <= i < |analog| ==>
      h[8 + |exg| + |accel| + i] == TextCell("Analog Channel " + NatToString(analog[i]))
    ensures h[|h| - 2] == TextCell("Timestamp") && h[|h| - 1] == TextCell("Other")
  {
    [TextCell("Packet Num")]
    + Labels("EXG Channel ", exg)
    + Labels("Accel Channel ", accel)
    + seq(7, _ => TextCell("Other"))
    + Labels("Analog Channel ", analog)
    + [TextCell("Timestamp"), TextCell("Other")]
  }

  /** The header names each EXG column after its channel: the number after
      the `"EXG Channel "` prefix reads back as that channel. */
  lemma HeaderNamesExgChannels(exg: seq<nat>, accel: seq<nat>, analog: seq<nat>, i: nat)
    requires i < |exg|
    ensures var h := Header(exg, accel, analog);
      && h[1 + i].TextCell?
      && |h[1 + i].t| > 12
      && h[1 + i].t[..12] == "EXG Channel "
      && ParseDigits(h[1 + i].t[12..]) == exg[i]
  {
    var text := "EXG Channel " + NatToString(exg[i]);
    assert text[12..] == NatToString(exg[i]);
    DecimalRoundTrip(exg[i]);
  }

  /** `create_new_record`: number the record after the files already in the
      folder (one more when `metadata.csv` is absent), open `<n>.csv`, write
      the board id row and the header row, and advance the counter.  A
      record still open is abandoned without being closed. */
  function CreateNewRecord(lg: DataLogger, files: seq<string>, boardId: int,
                           exg: seq<nat>, accel: seq<nat>, analog: seq<nat>): (r: DataLogger)
    ensures var n := |files| + (if "metadata.csv" in files then 0 else 1);
      && r.recordNum == n + 1
      && r.current == Some(Record(RecordName(n), [[IntCell(boardId)], Header(exg, accel, analog)]))
      && r.closed == lg.closed
  {
    var n := |files| + (if "metadata.csv" in files then 0 else 1);
    DataLogger(n + 1, Some(Record(RecordName(n), [[IntCell(boardId)], Header(exg, accel, analog)])), lg.closed)
  }

  /** The rows of `data` that are not empty, in order. */
  function NonEmpty(data: seq<Row>): (r: seq<Row>)
    ensures |r| <= |data|
    ensures forall i :: 0 <= i < |r| ==> |r[i]| > 0
    ensures forall i :: 0 <= i < |data| && |data[i]| > 0 ==> data[i] in r
    ensures forall x :: x in r ==> x in data
  {
    if |data| == 0 then []
    else
      var init := NonEmpty(data[..|data| - 1]);
      var last := data[|data| - 1];
      assert forall i :: 0 <= i < |data| - 1 ==> data[i] == data[..|data| - 1][i];
      if |last| > 0 then init + [last] else init
  }

  /** Filtering works row by row: the kept rows of a concatenation are the
      kept rows of each part, in order.  With `NonEmptyOne` this fixes the
      order and the number of copies of every kept row. */
  lemma {:induction false} NonEmptyAppend(a: seq<Row>, b: seq<Row>)
    ensures NonEmpty(a + b) == NonEmpty(a) + NonEmpty(b)
    decreases |b|
  {
    if |b| == 0 {
      assert a + b == a;
    } else {
      var init := b[..|b| - 1];
      var last := b[|b| - 1];
      var tail := if |last| > 0 then [last] else [];
      NonEmptyAppend(a, init);
      assert (a + b)[..|a + b| - 1] == a + init;
      assert (a + b)[|a + b| - 1] == last;
      assert NonEmpty(a + b) == NonEmpty(a + init) + tail;
      assert NonEmpty(b) == NonEmpty(init) + tail;
    }
  }

  /** A single row is kept exactly when it is non-empty. */
  lemma NonEmptyOne(row: Row)
    ensures NonEmpty([row]) == if |row| > 0 then [row] else []
  {
    assert [row][..0] == [];
  }

  function ToCells(row: Row): (r: OutRow)
    ensures |r| == |row|
  {
    seq(|row|, j requires 0 <= j < |row| => NumCell(row[j]))
  }

  function CellRows(rows: seq<Row>): (r: seq<OutRow>)
    ensures |r| == |rows|
  {
    seq(|rows|, i requires 0 <= i < |rows| => ToCells(rows[i]))
  }

  /** One more row of input adds its cells when it is non-empty and nothing
      otherwise. */
  lemma WrittenStep(rows0: seq<OutRow>, rows: seq<OutRow>, data: seq<Row>, i: nat)
    requires i < |data|
    requires rows == rows0 + CellRows(NonEmpty(data[..i]))
    ensures (if |data[i]| > 0 then rows + [ToCells(data[i])] else rows) ==
      rows0 + CellRows(NonEmpty(data[..i + 1]))
  {
    assert data[..i + 1][..i] == data[..i];
    if |data[i]| > 0 {
      assert CellRows(NonEmpty(data[..i]) + [data[i]]) == CellRows(NonEmpty(data[..i])) + [ToCells(data[i])];
    }
  }

  /** `write_data`: with no open record nothing happens; otherwise every
      non-empty row is written, in order, and empty rows are skipped. */
  method WriteData(lg: DataLogger, data: seq<Row>) returns (r: DataLogger)
    ensures lg.current.None? ==> r == lg
    ensures lg.current.Some? ==>
      && r.current.Some?
      && r.current.value.name == lg.current.value.name
      && r.current.value.rows == lg.current.value.rows + CellRows(NonEmpty(data))
    ensures r.recordNum == lg.recordNum && r.closed == lg.closed
  {
    r := lg;
    if lg.current.Some? {
      var rows := AppendWritten(lg.current.value.rows, data);
      r := lg.(current := Some(lg.current.value.(rows := rows)));
    }
  }

  /** The loop of `write_data`: `rows` followed by the cells of every
      non-empty row of `data`, in order. */
  method AppendWritten(rows0: seq<OutRow>, data: seq<Row>) returns (rows: seq<OutRow>)
    ensures rows == rows0 + CellRows(NonEmpty(data))
  {
    rows := rows0;
    var i := 0;
    while i < |data|
      invariant 0 <= i <= |data|
      invariant rows == rows0 + CellRows(NonEmpty(data[..i]))
    {
      WrittenStep(rows0, rows, data, i);
      rows := if |data[i]| > 0 then rows + [ToCells(data[i])] else rows;
      i := i + 1;
    }
    assert data[..|data|] == data;
  }

  /** `close`: the open record, if any, is closed and forgotten. */
  function Close(lg: DataLogger): (r: DataLogger)
    ensures r.current.None?
    ensures r.recordNum == lg.recordNum
    ensures lg.current.Some? ==> r.closed == lg.closed + [lg.current.value]
    ensures lg.current.None? ==> r == lg
  {
    match lg.current
    case None => lg
    case Some(rec) => lg.(current := None, closed := lg.closed + [rec])
  }

  /** Closing twice is the same as closing once. */
  lemma CloseTwice(lg: DataLogger)
    ensures Close(Close(lg)) == Close(lg)
  {
  }

  // ---------------------------------------------------------------------
  // LogParser

  /** `LogParser`: the file's rows, the reader's position in them, the
      `has_new_data` flag, whether the file is open, and the board id read
      by the constructor. */
  datatype LogParser = LogParser(file: seq<CsvRow>, pos: nat, hasNewData: bool, isOpen: bool, boardId: int)

  /** Rows the reader has not reached yet. */
  function Remaining(p: LogParser): nat {
    if p.pos <= |p.file| then |p.file| - p.pos else 0
  }

  /** `begin`: reopen the file, consume the board-id row and the header row,
      and return the board id; a first field that is not an integer yields
      -1 and clears `has_new_data`.  A file of fewer than two rows raises
      `StopIteration`, an empty first row `IndexError`. */
  function Begin(p: LogParser, codec: Codec): (r: Result<(int, LogParser)>)
    ensures |p.file| < 2 ==> r == Err(StopIteration)
    ensures |p.file| >= 2 && |p.file[0]| == 0 ==> r == Err(IndexError)
    ensures |p.file| >= 2 && |p.file[0]| > 0 ==> r.Ok?
    ensures r.Ok? ==> var (id, q) := r.value;
      && q.file == p.file && q.boardId == p.boardId
      && q.pos == 2 && q.isOpen
      && (q.hasNewData <==> codec.toInt(p.file[0][0]).Some?)
      && id == (if q.hasNewData then codec.toInt(p.file[0][0]).value else -1)
  {
    if |p.file| < 2 then Err(StopIteration)
    else
      var info := p.file[0];
      if |info| == 0 then Err(IndexError)
      else
        var reopened := p.(pos := 2, isOpen := true);
        match codec.toInt(info[0])
        case Some(id) => Ok((id, reopened.(hasNewData := true)))
        case None => Ok((-1, reopened.(hasNewData := false)))
  }

  /** `LogParser(file_path)`: a parser whose constructor has already run
      `begin` and kept its result as the board id. */
  function NewParser(file: seq<CsvRow>, codec: Codec): (r: Result<LogParser>)
    ensures r.Ok? <==> |file| >= 2 && |file[0]| > 0
    ensures r.Ok? ==> r.value.file == file && r.value.pos == 2 && r.value.isOpen
    ensures r.Ok? ==>
      && (r.value.hasNewData <==> codec.toInt(file[0][0]).Some?)
      && r.value.boardId == (if r.value.hasNewData then codec.toInt(file[0][0]).value else -1)
  {
    var (id, p) :- Begin(LogParser(file, 0, false, false, 0), codec);
    Ok(p.(boardId := id))
  }

  /** One CSV row as `np.array(row, dtype="float64")`: every field must
      convert. */
  function ToFloats(fields: CsvRow, codec: Codec): (r: Option<Row>)
    ensures r.Some? <==> forall j :: 0 <= j < |fields| ==> codec.toFloat(fields[j]).Some?
    ensures r.Some? ==> (|r.value| == |fields| &&
      forall j :: 0 <= j < |fields| ==> r.value[j] == codec.toFloat(fields[j]).value)
  {
    if forall j :: 0 <= j < |fields| ==> codec.toFloat(fields[j]).Some? then
      Some(seq(|fields|, j requires 0 <= j < |fields| => codec.toFloat(fields[j]).value))
    else None
  }

  /** True when one of the next `k` rows after the cursor fails to convert. */
  ghost predicate BadRowAhead(p: LogParser, k: int, codec: Codec) {
    exists j :: p.pos <= j < p.pos + k && j < |p.file| && ToFloats(p.file[j], codec).None?
  }

  /** The loop of `read_data(n)`: up to `n` rows from the cursor, in file
      order.  Reaching the end of the file clears `has_new_data` and stops;
      a row that does not convert raises `ValueError` (only `StopIteration`
      is caught); reading a closed file raises `ValueError`. */
  function ReadRows(p: LogParser, n: int, codec: Codec): (r: Result<(seq<Row>, LogParser)>)
    ensures r.Err? <==> n > 0 && (!p.isOpen || BadRowAhead(p, n, codec))
    ensures r.Err? ==> r.error == ValueError
    ensures r.Ok? ==> var (rows, q) := r.value;
      && |rows| == (if n <= 0 then 0 else Min(n, Remaining(p)))
      && q == p.(pos := p.pos + |rows|, hasNewData := if n > Remaining(p) then false else p.hasNewData)
      && forall i :: 0 <= i < |rows| ==> ToFloats(p.file[p.pos + i], codec) == Some(rows[i])
    decreases if n > 0 then n else 0
  {
    if n <= 0 then Ok(([], p))
    else if !p.isOpen then Err(ValueError)
    else if p.pos >= |p.file| then Ok(([], p.(hasNewData := false)))
    else
      match ToFloats(p.file[p.pos], codec)
      case None =>
        assert BadRowAhead(p, n, codec) by {
          assert ToFloats(p.file[p.pos], codec).None?;
        }
        Err(ValueError)
      case Some(row) =>
        var next := p.(pos := p.pos + 1);
        var rest :- ReadRows(next, n - 1, codec);
        Ok(([row] + rest.0, rest.1))
  }

  /** `read_data(n)`: the rows read, as one array; rows of unequal length
      cannot form one, so the method prints a message and returns `None`. */
  function ReadData(p: LogParser, n: int, codec: Codec): (r: Result<(Option<seq<Row>>, LogParser)>)
    ensures r.Err? <==> ReadRows(p, n, codec).Err?
    ensures r.Ok? ==> var (rows, q) := ReadRows(p, n, codec).value;
      && r.value.1 == q
      && (r.value.0.Some? <==> Rectangular(rows))
      && (r.value.0.Some? ==> r.value.0.value == rows)
  {
    var (rows, q) :- ReadRows(p, n, codec);
    if Rectangular(rows) then Ok((Some(rows), q)) else Ok((None, q))
  }

  /** `has_new_data` is cleared exactly when a read asks for more rows than
      remain; consuming exactly the remaining rows leaves it as it was. */
  lemma EndOfDataOnlyWhenHit(p: LogParser, n: int, codec: Codec)
    requires ReadRows(p, n, codec).Ok?
    ensures ReadRows(p, n, codec).value.1.hasNewData == (p.hasNewData && n <= Remaining(p))
  {
  }

  /** `close`. */
  function CloseParser(p: LogParser): (q: LogParser)
    ensures !q.isOpen && q == p.(isOpen := false)
  {
    p.(isOpen := false)
  }

  /** `load_metadata`: the data row of `metadata.csv` when the folder holds
      one, `None` otherwise; a metadata file of fewer than two rows raises
      `StopIteration`. */
  function LoadMetadata(folderFiles: seq<string>, metadataFile: seq<CsvRow>): (r: Result<Option<CsvRow>>)
    ensures "metadata.csv" !in folderFiles ==> r == Ok(None)
    ensures "metadata.csv" in folderFiles && |metadataFile| >= 2 ==> r == Ok(Some(metadataFile[1]))
    ensures "metadata.csv" in folderFiles && |metadataFile| < 2 ==> r == Err(StopIteration)
  {
    if "metadata.csv" in folderFiles then
      if |metadataFile| < 2 then Err(StopIteration) else Ok(Some(metadataFile[1]))
    else Ok(None)
  }

  // ---------------------------------------------------------------------
  // Session metadata

  /** The header row of `metadata.csv`. */
  const MetadataHeader: CsvRow := ["Name", "Surname", "Description"]

  /** The file name of a path inside `folder`, when the path is
      `folder + "/" + name`; `None` for a path outside the folder. */
  function NameIn(path: string, folder: string): (r: Option<string>)
    ensures r.Some? <==> |path| > |folder| && path[..|folder| + 1] == folder + "/"
    ensures r.Some? ==> path == folder + "/" + r.value
  {
    if |path| > |folder| && path[..|folder| + 1] == folder + "/" then
      assert path == path[..|folder| + 1] + path[|folder| + 1..];
      Some(path[|folder| + 1..])
    else None
  }

  /** The folder listing after a file is written at `path`: the file
      appears in it only when the path lies inside the folder. */
  function AfterWrite(files: seq<string>, folder: string, path: string): (r: seq<string>)
    ensures NameIn(path, folder).None? ==> r == files
    ensures NameIn(path, folder).Some? ==> NameIn(path, folder).value in r
    ensures forall f :: f in files ==> f in r
  {
    match NameIn(path, folder)
    case None => files
    case Some(name) => if name in files then files else files + [name]
  }

  /** `save_metadata(metadata)` as written: the path is
      `output_folder + "metadata.csv"` with no separator, which names a
      file beside the session folder, not in it.  Returns the path and the
      rows written. */
  function SaveMetadataAsWritten(folder: string, metadata: CsvRow): (r: (string, seq<CsvRow>))
    ensures NameIn(r.0, folder).None?
    ensures r.1 == [MetadataHeader, metadata]
  {
    var path := folder + "metadata.csv";
    assert path[|folder|] == 'm';
    (path, [MetadataHeader, metadata])
  }

  /** `save_metadata(metadata)` as evidently intended: `metadata.csv`
      inside the session folder (whose timestamped name never ends with a
      separator). */
  function SaveMetadata(folder: string, metadata: CsvRow): (r: (string, seq<CsvRow>))
    ensures NameIn(r.0, folder) == Some("metadata.csv")
    ensures r.1 == [MetadataHeader, metadata]
  {
    var path := folder + "/" + "metadata.csv";
    assert path[..|folder| + 1] == folder + "/";
    (path, [MetadataHeader, metadata])
  }

  /** As written, metadata saved into a session folder that had none is
      never found again: `load_metadata` sees no `metadata.csv`. */
  lemma MetadataLostAsWritten(folder: string, files: seq<string>, metadata: CsvRow)
    requires "metadata.csv" !in files
    ensures var (path, rows) := SaveMetadataAsWritten(folder, metadata);
      LoadMetadata(AfterWrite(files, folder, path), rows) == Ok(None)
  {
  }

  /** With the corrected path, `load_metadata` returns exactly the row
      `save_metadata` wrote, whatever the folder held before. */
  lemma MetadataRoundTrip(folder: string, files: seq<string>, metadata: CsvRow)
    ensures var (path, rows) := SaveMetadata(folder, metadata);
      LoadMetadata(AfterWrite(files, folder, path), rows) == Ok(Some(metadata))
  {
  }
}
