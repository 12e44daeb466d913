/** Data sources: the streaming flag every source carries, and the
    `PlaybackManager` that replays a recorded session through a
    `LogParser`. */
module Sources {
  import opened Common
  import opened LogManager

  // ---------------------------------------------------------------------
  // DataSource

  /** `DataSource`: only the streaming flag; reading is left to subclasses. */
  datatype DataSource = DataSource(streaming: bool)

  /** A new source is not streaming. */
  function NewSource(): (s: DataSource)
    ensures !s.streaming
  {
    DataSource(false)
  }

  /** `start` raises the flag whatever it was. */
  function StartSource(s: DataSource): (r: DataSource)
    ensures r.streaming
  {
    DataSource(true)
  }

  /** `stop` lowers the flag whatever it was. */
  function StopSource(s: DataSource): (r: DataSource)
    ensures !r.streaming
  {
    DataSource(false)
  }

  /** `is_streaming`: a query that changes nothing. */
  function IsStreaming(s: DataSource): (r: bool)
    ensures r <==> s.streaming
  {
    s.streaming
  }

  /** The flag is the whole state: `start` and `stop` forget the past, so
      repeating either is harmless and a stop undoes a start. */
  lemma SourceFlagMachine(s: DataSource)
    ensures StartSource(StartSource(s)) == StartSource(s)
    ensures StopSource(StopSource(s)) == StopSource(s)
    ensures StopSource(StartSource(s)) == NewSource()
    ensures IsStreaming(StartSource(StopSource(s)))
  {
  }

  // ---------------------------------------------------------------------
  // PlaybackManager

  /** `PlaybackManager`: the streaming flag, the parser over the recorded
      file, and the board id, unknown until the first `start`. */
  datatype Manager = Manager(source: DataSource, parser: LogParser, boardId: Option<int>)

  /** `PlaybackManager(file_path)`: building the parser already consumes the
      two header rows; the manager itself is not streaming yet. */
  function NewManager(file: seq<CsvRow>, codec: Codec): (r: Result<Manager>)
    ensures r.Ok? <==> NewParser(file, codec).Ok?
    ensures r.Ok? ==>
      && !r.value.source.streaming
      && r.value.boardId.None?
      && r.value.parser == NewParser(file, codec).value
  {
    var p :- NewParser(file, codec);
    Ok(Manager(NewSource(), p, None))
  }

  /** `start` as written: while not streaming it calls `begin`, which
      returns an `int`, and then subscripts that `int`, which raises
      `TypeError`; so a stopped manager can never be started. */
  function StartAsWritten(m: Manager, codec: Codec): (r: Result<Manager>)
    ensures m.source.streaming ==> r == Ok(m)
    ensures !m.source.streaming ==> r.Err?
    ensures !m.source.streaming && Begin(m.parser, codec).Ok? ==> r == Err(TypeError)
  {
    if m.source.streaming then Ok(m)
    else
      var (_, p) :- Begin(m.parser, codec);
      // `int(info[0])` with `info` an int
      Err(TypeError)
  }

  /** `start` as evidently intended: rewind the parser with `begin`, keep
      the id it returns as the board id, and raise the streaming flag.  A
      manager that is already streaming is left alone. */
  function Start(m: Manager, codec: Codec): (r: Result<Manager>)
    ensures m.source.streaming ==> r == Ok(m)
    ensures !m.source.streaming ==> (r.Ok? <==> Begin(m.parser, codec).Ok?)
    ensures !m.source.streaming && r.Ok? ==>
      && r.value.source.streaming
      && r.value.parser == Begin(m.parser, codec).value.1
      && r.value.boardId == Some(Begin(m.parser, codec).value.0)
  {
    if m.source.streaming then Ok(m)
    else
      var (id, p) :- Begin(m.parser, codec);
      Ok(Manager(StartSource(m.source), p, Some(id)))
  }

  /** A freshly opened recording can never be played as written, while the
      corrected `start` gets it streaming with the id of its first row. */
  lemma NewPlaybackStart(file: seq<CsvRow>, codec: Codec)
    requires NewManager(file, codec).Ok?
    ensures StartAsWritten(NewManager(file, codec).value, codec) == Err(TypeError)
    ensures Start(NewManager(file, codec).value, codec).Ok?
    ensures Start(NewManager(file, codec).value, codec).value.source.streaming
  {
    var m := NewManager(file, codec).value;
    assert Begin(m.parser, codec).Ok?;
  }

  /** `stop`: while streaming, lower the flag and close the parser; a
      stopped manager is left alone, so the parser is never closed twice. */
  function Stop(m: Manager): (r: Manager)
    ensures !r.source.streaming
    ensures !m.source.streaming ==> r == m
    ensures m.source.streaming ==>
      r.parser == CloseParser(m.parser) && r.boardId == m.boardId
  {
    if m.source.streaming then Manager(StopSource(m.source), CloseParser(m.parser), m.boardId)
    else m
  }

  /** Stopping twice is the same as stopping once. */
  lemma StopTwice(m: Manager)
    ensures Stop(Stop(m)) == Stop(m)
  {
  }

  /** A start after a stop replays the recording from its first data row:
      the closed parser is reopened just past the two header rows. */
  lemma RestartRewinds(m: Manager, codec: Codec)
    requires m.source.streaming
    requires |m.parser.file| >= 2 && |m.parser.file[0]| > 0
    ensures Start(Stop(m), codec).Ok?
    ensures var q := Start(Stop(m), codec).value;
      && q.source.streaming
      && q.parser.pos == 2 && q.parser.isOpen
      && q.parser.file == m.parser.file
  {
  }

  /** `read_data(n)`: the parser's `read_data(n)`; only the parser moves. */
  function Read(m: Manager, n: int, codec: Codec): (r: Result<(Option<seq<Row>>, Manager)>)
    ensures r.Err? <==> ReadData(m.parser, n, codec).Err?
    ensures r.Ok? ==>
      && r.value.1 == m.(parser := ReadData(m.parser, n, codec).value.1)
      && r.value.0 == ReadData(m.parser, n, codec).value.0
  {
    var (rows, p) :- ReadData(m.parser, n, codec);
    Ok((rows, m.(parser := p)))
  }

  /** What a read returns: at most `n` rows, the next ones of the file in
      order, and the cursor moves past exactly those rows. */
  lemma ReadAtMost(m: Manager, n: int, codec: Codec)
    requires Read(m, n, codec).Ok?
    requires Read(m, n, codec).value.0.Some?
    ensures var (rows, q) := Read(m, n, codec).value;
      && |rows.value| <= Max(n, 0)
      && q.parser.pos == m.parser.pos + |rows.value|
      && forall i :: 0 <= i < |rows.value| ==>
           ToFloats(m.parser.file[m.parser.pos + i], codec) == Some(rows.value[i])
  {
  }

  /** `is_finished`: the parser has reported the end of the file. */
  function IsFinished(m: Manager): (r: bool)
    ensures r <==> !m.parser.hasNewData
  {
    !m.parser.hasNewData
  }

  /** A read leaves a running playback running unless it asked for more rows
      than were left, and a finished playback stays finished. */
  lemma FinishedOnlyAtEnd(m: Manager, n: int, codec: Codec)
    requires Read(m, n, codec).Ok?
    ensures var q := Read(m, n, codec).value.1;
      IsFinished(q) <==> IsFinished(m) || n > Remaining(m.parser)
  {
    EndOfDataOnlyWhenHit(m.parser, n, codec);
  }

  /** Replaying from the start, the rewind `DataProcessing.reset` evidently
      intended: `begin` reopens the file after its header rows and the board
      id is read again; the streaming flag is kept. */
  function Rewind(m: Manager, codec: Codec): (r: Result<Manager>)
    ensures r.Ok? <==> Begin(m.parser, codec).Ok?
    ensures r.Ok? ==>
      && r.value.source == m.source
      && r.value.parser.pos == 2 && r.value.parser.isOpen
      && r.value.parser.file == m.parser.file
      && r.value.boardId == Some(Begin(m.parser, codec).value.0)
  {
    var (id, p) :- Begin(m.parser, codec);
    Ok(Manager(m.source, p, Some(id)))
  }

  /** Rewinding forgets how far the playback had got: two managers over
      the same file rewind to the same place. */
  lemma RewindForgetsPosition(m1: Manager, m2: Manager, codec: Codec)
    requires m1.parser.file == m2.parser.file && m1.parser.boardId == m2.parser.boardId
    requires m1.source == m2.source
    requires Rewind(m1, codec).Ok?
    ensures Rewind(m1, codec) == Rewind(m2, codec)
  {
  }
}
