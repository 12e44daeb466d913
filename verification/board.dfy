/** `CytonDaisyBoard`: the older, self-contained reader.  It keeps a
    32-channel window, fills it from the live board or from a CSV file
    paced by the clock alone (no speed factor), and turns every EXG channel
    into a wave and a spectrum.  Opening files, preparing the board session
    and the SDK's filters are outside the model: a live batch arrives
    already filtered and transposed to rows. */
module Board {
  import opened Common
  import opened Window
  import opened LogManager
  import opened Plots

  /** The eight pen colours, cycled over the channels. */
  const Colors: seq<Color> := [
    (128, 129, 130), (123, 74, 141), (57, 90, 161), (49, 113, 89),
    (220, 174, 5), (254, 97, 55), (255, 56, 44), (162, 81, 48)]

  /** Columns the board reports per sample. */
  const BoardColumns: nat := 32

  /** How the board is being read: not yet connected, live (with the rows
      saved to the session file so far), or replaying the rows of a file
      not yet consumed, with the clock reading of the previous tick. */
  datatype Mode =
    | Unconnected
    | Streaming(saved: seq<Row>)
    | Replaying(rest: seq<CsvRow>, prevTime: real)

  datatype CytonDaisy = CytonDaisy(
    boardId: int,
    exg: seq<nat>,
    samplingRate: nat,
    numPoints: nat,
    totalData: seq<Row>,
    mode: Mode)

  /** `CytonDaisyBoard(port)`: look up the EXG channels and the sampling
      rate of the board and size the window four seconds long. */
  function NewBoard(boardId: int, sdk: Sdk): (r: Result<CytonDaisy>)
    ensures r.Ok? <==> sdk.exgChannels(boardId).Some? && sdk.samplingRate(boardId).Some?
    ensures r.Err? ==> r.error == SdkError
    ensures r.Ok? ==>
      && r.value.boardId == boardId
      && r.value.exg == sdk.exgChannels(boardId).value
      && r.value.samplingRate == sdk.samplingRate(boardId).value
      && r.value.numPoints == 4 * r.value.samplingRate
      && r.value.mode.Unconnected?
  {
    match sdk.exgChannels(boardId)
    case None => Err(SdkError)
    case Some(exg) =>
      match sdk.samplingRate(boardId)
      case None => Err(SdkError)
      case Some(rate) => Ok(CytonDaisy(boardId, exg, rate, 4 * rate, [], Unconnected))
  }

  /** `connect(dataFile)`: seed the window with `num_points` zero rows of
      all 32 columns; then either start streaming live, or open the file,
      skip its header row and note the time.  An empty file raises
      `StopIteration` from the header skip. */
  function Connect(b: CytonDaisy, dataFile: Option<seq<CsvRow>>, now: real): (r: Result<CytonDaisy>)
    ensures r.Err? <==> dataFile.Some? && |dataFile.value| == 0
    ensures r.Err? ==> r.error == StopIteration
    ensures r.Ok? ==>
      && |r.value.totalData| == b.numPoints
      && (forall i :: 0 <= i < b.numPoints ==> |r.value.totalData[i]| == BoardColumns)
      && (forall i, j :: 0 <= i < b.numPoints && 0 <= j < BoardColumns ==> r.value.totalData[i][j] == 0.0)
      && r.value.numPoints == b.numPoints && r.value.exg == b.exg
      && r.value.boardId == b.boardId && r.value.samplingRate == b.samplingRate
    ensures r.Ok? && dataFile.None? ==> r.value.mode == Streaming([])
    ensures r.Ok? && dataFile.Some? ==> r.value.mode == Replaying(dataFile.value[1..], now)
  {
    var seeded := b.(totalData := Zeros(b.numPoints, BoardColumns));
    match dataFile
    case None => Ok(seeded.(mode := Streaming([])))
    case Some(file) =>
      if |file| == 0 then Err(StopIteration)
      else Ok(seeded.(mode := Replaying(file[1..], now)))
  }

  /** `clip_data`: the newest `num_points` rows. */
  function ClipData(b: CytonDaisy, data: seq<Row>): (r: seq<Row>)
    ensures |data| > b.numPoints ==> r == data[|data| - b.numPoints..]
    ensures |data| <= b.numPoints ==> r == data
  {
    Clip(data, b.numPoints)
  }

  /** The replay loop `for _ in range(k): append(next(reader))`: the rows
      converted before the first failure, the rows left in the reader, and
      whether all `k` were read.  `next` consumes a row even when its
      conversion then fails; at the end of the file nothing is consumed. */
  function TakeRows(rest: seq<CsvRow>, k: int, codec: Codec): (r: (seq<Row>, seq<CsvRow>, bool))
    ensures var (got, left, complete) := r;
      && |got| <= |rest|
      && (forall i :: 0 <= i < |got| ==> ToFloats(rest[i], codec) == Some(got[i]))
      && (complete ==> |got| == Max(k, 0) && left == rest[|got|..])
      && (!complete ==>
            && |got| < k
            && (if |got| == |rest| then left == []
                else ToFloats(rest[|got|], codec).None? && left == rest[|got| + 1..]))
    decreases if k > 0 then k else 0
  {
    if k <= 0 then ([], rest, true)
    else if |rest| == 0 then ([], rest, false)
    else
      match ToFloats(rest[0], codec)
      case None => ([], rest[1..], false)
      case Some(row) =>
        var (got, left, complete) := TakeRows(rest[1..], k - 1, codec);
        ([row] + got, left, complete)
  }

  /** The replay loop runs to completion exactly when the next `k` rows
      exist and all convert. */
  lemma {:induction false} TakeRowsCompletes(rest: seq<CsvRow>, k: nat, codec: Codec)
    ensures TakeRows(rest, k, codec).2 <==>
      k <= |rest| && forall i :: 0 <= i < k ==> ToFloats(rest[i], codec).Some?
  {
    if k > 0 && |rest| > 0 && ToFloats(rest[0], codec).Some? {
      TakeRowsCompletes(rest[1..], k - 1, codec);
      assert forall i :: 1 <= i < k && i < |rest| ==> rest[1..][i - 1] == rest[i];
    }
  }

  /** What `read_data` returns: `(None, None)`, or a wave and a spectrum per
      EXG channel. */
  datatype Frames = NoFrames | Frames(wave: seq<Function>, fft: seq<Function>)

  /** `range(-n, 0)`. */
  function TimeAxis(n: nat): (r: seq<real>)
    ensures |r| == n
    ensures forall i :: 0 <= i < n ==> r[i] == (i - n) as real
  {
    seq(n, i requires 0 <= i < n => (i - n) as real)
  }

  /** `parse_data`: per EXG channel, in order, the channel's series against
      `range(-n, 0)` and its spectrum as frequency against amplitude; a
      channel past the window's width raises `IndexError`. */
  function ParseData(window: seq<Row>, exg: seq<nat>, rate: nat, sdk: Sdk): (r: Result<Frames>)
    requires Rectangular(window)
    ensures r.Ok? <==> forall i :: 0 <= i < |exg| ==> exg[i] < Width(window)
    ensures r.Err? ==> r.error == IndexError
    ensures r.Ok? ==>
      && r.value.Frames?
      && |r.value.wave| == |exg| && |r.value.fft| == |exg|
      && forall i :: 0 <= i < |exg| ==>
           && r.value.wave[i].y == Column(window, exg[i])
           && |r.value.wave[i].x| == |r.value.wave[i].y|
           && r.value.wave[i].x == TimeAxis(|window|)
           && r.value.fft[i] == Function(sdk.psd(Column(window, exg[i]), rate).1, sdk.psd(Column(window, exg[i]), rate).0)
    decreases |exg|
  {
    if |exg| == 0 then Ok(Frames([], []))
    else if exg[0] >= Width(window) then Err(IndexError)
    else
      var rest :- ParseData(window, exg[1..], rate, sdk);
      var series := Column(window, exg[0]);
      var (amp, freq) := sdk.psd(series, rate);
      Ok(Frames([Function(TimeAxis(|window|), series)] + rest.wave, [Function(freq, amp)] + rest.fft))
  }

  /** Clip the window, transpose it (rows of unequal length raise
      `ValueError`) and parse it. */
  function ClipAndParse(b: CytonDaisy, sdk: Sdk): (r: Result<(Frames, CytonDaisy)>)
    ensures var w := Clip(b.totalData, b.numPoints);
      && (r.Ok? <==> Rectangular(w) && forall i :: 0 <= i < |b.exg| ==> b.exg[i] < Width(w))
      && (!Rectangular(w) ==> r == Err(ValueError))
      && (r.Ok? ==> r.value == (ParseData(w, b.exg, b.samplingRate, sdk).value, b.(totalData := w)))
  {
    var window := Clip(b.totalData, b.numPoints);
    if !Rectangular(window) then Err(ValueError)
    else
      var frames :- ParseData(window, b.exg, b.samplingRate, sdk);
      Ok((frames, b.(totalData := window)))
  }

  /** The rows a replay tick asks for: `int(elapsed * rate / 1000)`, with
      no speed factor. */
  function ReplayCount(prevTime: real, now: real, rate: nat): int {
    Trunc((now - prevTime) * rate as real / 1000.0)
  }

  /** The replay branch of `read_data`: read `k` rows; if the reader fails,
      return `(None, None)` keeping the rows read before the failure and
      without clipping; otherwise clip and parse.  The clock reading is kept
      for the next tick either way. */
  function ReplayTick(b: CytonDaisy, rest: seq<CsvRow>, k: int, now: real, sdk: Sdk, codec: Codec): (r: Result<(Frames, CytonDaisy)>)
    ensures var t := TakeRows(rest, k, codec);
      && (!t.2 ==> r == Ok((NoFrames, b.(totalData := b.totalData + t.0, mode := Replaying(t.1, now)))))
      && (t.2 ==>
            var w := Clip(b.totalData + t.0, b.numPoints);
            && (r.Ok? <==> Rectangular(w) && forall i :: 0 <= i < |b.exg| ==> b.exg[i] < Width(w))
            && (!Rectangular(w) ==> r == Err(ValueError))
            && (r.Ok? ==> r.value == (ParseData(w, b.exg, b.samplingRate, sdk).value,
                                      b.(totalData := w, mode := Replaying(t.1, now)))))
  {
    var t := TakeRows(rest, k, codec);
    var b2 := b.(totalData := b.totalData + t.0, mode := Replaying(t.1, now));
    if !t.2 then Ok((NoFrames, b2)) else ClipAndParse(b2, sdk)
  }

  /** `read_data()` at clock reading `now`; `incoming` is the live board's
      batch.  Live: a non-empty batch is saved to the session file and
      appended to the window, the same rows in the same order.  Before
      `connect` the board session was never prepared. */
  function ReadData(b: CytonDaisy, now: real, incoming: seq<Row>, env: Env): (r: Result<(Frames, CytonDaisy)>)
    ensures b.mode.Unconnected? ==> r == Err(SdkError)
    ensures b.mode.Streaming? ==>
      var w := Clip(b.totalData + incoming, b.numPoints);
      && (r.Ok? <==> Rectangular(w) && forall i :: 0 <= i < |b.exg| ==> b.exg[i] < Width(w))
      && (!Rectangular(w) ==> r == Err(ValueError))
      && (r.Ok? ==>
            && r.value.0 == ParseData(w, b.exg, b.samplingRate, env.sdk).value
            && r.value.1 == b.(totalData := w, mode := Streaming(b.mode.saved + incoming)))
    ensures b.mode.Replaying? && r.Ok? ==> r.value.1.mode.Replaying? && r.value.1.mode.prevTime == now
    ensures b.mode.Replaying? ==>
      var t := TakeRows(b.mode.rest, ReplayCount(b.mode.prevTime, now, b.samplingRate), env.codec);
      && (!t.2 ==> r == Ok((NoFrames, b.(totalData := b.totalData + t.0, mode := Replaying(t.1, now)))))
      && (t.2 ==>
            var w := Clip(b.totalData + t.0, b.numPoints);
            && (r.Ok? <==> Rectangular(w) && forall i :: 0 <= i < |b.exg| ==> b.exg[i] < Width(w))
            && (r.Ok? ==> r.value == (ParseData(w, b.exg, b.samplingRate, env.sdk).value,
                                      b.(totalData := w, mode := Replaying(t.1, now)))))
  {
    match b.mode
    case Unconnected => Err(SdkError)
    case Streaming(saved) =>
      if |incoming| > 0 then ClipAndParse(b.(totalData := b.totalData + incoming, mode := Streaming(saved + incoming)), env.sdk)
      else
        assert b.totalData + incoming == b.totalData && saved + incoming == saved;
        ClipAndParse(b, env.sdk)
    case Replaying(rest, prevTime) =>
      ReplayTick(b, rest, ReplayCount(prevTime, now, b.samplingRate), now, env.sdk, env.codec)
  }

  /** Live mode logs what it plots: a successful read leaves the session file
      and the unclipped window grown by exactly the same rows, so the window
      always ends with the newest saved rows. */
  lemma LiveSavesWhatItPlots(b: CytonDaisy, now: real, incoming: seq<Row>, env: Env)
    requires b.mode.Streaming?
    requires ReadData(b, now, incoming, env).Ok?
    requires |incoming| <= b.numPoints
    ensures var b2 := ReadData(b, now, incoming, env).value.1;
      && b2.mode.Streaming?
      && b2.mode.saved == b.mode.saved + incoming
      && IsSuffix(incoming, b2.totalData)
  {
    var grown := b.totalData + incoming;
    if |incoming| > 0 {
      var w := Clip(grown, b.numPoints);
      assert w[|w| - |incoming|..] == incoming;
    }
  }

  /** A live board's window stays exactly `num_points` rows long: a read
      appends and clips, so a full window stays full. */
  lemma LiveWindowStaysFull(b: CytonDaisy, now: real, incoming: seq<Row>, env: Env)
    requires b.mode.Streaming? && |b.totalData| == b.numPoints
    requires ReadData(b, now, incoming, env).Ok?
    ensures ReadData(b, now, incoming, env).value.1.mode.Streaming?
    ensures |ReadData(b, now, incoming, env).value.1.totalData| == b.numPoints
  {
  }

  /** The first live read after `connect`: the window is the zero seed
      followed by the batch, cut to `num_points` rows, and the session log
      holds exactly the batch. */
  lemma {:induction false} FirstLiveRead(b: CytonDaisy, t: real, now: real, incoming: seq<Row>, env: Env)
    requires Connect(b, None, t).Ok?
    requires ReadData(Connect(b, None, t).value, now, incoming, env).Ok?
    ensures var b2 := ReadData(Connect(b, None, t).value, now, incoming, env).value.1;
      && b2.mode == Streaming(incoming)
      && b2.totalData == Clip(Zeros(b.numPoints, BoardColumns) + incoming, b.numPoints)
      && |b2.totalData| == b.numPoints
  {
    var c := Connect(b, None, t).value;
    assert c.totalData == Zeros(b.numPoints, BoardColumns);
    assert c.mode.saved + incoming == incoming;
  }

  /** Replay pacing has no speed factor: the rows a replay tick asks for
      are the whole sample periods in the time elapsed since the last tick. */
  lemma ReplayPacing(prevTime: real, now: real, rate: nat)
    requires now >= prevTime
    ensures var k := ReplayCount(prevTime, now, rate);
      && k >= 0
      && k as real * 1000.0 <= (now - prevTime) * rate as real
      && (now - prevTime) * rate as real < (k + 1) as real * 1000.0
  {
    var u := (now - prevTime) * rate as real / 1000.0;
    assert u * 1000.0 == (now - prevTime) * rate as real;
  }

  /** `get_channel_color(ch)`: colour `(ch - 1) mod 8`, Python's `%` being
      non-negative for a positive divisor like Dafny's. */
  function ChannelColor(ch: int): (c: Color)
    ensures c in Colors
    ensures c == Colors[(ch - 1) % 8]
  {
    Colors[(ch - 1) % 8]
  }

  /** Channels share a colour exactly when they are a multiple of eight
      apart, because the eight colours are distinct. */
  lemma SameColorIff(a: int, b: int)
    ensures ChannelColor(a) == ChannelColor(b) <==> (a - b) % 8 == 0
  {
    var i, j := (a - 1) % 8, (b - 1) % 8;
    assert forall p, q :: 0 <= p < 8 && 0 <= q < 8 && p != q ==> Colors[p] != Colors[q];
    ModEqual(a - 1, b - 1);
    assert (a - 1) - (b - 1) == a - b;
  }

  /** Two integers leave the same remainder mod 8 exactly when their
      difference is a multiple of 8. */
  lemma ModEqual(x: int, y: int)
    ensures x % 8 == y % 8 <==> (x - y) % 8 == 0
  {
    var qx, qy := x / 8, y / 8;
    var d := x % 8 - y % 8;
    assert x - y == 8 * (qx - qy) + d;
    if d < 0 {
      assert x - y == 8 * (qx - qy - 1) + (d + 8);
    }
  }

  /** Channels eight apart get the same colour. */
  lemma ColorRepeatsEveryEight(ch: int)
    ensures ChannelColor(ch + 8) == ChannelColor(ch)
  {
    SameColorIff(ch + 8, ch);
  }
}
