/** `DataProcessing`: one tick of the streaming pipeline.  Pace the tick
    with the clock, read that many rows from the source, fold them into the
    sliding window, and turn every EXG channel of the window into an
    impedance estimate, a time-domain wave and a power spectrum. */
module Processing {
  import opened Common
  import opened Window
  import opened Pacing
  import opened LogManager
  import opened Sources
  import opened Plots

  /** Seconds of signal the window shows. */
  const WindowSize: nat := 4

  /** `math.sqrt(2)` as the double Python computes. */
  const Sqrt2: real := 1.4142135623730951

  /** Where the samples come from.  A live board is not part of this
      model: its `read_data(n)` is the `liveRead` parameter of `Forward`. */
  datatype Source = Playback(m: Manager) | Live(boardId: int)

  /** The source's `board_id`; a playback that was never started has none. */
  function BoardId(s: Source): Option<int> {
    match s
    case Playback(m) => m.boardId
    case Live(id) => Some(id)
  }

  /** What `start_session` fixes: the source, its sampling rate and the
      window length in rows. */
  datatype Session = Session(source: Source, samplingRate: nat, numPoints: nat)

  /** `DataProcessing`: the speed factor, the session (`data_source`,
      `sampling_rate`, `num_points`; absent before `start_session`), the
      window `total_data` and the clock reading of the previous tick. */
  datatype DataProcessing = DataProcessing(
    speed: real,
    session: Option<Session>,
    totalData: Option<seq<Row>>,
    prevTime: Option<real>)

  /** `DataProcessing()`. */
  function Init(): (dp: DataProcessing)
    ensures dp.speed == 1.0
    ensures dp.session.None? && dp.totalData.None? && dp.prevTime.None?
  {
    DataProcessing(1.0, None, None, None)
  }

  /** `start_session(source)`: look up the sampling rate, size the window
      `rate * window_size` rows, and forget the previous tick so that the
      next one only records the time.  The window is kept.  A source with
      no board id, or an id the SDK rejects, raises. */
  function StartSession(dp: DataProcessing, source: Source, sdk: Sdk): (r: Result<DataProcessing>)
    ensures r.Ok? <==> BoardId(source).Some? && sdk.samplingRate(BoardId(source).value).Some?
    ensures r.Err? ==> r.error == SdkError
    ensures r.Ok? ==>
      && r.value.session.Some?
      && r.value.session.value.source == source
      && r.value.session.value.samplingRate == sdk.samplingRate(BoardId(source).value).value
      && r.value.session.value.numPoints == r.value.session.value.samplingRate * WindowSize
      && r.value.prevTime.None?
      && r.value.totalData == dp.totalData
      && r.value.speed == dp.speed
  {
    match BoardId(source)
    case None => Err(SdkError)
    case Some(id) =>
      match sdk.samplingRate(id)
      case None => Err(SdkError)
      case Some(rate) => Ok(dp.(session := Some(Session(source, rate, rate * WindowSize)), prevTime := None))
  }

  /** Starting a session again on the same source changes nothing more:
      the session depends only on the source and the SDK, never on the
      session it replaces. */
  lemma StartSessionTwice(dp: DataProcessing, source: Source, sdk: Sdk)
    requires StartSession(dp, source, sdk).Ok?
    ensures StartSession(StartSession(dp, source, sdk).value, source, sdk) == StartSession(dp, source, sdk)
  {
  }

  /** Two pipelines started on the same source get the same session, the
      same window length and a forgotten previous tick, whatever they held
      before; only the window and the speed are carried over. */
  lemma StartSessionForgetsPast(dp1: DataProcessing, dp2: DataProcessing, source: Source, sdk: Sdk)
    requires StartSession(dp1, source, sdk).Ok?
    ensures StartSession(dp2, source, sdk).Ok?
    ensures StartSession(dp1, source, sdk).value.session == StartSession(dp2, source, sdk).value.session
    ensures StartSession(dp1, source, sdk).value.prevTime == StartSession(dp2, source, sdk).value.prevTime
  {
  }

  // ---------------------------------------------------------------------
  // Impedance

  /** The impedance formula before the clamp. */
  function RawImpedance(env: Env, stddev: real): real {
    Sqrt2 * stddev * 0.000001 / env.driveAmps - env.baseImpedanceOhms
  }

  /** `calculate_impedance`: the formula, floored at zero. */
  function Impedance(env: Env, stddev: real): (r: real)
    ensures r >= 0.0
    ensures r >= RawImpedance(env, stddev)
    ensures RawImpedance(env, stddev) >= 0.0 ==> r == RawImpedance(env, stddev)
    ensures RawImpedance(env, stddev) < 0.0 ==> r == 0.0
  {
    var z := RawImpedance(env, stddev);
    if z < 0.0 then 0.0 else z
  }

  /** A noisier channel never reads as a lower impedance. */
  lemma ImpedanceMonotonic(env: Env, s1: real, s2: real)
    requires s1 <= s2
    ensures Impedance(env, s1) <= Impedance(env, s2)
  {
    var c := Sqrt2 * 0.000001;
    assert Sqrt2 * s1 * 0.000001 == c * s1;
    assert Sqrt2 * s2 * 0.000001 == c * s2;
    DivideMonotonic(c * s1, c * s2, env.driveAmps);
  }

  lemma DivideMonotonic(a: real, b: real, d: real)
    requires a <= b && d > 0.0
    ensures a / d <= b / d
  {
    assert b / d - a / d == (b - a) / d;
  }

  /** A channel is reported as zero ohms exactly when its spread is at most
      the spread the base impedance accounts for. */
  lemma ZeroImpedanceThreshold(env: Env, stddev: real)
    ensures Impedance(env, stddev) == 0.0 <==>
      Sqrt2 * stddev * 0.000001 / env.driveAmps <= env.baseImpedanceOhms
  {
  }

  // ---------------------------------------------------------------------
  // Spectrum

  /** `channel_data[-nfft-1:-1]`: the `nfft` samples just before the last
      one, or all but the last when the series is shorter. */
  function PsdInput(series: seq<real>, nfft: int): (r: seq<real>)
    ensures nfft >= 0 ==> r == series[Max(0, |series| - nfft - 1)..Max(0, |series| - 1)]
  {
    PySlice(series, -nfft - 1, -1)
  }

  /** The length of the spectrum input: `nfft` once the window holds more
      than `nfft` samples, one short of the window before that. */
  lemma PsdInputLength(series: seq<real>, nfft: nat)
    ensures |series| >= nfft + 1 ==> |PsdInput(series, nfft)| == nfft
    ensures 1 <= |series| <= nfft ==> PsdInput(series, nfft) == series[..|series| - 1]
    ensures |series| == 0 ==> PsdInput(series, nfft) == []
  {
  }

  /** `psd(channel_data)`: Welch's method over `PsdInput`, with `nfft` the
      power of two nearest the sampling rate and a 75 % overlap truncated to
      an integer; the result is `(amplitudes, frequencies)`. */
  function Psd(series: seq<real>, rate: nat, sdk: Sdk): (seq<real>, seq<real>) {
    var nfft := sdk.nearestPowerOfTwo(rate);
    sdk.psdWelch(PsdInput(series, nfft), nfft, Trunc(0.75 * nfft as real), rate)
  }

  // ---------------------------------------------------------------------
  // Channels

  /** What one tick emits: per EXG channel, in channel order. */
  datatype Channels = Channels(impedance: seq<real>, wave: seq<Function>, fft: seq<Function>)

  /** The wave of one channel: the filtered series over the time axis
      `linspace(-window_size, 0, num_points)`. */
  function ChannelWave(series: seq<real>, rate: nat, numPoints: nat, sdk: Sdk): Function {
    Function(Linspace(-(WindowSize as real), 0.0, numPoints), sdk.filterChain(series, rate))
  }

  /** The spectrum of one channel, plotted as frequency against amplitude. */
  function ChannelFft(series: seq<real>, rate: nat, sdk: Sdk): Function {
    var (amp, freq) := Psd(sdk.filterChain(series, rate), rate, sdk);
    Function(freq, amp)
  }

  /** The loop of `forward` over the EXG channels.  The impedance is taken
      from the raw column, before the in-place filters run; a channel past
      the window's width raises `IndexError`. */
  function ProcessChannels(window: seq<Row>, exg: seq<nat>, rate: nat, numPoints: nat, env: Env): (r: Result<Channels>)
    requires Rectangular(window)
    ensures r.Ok? <==> forall i :: 0 <= i < |exg| ==> exg[i] < Width(window)
    ensures r.Err? ==> r.error == IndexError
    ensures r.Ok? ==>
      && |r.value.impedance| == |exg| && |r.value.wave| == |exg| && |r.value.fft| == |exg|
      && forall i :: 0 <= i < |exg| ==>
           && r.value.impedance[i] == Impedance(env, env.sdk.stddev(Column(window, exg[i])))
           && r.value.wave[i] == ChannelWave(Column(window, exg[i]), rate, numPoints, env.sdk)
           && r.value.fft[i] == ChannelFft(Column(window, exg[i]), rate, env.sdk)
    decreases |exg|
  {
    if |exg| == 0 then Ok(Channels([], [], []))
    else if exg[0] >= Width(window) then Err(IndexError)
    else
      var rest :- ProcessChannels(window, exg[1..], rate, numPoints, env);
      var series := Column(window, exg[0]);
      Ok(Channels(
        [Impedance(env, env.sdk.stddev(series))] + rest.impedance,
        [ChannelWave(series, rate, numPoints, env.sdk)] + rest.wave,
        [ChannelFft(series, rate, env.sdk)] + rest.fft))
  }

  // ---------------------------------------------------------------------
  // forward

  /** What `forward` returns: no update (`None, None`), or the three lists.
      `batch` is the rows read by the tick, kept so that contracts can speak
      of them. */
  datatype Outcome =
    | NoUpdate(dp: DataProcessing)
    | Update(dp: DataProcessing, batch: seq<Row>, out: Channels)

  /** `read_data(samples)` on the session's source.  A playback read whose
      rows are of unequal length returns `None`, on which `len` raises
      `TypeError`. */
  function ReadSource(source: Source, n: int, codec: Codec, liveRead: int -> seq<Row>): (r: Result<(seq<Row>, Source)>)
    ensures source.Live? ==> r == Ok((liveRead(n), source))
    ensures source.Playback? ==>
      var read := Read(source.m, n, codec);
      && (read.Err? ==> r == Err(read.error))
      && (read.Ok? && read.value.0.None? ==> r == Err(TypeError))
      && (read.Ok? && read.value.0.Some? ==> r == Ok((read.value.0.value, Playback(read.value.1))))
      && (r.Ok? ==> |r.value.0| <= Max(n, 0))
  {
    match source
    case Live(_) => Ok((liveRead(n), source))
    case Playback(m) =>
      ReadStaysWithinRequest(m, n, codec);
      var (rows, m2) :- Read(m, n, codec);
      if rows.None? then Err(TypeError) else Ok((rows.value, Playback(m2)))
  }

  lemma ReadStaysWithinRequest(m: Manager, n: int, codec: Codec)
    ensures Read(m, n, codec).Ok? && Read(m, n, codec).value.0.Some? ==>
      |Read(m, n, codec).value.0.value| <= Max(n, 0)
  {
    if Read(m, n, codec).Ok? && Read(m, n, codec).value.0.Some? {
      ReadAtMost(m, n, codec);
    }
  }

  /** The rows the window grows from: the current window, or on the first
      batch `num_points` zero rows as wide as that batch. */
  function Seed(totalData: Option<seq<Row>>, numPoints: nat, width: nat): (r: seq<Row>)
    ensures totalData.None? ==> r == Zeros(numPoints, width)
    ensures totalData.Some? ==> r == totalData.value
  {
    if totalData.None? then Zeros(numPoints, width) else totalData.value
  }

  /** The window holds exactly `num_points` rows whenever it exists. */
  predicate WindowFull(dp: DataProcessing) {
    dp.session.Some? && dp.totalData.Some? ==> |dp.totalData.value| == dp.session.value.numPoints
  }

  /** The source's EXG channels as the SDK reports them; `None` when the
      source has no board id or the SDK rejects it. */
  function ExgOf(source: Source, sdk: Sdk): (r: Option<seq<nat>>)
    ensures r.Some? <==> BoardId(source).Some? && sdk.exgChannels(BoardId(source).value).Some?
    ensures r.Some? ==> r.value == sdk.exgChannels(BoardId(source).value).value
  {
    match BoardId(source)
    case None => None
    case Some(id) => sdk.exgChannels(id)
  }

  /** `forward()` at clock reading `now`: with no source, nothing.
      Otherwise ask the pacing for a row count, read that many rows from
      the source and record the tick; an empty read ends the tick.  A
      non-empty read is appended to the window (seeded with zeros on the
      first batch) and clipped; the window is transposed (ragged rows raise
      `ValueError`), and every EXG channel of the source's board becomes an
      impedance, a wave and a spectrum. */
  function Forward(dp: DataProcessing, now: real, env: Env, liveRead: int -> seq<Row>): (r: Result<Outcome>)
    ensures dp.session.None? ==> r == Ok(NoUpdate(dp))
    ensures dp.session.Some? ==>
      var s := dp.session.value;
      var k := UnprocessedSamples(dp.prevTime, now, s.samplingRate, dp.speed);
      && (k.Err? ==> r == Err(ZeroDivisionError))
      && (k.Ok? ==>
            var read := ReadSource(s.source, k.value, env.codec, liveRead);
            && (read.Err? ==> r == Err(read.error))
            && (read.Ok? ==>
                  var (batch, source) := read.value;
                  var ticked := dp.(session := Some(s.(source := source)), prevTime := Some(now));
                  && (|batch| == 0 ==> r == Ok(NoUpdate(ticked)))
                  && (|batch| > 0 ==>
                        var window := Clip(Seed(dp.totalData, s.numPoints, |batch[0]|) + batch, s.numPoints);
                        && (!Rectangular(window) ==> r == Err(ValueError))
                        && (Rectangular(window) && ExgOf(source, env.sdk).None? ==> r == Err(SdkError))
                        && (Rectangular(window) && ExgOf(source, env.sdk).Some? ==>
                              var exg := ExgOf(source, env.sdk).value;
                              var out := ProcessChannels(window, exg, s.samplingRate, s.numPoints, env);
                              && (out.Err? ==> r == Err(IndexError))
                              && (out.Ok? ==> r == Ok(Update(ticked.(totalData := Some(window)), batch, out.value)))))))
    ensures r.Ok? && r.value.NoUpdate? ==> r.value.dp.totalData == dp.totalData
    ensures r.Ok? && dp.session.Some? ==>
      && r.value.dp.prevTime == Some(now)
      && r.value.dp.speed == dp.speed
      && r.value.dp.session.Some?
      && r.value.dp.session.value.samplingRate == dp.session.value.samplingRate
      && r.value.dp.session.value.numPoints == dp.session.value.numPoints
    ensures r.Ok? && r.value.Update? ==>
      var n := dp.session.value.numPoints;
      var b := r.value.batch;
      && dp.session.Some?
      && |b| > 0
      && r.value.dp.totalData == Some(Clip(Seed(dp.totalData, n, |b[0]|) + b, n))
      && |r.value.out.impedance| == |r.value.out.wave| == |r.value.out.fft|
      && (forall i :: 0 <= i < |r.value.out.wave| ==> |r.value.out.wave[i].x| == n)
      && (forall i :: 0 <= i < |r.value.out.impedance| ==> r.value.out.impedance[i] >= 0.0)
    ensures WindowFull(dp) && r.Ok? ==> WindowFull(r.value.dp)
  {
    match dp.session
    case None => Ok(NoUpdate(dp))
    case Some(s) =>
      var samples :- UnprocessedSamples(dp.prevTime, now, s.samplingRate, dp.speed);
      var (batch, source) :- ReadSource(s.source, samples, env.codec, liveRead);
      var ticked := dp.(session := Some(s.(source := source)), prevTime := Some(now));
      if |batch| == 0 then Ok(NoUpdate(ticked))
      else
        var window := Clip(Seed(dp.totalData, s.numPoints, |batch[0]|) + batch, s.numPoints);
        if !Rectangular(window) then Err(ValueError)
        else
          match ExgOf(source, env.sdk)
          case None => Err(SdkError)
          case Some(exg) =>
            var out :- ProcessChannels(window, exg, s.samplingRate, s.numPoints, env);
            Ok(Update(ticked.(totalData := Some(window)), batch, out))
  }

  /** What a tick of a playback consumes: an update's batch is the next
      rows of the recording, converted, in file order; the recording's
      cursor moves past exactly those rows; and there are no more of them
      than the pacing asked for. */
  lemma ForwardConsumesRecording(dp: DataProcessing, now: real, env: Env, liveRead: int -> seq<Row>)
    requires dp.session.Some? && dp.session.value.source.Playback?
    requires Forward(dp, now, env, liveRead).Ok? && Forward(dp, now, env, liveRead).value.Update?
    ensures var s := dp.session.value;
      var p := s.source.m.parser;
      var r := Forward(dp, now, env, liveRead).value;
      var k := UnprocessedSamples(dp.prevTime, now, s.samplingRate, dp.speed);
      && k.Ok?
      && 0 < |r.batch| <= k.value
      && r.dp.session.value.source.Playback?
      && r.dp.session.value.source.m.parser.pos == p.pos + |r.batch|
      && r.dp.session.value.source.m.parser.file == p.file
      && forall i :: 0 <= i < |r.batch| ==> ToFloats(p.file[p.pos + i], env.codec) == Some(r.batch[i])
  {
    var s := dp.session.value;
    var k := UnprocessedSamples(dp.prevTime, now, s.samplingRate, dp.speed);
    ReadAtMost(s.source.m, k.value, env.codec);
  }

  /** The first tick after a session (re)starts reads nothing from a
      playback: it only records the time, and the window is untouched. */
  lemma FirstTickIsIdle(dp: DataProcessing, now: real, env: Env, liveRead: int -> seq<Row>)
    requires dp.session.Some? && dp.session.value.source.Playback?
    requires dp.session.value.source.m.parser.isOpen
    requires dp.prevTime.None?
    ensures Forward(dp, now, env, liveRead).Ok?
    ensures var r := Forward(dp, now, env, liveRead).value;
      && r.NoUpdate?
      && r.dp == dp.(prevTime := Some(now))
  {
    var m := dp.session.value.source.m;
    assert ReadRows(m.parser, 0, env.codec) == Ok(([], m.parser));
    assert Read(m, 0, env.codec) == Ok((Some([]), m));
    assert dp.session.value.(source := Playback(m)) == dp.session.value;
  }

  /** One tick of a running session in terms of the batches read so far:
      the window after ticks that read `batches` is the `Fill` of the zero
      seed with them, and a tick that reads `b` extends the run by `b`. */
  lemma {:induction false} ForwardExtendsRun(dp: DataProcessing, now: real, env: Env, liveRead: int -> seq<Row>,
                                              width: nat, batches: seq<seq<Row>>)
    requires dp.session.Some?
    requires var n := dp.session.value.numPoints;
      if |batches| == 0 then dp.totalData.None?
      else dp.totalData == Some(Fill(Zeros(n, width), batches, n))
    requires Forward(dp, now, env, liveRead).Ok? && Forward(dp, now, env, liveRead).value.Update?
    requires |batches| == 0 ==> |Forward(dp, now, env, liveRead).value.batch[0]| == width
    ensures var r := Forward(dp, now, env, liveRead).value;
      var n := dp.session.value.numPoints;
      r.dp.totalData == Some(Fill(Zeros(n, width), batches + [r.batch], n))
  {
    var r := Forward(dp, now, env, liveRead).value;
    var all := batches + [r.batch];
    assert all[..|all| - 1] == batches;
    assert all[|all| - 1] == r.batch;
  }

  /** Chronological window: after ticks that read `batches` the window is
      exactly the newest `num_points` rows of the zero seed followed by
      every batch in read order; once `num_points` real rows have arrived no
      zero row is left. */
  lemma WindowAfterRun(width: nat, batches: seq<seq<Row>>, numPoints: nat)
    requires |batches| > 0
    ensures var w := Fill(Zeros(numPoints, width), batches, numPoints);
      && |w| == numPoints
      && w == Clip(Zeros(numPoints, width) + Flatten(batches), numPoints)
      && (|Flatten(batches)| >= numPoints ==> w == Flatten(batches)[|Flatten(batches)| - numPoints..])
  {
    var z := Zeros(numPoints, width);
    var f := Flatten(batches);
    FillKeepsNewest(z, batches, numPoints);
    FillBound(z, batches, numPoints);
    if |f| >= numPoints {
      assert (z + f)[|z + f| - numPoints..] == f[|f| - numPoints..];
    }
  }

  // ---------------------------------------------------------------------
  // reset

  /** `reset` as written: for a playback source it calls `reset()` on the
      `PlaybackManager`, which defines no such method, so it raises
      `AttributeError`; any other state is left alone. */
  function ResetAsWritten(dp: DataProcessing): (r: Result<DataProcessing>)
    ensures (dp.session.Some? && dp.session.value.source.Playback?) <==> r.Err?
    ensures r.Err? ==> r.error == AttributeError
    ensures r.Ok? ==> r.value == dp
  {
    match dp.session
    case Some(Session(Playback(_), _, _)) => Err(AttributeError)
    case _ => Ok(dp)
  }

  /** `reset` as evidently intended: rewind the recording, drop the window
      and start the session again on the rewound source.  Only a playback
      session is affected. */
  function Reset(dp: DataProcessing, env: Env): (r: Result<DataProcessing>)
    ensures !(dp.session.Some? && dp.session.value.source.Playback?) ==> r == Ok(dp)
    ensures dp.session.Some? && dp.session.value.source.Playback? && r.Ok? ==>
      && r.value.totalData.None?
      && r.value.prevTime.None?
      && r.value.speed == dp.speed
      && r.value.session.Some? && r.value.session.value.source.Playback?
      && r.value.session.value.source.m.parser.pos == 2
      && r.value.session.value.source.m.parser.isOpen
      && r.value.session.value.source.m.parser.file == dp.session.value.source.m.parser.file
  {
    match dp.session
    case Some(Session(Playback(m), _, _)) =>
      var m2 :- Rewind(m, env.codec);
      StartSession(dp.(totalData := None), Playback(m2), env.sdk)
    case _ => Ok(dp)
  }

  /** Resetting a playback session always raises as written; the corrected
      reset succeeds whenever the recording can be reopened and its board is
      known to the SDK. */
  lemma ResetOfPlayback(dp: DataProcessing, env: Env)
    requires dp.session.Some? && dp.session.value.source.Playback?
    requires Begin(dp.session.value.source.m.parser, env.codec).Ok?
    requires env.sdk.samplingRate(Begin(dp.session.value.source.m.parser, env.codec).value.0).Some?
    ensures ResetAsWritten(dp) == Err(AttributeError)
    ensures Reset(dp, env).Ok?
  {
  }

  /** After a reset the playback starts over: the next tick is idle and the
      tick after it seeds a fresh window. */
  lemma ResetReplays(dp: DataProcessing, env: Env, now: real, liveRead: int -> seq<Row>)
    requires dp.session.Some? && dp.session.value.source.Playback?
    requires Reset(dp, env).Ok?
    ensures var d := Reset(dp, env).value;
      && Forward(d, now, env, liveRead) == Ok(NoUpdate(d.(prevTime := Some(now))))
      && d.totalData.None?
  {
    FirstTickIsIdle(Reset(dp, env).value, now, env, liveRead);
  }

  // ---------------------------------------------------------------------
  // Channel lists

  /** `range(lo, hi)`. */
  function Range(lo: nat, hi: nat): (r: seq<nat>)
    ensures |r| == if lo <= hi then hi - lo else 0
    ensures forall i :: 0 <= i < |r| ==> r[i] == lo + i
  {
    if lo <= hi then seq(hi - lo, i => lo + i) else []
  }

  /** The EXG channels to show when the SDK cannot say: 1 to 16. */
  function FallbackExg(): seq<nat> {
    Range(1, 17)
  }

  /** `get_exg_channels` as written: `except BrainFlowError or
      AttributeError` evaluates to `except BrainFlowError`, so with no data
      source the `AttributeError` escapes; an SDK failure falls back to 1..16. */
  function GetExgChannelsAsWritten(dp: DataProcessing, sdk: Sdk): (r: Result<seq<nat>>)
    ensures dp.session.None? <==> r.Err?
    ensures r.Err? ==> r.error == AttributeError
    ensures r.Ok? ==> r == Ok(GetExgChannels(dp, sdk))
  {
    match dp.session
    case None => Err(AttributeError)
    case Some(s) => Ok(GetExgChannels(dp, sdk))
  }

  /** `get_exg_channels` as evidently intended: the SDK's EXG channels of the
      board, or 1..16 when there is no data source or the SDK raises.  A
      missing board id counts as an SDK failure. */
  function GetExgChannels(dp: DataProcessing, sdk: Sdk): (r: seq<nat>)
    ensures dp.session.Some? && BoardId(dp.session.value.source).Some?
            && sdk.exgChannels(BoardId(dp.session.value.source).value).Some? ==>
      r == sdk.exgChannels(BoardId(dp.session.value.source).value).value
    ensures !(dp.session.Some? && BoardId(dp.session.value.source).Some?
              && sdk.exgChannels(BoardId(dp.session.value.source).value).Some?) ==>
      |r| == 16 && forall i :: 0 <= i < 16 ==> r[i] == i + 1
  {
    match dp.session
    case None => FallbackExg()
    case Some(s) =>
      match BoardId(s.source)
      case None => FallbackExg()
      case Some(id) =>
        match sdk.exgChannels(id)
        case None => FallbackExg()
        case Some(chs) => chs
  }

  /** Before any session the channel query raises as written, while the
      corrected one answers with the fallback channels 1..16. */
  lemma ExgChannelsWithoutSource(sdk: Sdk)
    ensures GetExgChannelsAsWritten(Init(), sdk) == Err(AttributeError)
    ensures GetExgChannels(Init(), sdk) == FallbackExg()
  {
  }

  /** `get_ecg_channels`: channels 9, 10 and 11. */
  function GetEcgChannels(): (r: seq<nat>)
    ensures |r| == 3
    ensures forall i :: 0 <= i < 3 ==> r[i] == 9 + i
  {
    Range(9, 12)
  }
}
