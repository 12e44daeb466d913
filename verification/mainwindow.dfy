/** The control logic of `MainWindow`: the timer tick `update`, the
    play/pause toggle, the speed slider, the EEG/ECG split of the plotted
    channels and the bulk channel checkboxes.  Widgets are reduced to the
    state these handlers read and write. */
module MainWindow {
  import opened Common
  import opened Sources
  import opened Plots
  import opened Processing

  // ---------------------------------------------------------------------
  // splitWaves

  /** The items at positions `i` (0-based) whose channel `i + 1` is in
      `ecg` (`want` true) or is not (`want` false), in their original
      order. */
  function Keep<T>(waves: seq<T>, ecg: seq<int>, want: bool): (r: seq<T>)
    ensures |r| <= |waves|
  {
    if |waves| == 0 then []
    else
      var n := |waves|;
      Keep(waves[..n - 1], ecg, want) + (if (n in ecg) == want then [waves[n - 1]] else [])
  }

  /** `splitWaves(waves)`: wave `i` goes to the ECG list when channel
      `i + 1` is an ECG channel and to the EEG list otherwise. */
  method SplitWaves<T>(waves: seq<T>, ecg: seq<int>) returns (eeg: seq<T>, ecgWaves: seq<T>)
    ensures eeg == Keep(waves, ecg, false)
    ensures ecgWaves == Keep(waves, ecg, true)
  {
    eeg, ecgWaves := [], [];
    var i := 0;
    while i < |waves|
      invariant 0 <= i <= |waves|
      invariant eeg == Keep(waves[..i], ecg, false)
      invariant ecgWaves == Keep(waves[..i], ecg, true)
    {
      assert waves[..i + 1][..i] == waves[..i];
      if i + 1 in ecg {
        ecgWaves := ecgWaves + [waves[i]];
      } else {
        eeg := eeg + [waves[i]];
      }
      i := i + 1;
    }
    assert waves[..|waves|] == waves;
  }

  /** The positions, counted from 1, of the waves whose channel is (or is
      not) an ECG channel. */
  function Channels(n: nat, ecg: seq<int>, want: bool): (r: seq<int>)
  {
    if n == 0 then [] else Channels(n - 1, ecg, want) + (if (n in ecg) == want then [n] else [])
  }

  /** The split is a partition that keeps order: the two lists together
      are exactly as long as the input, and each one holds the waves at its
      channel positions, in order. */
  lemma {:induction false} SplitPartitions<T>(waves: seq<T>, ecg: seq<int>)
    ensures |Keep(waves, ecg, false)| + |Keep(waves, ecg, true)| == |waves|
    ensures var chs := Channels(|waves|, ecg, true);
      && |Keep(waves, ecg, true)| == |chs|
      && forall k :: 0 <= k < |chs| ==> 1 <= chs[k] <= |waves| && Keep(waves, ecg, true)[k] == waves[chs[k] - 1]
    ensures var chs := Channels(|waves|, ecg, false);
      && |Keep(waves, ecg, false)| == |chs|
      && forall k :: 0 <= k < |chs| ==> 1 <= chs[k] <= |waves| && Keep(waves, ecg, false)[k] == waves[chs[k] - 1]
  {
    if |waves| > 0 {
      var init := waves[..|waves| - 1];
      SplitPartitions(init, ecg);
      ChannelsPick(waves, ecg, true);
      ChannelsPick(waves, ecg, false);
    }
  }

  /** One step of `SplitPartitions`: the last wave joins exactly the list
      its channel belongs to. */
  lemma ChannelsPick<T>(waves: seq<T>, ecg: seq<int>, want: bool)
    requires |waves| > 0
    requires var init := waves[..|waves| - 1];
      var chs := Channels(|init|, ecg, want);
      && |Keep(init, ecg, want)| == |chs|
      && forall k :: 0 <= k < |chs| ==> 1 <= chs[k] <= |init| && Keep(init, ecg, want)[k] == init[chs[k] - 1]
    ensures var chs := Channels(|waves|, ecg, want);
      && |Keep(waves, ecg, want)| == |chs|
      && forall k :: 0 <= k < |chs| ==> 1 <= chs[k] <= |waves| && Keep(waves, ecg, want)[k] == waves[chs[k] - 1]
  {
    var init := waves[..|waves| - 1];
    var prev := Channels(|init|, ecg, want);
    var chs := Channels(|waves|, ecg, want);
    assert Channels(|waves|, ecg, want) == prev + (if (|waves| in ecg) == want then [|waves|] else []);
    forall k | 0 <= k < |prev|
      ensures 1 <= chs[k] <= |waves| && Keep(waves, ecg, want)[k] == waves[chs[k] - 1]
    {
      assert init[prev[k] - 1] == waves[prev[k] - 1];
    }
  }

  /** With ECG channels 9, 10 and 11 and sixteen waves, the ECG list is
      waves 9 to 11 and the EEG list is the other thirteen, in order. */
  lemma SplitSixteenChannels<T>(waves: seq<T>)
    requires |waves| == 16
    ensures Keep(waves, [9, 10, 11], true) == waves[8..11]
    ensures Keep(waves, [9, 10, 11], false) == waves[..8] + waves[11..]
  {
    SixteenEcg(waves);
    SixteenEeg(waves);
  }

  lemma SixteenEcg<T>(waves: seq<T>)
    requires |waves| == 16
    ensures Keep(waves, [9, 10, 11], true) == waves[8..11]
  {
    var ecg := [9, 10, 11];
    KeepOutside(waves, ecg, 0, 8);
    KeepInside(waves, ecg, 8, 11);
    KeepOutside(waves, ecg, 11, 16);
    assert waves[..16] == waves;
  }

  lemma SixteenEeg<T>(waves: seq<T>)
    requires |waves| == 16
    ensures Keep(waves, [9, 10, 11], false) == waves[..8] + waves[11..]
  {
    var ecg := [9, 10, 11];
    KeepOutside(waves, ecg, 0, 8);
    KeepInside(waves, ecg, 8, 11);
    KeepOutside(waves, ecg, 11, 16);
    assert waves[..16] == waves;
    assert waves[0..8] == waves[..8];
  }

  /** Positions `a + 1` to `b` that are not ECG channels all go, in order,
      to the EEG list. */
  lemma {:induction false} KeepOutside<T>(waves: seq<T>, ecg: seq<int>, a: nat, b: nat)
    requires a <= b <= |waves|
    requires forall p :: a < p <= b ==> p !in ecg
    ensures Keep(waves[..b], ecg, false) == Keep(waves[..a], ecg, false) + waves[a..b]
    ensures Keep(waves[..b], ecg, true) == Keep(waves[..a], ecg, true)
    decreases b - a
  {
    if a < b {
      KeepOutside(waves, ecg, a, b - 1);
      assert waves[..b][..b - 1] == waves[..b - 1];
      assert waves[a..b] == waves[a..b - 1] + [waves[b - 1]];
    }
  }

  /** Positions `a + 1` to `b` that are all ECG channels all go, in order,
      to the ECG list. */
  lemma {:induction false} KeepInside<T>(waves: seq<T>, ecg: seq<int>, a: nat, b: nat)
    requires a <= b <= |waves|
    requires forall p :: a < p <= b ==> p in ecg
    ensures Keep(waves[..b], ecg, true) == Keep(waves[..a], ecg, true) + waves[a..b]
    ensures Keep(waves[..b], ecg, false) == Keep(waves[..a], ecg, false)
    decreases b - a
  {
    if a < b {
      KeepInside(waves, ecg, a, b - 1);
      assert waves[..b][..b - 1] == waves[..b - 1];
      assert waves[a..b] == waves[a..b - 1] + [waves[b - 1]];
    }
  }

  // ---------------------------------------------------------------------
  // checkChannels

  /** `checkChannels(channels, name_format, checked)` over the checkboxes
      the format names, keyed by channel: set every box to `checked`,
      touching only the boxes that differ.  A channel with no box makes
      `findChild` return `None`, on which `isChecked` raises
      `AttributeError`.  Returns the boxes and the channels whose box was
      set, in the order they were set. */
  method CheckChannels(boxes: map<int, bool>, channels: seq<int>, checked: bool)
    returns (r: Result<(map<int, bool>, seq<int>)>)
    ensures r.Ok? <==> forall i :: 0 <= i < |channels| ==> channels[i] in boxes
    ensures r.Err? ==> r.error == AttributeError
    ensures r.Ok? ==> var (after, toggled) := r.value;
      && after.Keys == boxes.Keys
      && (forall i :: 0 <= i < |channels| ==> after[channels[i]] == checked)
      && (forall ch :: ch in boxes && ch !in channels ==> after[ch] == boxes[ch])
      && (forall ch :: ch in toggled <==> ch in channels && boxes[ch] != checked)
      && (forall a, b :: 0 <= a < b < |toggled| ==> toggled[a] != toggled[b])
  {
    var after := boxes;
    var toggled: seq<int> := [];
    var i := 0;
    while i < |channels|
      invariant 0 <= i <= |channels|
      invariant forall j :: 0 <= j < i ==> channels[j] in boxes
      invariant after.Keys == boxes.Keys
      invariant forall j :: 0 <= j < i ==> after[channels[j]] == checked
      invariant forall ch :: ch in boxes && ch !in channels[..i] ==> after[ch] == boxes[ch]
      invariant forall ch :: ch in toggled <==> ch in channels[..i] && boxes[ch] != checked
      invariant forall a, b :: 0 <= a < b < |toggled| ==> toggled[a] != toggled[b]
    {
      var ch := channels[i];
      if ch !in after {
        r := Err(AttributeError);
        return;
      }
      assert channels[..i + 1] == channels[..i] + [ch];
      if after[ch] != checked {
        assert ch !in channels[..i];
        after := after[ch := checked];
        toggled := toggled + [ch];
      }
      i := i + 1;
    }
    assert channels[..i] == channels;
    r := Ok((after, toggled));
  }

  // ---------------------------------------------------------------------
  // Timer tick and play/pause

  /** The window state the handlers read and write: the pipeline, whether
      the timer runs, whether the play button is enabled, and how many
      curves the wave widget holds. */
  datatype Ui = Ui(dp: DataProcessing, looping: bool, playEnabled: bool, waveCurves: nat)

  /** `calculateUpdateSpeed`: the slider position divided by four, so the
      slider's step is a quarter of normal speed. */
  function CalculateUpdateSpeed(slider: int): (speed: real)
    ensures speed * 4.0 == slider as real
  {
    slider as real / 4.0
  }

  /** `playPause`: a stopped timer starts, after the speed is read from the
      slider and the previous tick is forgotten; a running one stops. */
  function PlayPause(ui: Ui, slider: int): (r: Ui)
    ensures !ui.looping ==>
      && r.looping
      && r.dp.speed * 4.0 == slider as real
      && r.dp.prevTime.None?
      && r.dp.session == ui.dp.session && r.dp.totalData == ui.dp.totalData
    ensures ui.looping ==> r == ui.(looping := false)
  {
    if !ui.looping then
      ui.(dp := ui.dp.(speed := CalculateUpdateSpeed(slider), prevTime := None), looping := true)
    else ui.(looping := false)
  }

  /** Where one tick's curves go.  In EEG/ECG mode the wave and fft
      widgets get the EEG channels and the ECG widget the ECG waves, ECG
      scaled by 1e-3 and EEG by 1e-6; otherwise every channel goes to the
      wave and fft widgets at 1e-6.  `singles` pairs each wave with the
      scale of its single-channel plot. */
  datatype Frame = Frame(
    wave: seq<Function>,
    fft: seq<Function>,
    ecg: Option<seq<Function>>,
    singles: seq<(Function, real)>)

  /** What a tick did. */
  datatype Tick = Finished(ui: Ui) | Skipped(ui: Ui) | Refreshed(ui: Ui, frame: Frame)

  /** The refresh plan of `update` for the lists `forward` returned, on a
      wave widget of `waveCurves` curves.  Outside EEG/ECG mode the wave
      widget's `refresh` pads `wave` in place, so the single-channel loop
      then runs over the padded list; in EEG/ECG mode the widgets get fresh
      lists and `wave` is left as it was. */
  function Plan(wave: seq<Function>, fft: seq<Function>, ecgMode: bool, ecg: seq<int>, waveCurves: nat): (f: Frame)
    ensures var listed := if ecgMode then wave else Pad(wave, waveCurves);
      && |f.singles| == |listed|
      && forall i :: 0 <= i < |listed| ==>
           && f.singles[i].0 == listed[i]
           && f.singles[i].1 == (if ecgMode && i + 1 in ecg then 0.001 else 0.000001)
    ensures !ecgMode ==>
      && f.wave == wave && f.fft == fft && f.ecg.None?
      && |f.singles| == Max(|wave|, waveCurves)
      && (forall i :: 0 <= i < |wave| ==> f.singles[i] == (wave[i], 0.000001))
      && (forall i :: |wave| <= i < |f.singles| ==> f.singles[i] == (EmptyFunction(), 0.000001))
    ensures ecgMode ==>
      f.wave == Keep(wave, ecg, false) && f.fft == Keep(fft, ecg, false) && f.ecg == Some(Keep(wave, ecg, true))
  {
    var listed := if ecgMode then wave else Pad(wave, waveCurves);
    var singles := seq(|listed|, i requires 0 <= i < |listed| =>
      (listed[i], if ecgMode && i + 1 in ecg then 0.001 else 0.000001));
    if ecgMode then Frame(Keep(wave, ecg, false), Keep(fft, ecg, false), Some(Keep(wave, ecg, true)), singles)
    else
      assert forall i :: 0 <= i < |wave| ==> listed[i] == listed[..|wave|][i];
      Frame(wave, fft, None, singles)
  }

  /** True when the session replays a file that has reached its end. */
  predicate PlaybackFinished(dp: DataProcessing) {
    dp.session.Some? && dp.session.value.source.Playback? && IsFinished(dp.session.value.source.m)
  }

  /** `update` as written: `_, wave, fft = forward()` unpacks three values,
      but the no-update path of `forward` returns two, which raises
      `ValueError`. */
  function UpdateAsWritten(ui: Ui, now: real, env: Env, liveRead: int -> seq<Row>,
                           ecgMode: bool, ecg: seq<int>): (r: Result<Tick>)
    ensures PlaybackFinished(ui.dp) ==> r == Ok(Finished(ui.(looping := false, playEnabled := false)))
    ensures (!PlaybackFinished(ui.dp) && Forward(ui.dp, now, env, liveRead).Ok?
             && Forward(ui.dp, now, env, liveRead).value.NoUpdate?) ==> r == Err(ValueError)
    ensures r.Ok? && r.value.Refreshed? ==> r == Update(ui, now, env, liveRead, ecgMode, ecg)
  {
    if PlaybackFinished(ui.dp) then Ok(Finished(ui.(looping := false, playEnabled := false)))
    else
      var out :- Forward(ui.dp, now, env, liveRead);
      match out
      case NoUpdate(_) => Err(ValueError)
      case Update(dp, _, ch) => Ok(Refreshed(ui.(dp := dp), Plan(ch.wave, ch.fft, ecgMode, ecg, ui.waveCurves)))
  }

  /** `update` as evidently intended: a finished playback stops the timer
      and disables play without ticking the pipeline; a tick with nothing
      new skips the refresh; otherwise the curves are refreshed. */
  function Update(ui: Ui, now: real, env: Env, liveRead: int -> seq<Row>,
                  ecgMode: bool, ecg: seq<int>): (r: Result<Tick>)
    ensures PlaybackFinished(ui.dp) ==> r == Ok(Finished(ui.(looping := false, playEnabled := false)))
    ensures !PlaybackFinished(ui.dp) ==> (r.Ok? <==> Forward(ui.dp, now, env, liveRead).Ok?)
    ensures !PlaybackFinished(ui.dp) && r.Ok? ==>
      var out := Forward(ui.dp, now, env, liveRead).value;
      && r.value.ui == ui.(dp := out.dp)
      && (r.value.Skipped? <==> out.NoUpdate?)
      && (r.value.Refreshed? ==> r.value.frame == Plan(out.out.wave, out.out.fft, ecgMode, ecg, ui.waveCurves))
  {
    if PlaybackFinished(ui.dp) then Ok(Finished(ui.(looping := false, playEnabled := false)))
    else
      var out :- Forward(ui.dp, now, env, liveRead);
      match out
      case NoUpdate(dp) => Ok(Skipped(ui.(dp := dp)))
      case Update(dp, _, ch) => Ok(Refreshed(ui.(dp := dp), Plan(ch.wave, ch.fft, ecgMode, ecg, ui.waveCurves)))
  }

  /** The first tick after play is pressed on an open, unfinished playback
      consumes no samples: the corrected `update` skips it with the window
      untouched, while the code as written raises `ValueError` on it, so
      playback never gets past its first tick. */
  lemma FirstTickAfterPlay(ui: Ui, slider: int, now: real, env: Env, liveRead: int -> seq<Row>,
                           ecgMode: bool, ecg: seq<int>)
    requires !ui.looping
    requires ui.dp.session.Some? && ui.dp.session.value.source.Playback?
    requires ui.dp.session.value.source.m.parser.isOpen
    requires !IsFinished(ui.dp.session.value.source.m)
    ensures var started := PlayPause(ui, slider);
      && Update(started, now, env, liveRead, ecgMode, ecg).Ok?
      && Update(started, now, env, liveRead, ecgMode, ecg).value.Skipped?
      && Update(started, now, env, liveRead, ecgMode, ecg).value.ui.dp.totalData == ui.dp.totalData
      && UpdateAsWritten(started, now, env, liveRead, ecgMode, ecg) == Err(ValueError)
  {
    var started := PlayPause(ui, slider);
    FirstTickIsIdle(started.dp, now, env, liveRead);
  }
}
