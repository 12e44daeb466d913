# EEG/ECG reader: a Dafny model of the sample pipeline

This project models the core of an EEG/ECG viewer for OpenBCI boards
(Cyton + Daisy, 16 channels). It covers:

- the streaming sample pipeline of `DataProcessing`. Each timer tick is
  paced by the wall clock and reads that many rows from a live board or a
  recorded session. The rows are folded into a sliding window four seconds
  long. Every EXG channel is turned into an impedance estimate, a wave and a
  power spectrum.
- the older, self-contained `CytonDaisyBoard` reader.
- the recorded-session writer and reader, `DataLogger` and `LogParser`.
- the `DataSource` / `PlaybackManager` streaming flag.
- the plot bookkeeping of the `Graph` widget.
- the control logic of the main window's `update`, `playPause`,
  `splitWaves`, `checkChannels` and `calculateUpdateSpeed`.

The model is functional: every object is an immutable datatype and every
method is a function from the old state to the new one. Exceptions are the
`Err` side of a `Result`. The clock reading is a parameter. The BrainFlow
SDK (sampling rates, channel lists, filters, PSD, standard deviation) is a
record of uninterpreted functions (`Common.Sdk`). CSV field conversion is
one too (`Common.Codec`).

Files, one module each:

| file | module | models |
|---|---|---|
| common.dfy | Common | `Result`, Python's `int()` truncation and slicing, NumPy shapes, the SDK record |
| window.dfy | Window | `clip_data` and runs of append-then-clip |
| pacing.dfy | Pacing | `get_unprocessed_samples` and its drift over many ticks |
| logs.dfy | LogManager | `DataLogger`, `LogParser` |
| sources.dfy | Sources | `DataSource`, `PlaybackManager` |
| graph.dfy | Plots | `Function`, `Graph` |
| processing.dfy | Processing | `DataProcessing`, `calculate_impedance` |
| board.dfy | Board | `CytonDaisyBoard` |
| mainwindow.dfy | MainWindow | `update`, `playPause`, `splitWaves`, `checkChannels`, `calculateUpdateSpeed` |

## Model

| member | source | states |
|---|---|---|
| Common.Trunc | python/data_processing.py:97 | `int()` of a float truncates toward zero: the result lies within one of the argument, on the zero side |
| Window.Clip | python/data_processing.py:82-86 | the window keeps `min(len, num_points)` rows, and they are the newest rows of the input in their original order |
| Window.ClipFits | python/data_processing.py:84 | a window that already fits is returned unchanged |
| Window.ClipAppend | python/data_processing.py:47-48 | clipping before an append never changes what the next clip keeps |
| Window.FillKeepsNewest | python/data_processing.py:45-48 | after any run of append-then-clip steps, the window is the newest `num_points` rows of the seed followed by every batch in read order |
| Window.FillBound | python/data_processing.py:45-48 | starting from a seed of at most `num_points` rows, the window never exceeds `num_points` rows, and it holds exactly that many once that many rows have arrived |
| Pacing.UnprocessedSamples | python/data_processing.py:88-97 | the first tick yields 0; later ticks yield the truncated number of sample periods `1000/(rate*speed)` in the elapsed time; a zero `rate*speed` raises `ZeroDivisionError` |
| Pacing.SamplesAreWholePeriods | python/data_processing.py:93-97 | for a forward clock the count `k` satisfies `k*1000 <= elapsed*rate*speed < (k+1)*1000` |
| Pacing.ShortTickDispensesNothing | python/data_processing.py:93-97 | a tick shorter than one sample period yields 0 |
| Pacing.DispensedDrift | python/data_processing.py:93-97 | over any run of ticks the samples dispensed never exceed the samples due, and fall short by less than one per tick, because each tick drops its remainder |
| Pacing.SlowPlaybackStalls | python/data_processing.py:93-97 | at 125 Hz and speed 0.25, ticks less than 32 ms apart never dispense a sample, however many there are |
| Pacing.RemainderIsDropped | python/data_processing.py:96-97 | ticks at 0, 16 and 32 ms span one full sample period at that speed, yet dispense nothing: the remainder is not carried over |
| LogManager.NatToString | python/log_manager.py:35 | `str(n)` is a non-empty string of decimal digits with no leading zero |
| LogManager.DecimalRoundTrip | python/log_manager.py:35 | reading back the digits `str(n)` wrote gives `n` |
| LogManager.NatToStringInjective | python/log_manager.py:35 | distinct record numbers are written as distinct strings |
| LogManager.RecordNamesDistinct | python/log_manager.py:35 | distinct record numbers name distinct files `<n>.csv` |
| LogManager.Header | python/log_manager.py:47-53 | the header row is "Packet Num", one label per EXG channel, one per accel channel, seven "Other", one per analog channel, then "Timestamp" and "Other"; its length is 10 + the three channel counts |
| LogManager.HeaderNamesExgChannels | python/log_manager.py:48 | the number after "EXG Channel " in each EXG header reads back as that channel |
| LogManager.CreateNewRecord | python/log_manager.py:28-53 | the record number is the folder's file count, plus one when `metadata.csv` is absent; the file is `<n>.csv`; the counter then advances; the first row is the board id alone and the second is the header |
| LogManager.NonEmpty | python/log_manager.py:57-58 | the filtered rows are all non-empty, every non-empty input row is kept, and nothing else appears |
| LogManager.NonEmptyAppend | python/log_manager.py:57-58 | filtering a concatenation filters each part and concatenates the results, so kept rows keep their order and their number of copies |
| LogManager.NonEmptyOne | python/log_manager.py:58 | a single row is kept exactly when it is non-empty |
| LogManager.WriteData | python/log_manager.py:55-59 | with no writer nothing changes; otherwise exactly the non-empty rows are appended to the open record, in order |
| LogManager.AppendWritten | python/log_manager.py:57-59 | the loop writes the cells of each non-empty row of the batch after the rows already written, skipping empty rows and keeping the batch's order |
| LogManager.Close | python/log_manager.py:61-65 | afterwards no record is open, and an open record is kept among the closed ones |
| LogManager.CloseTwice | python/log_manager.py:61-65 | a second `close` changes nothing |
| LogManager.Begin | python/log_manager.py:85-95 | exactly two rows are consumed; the id is `int` of the first field with `has_new_data` set, or -1 with it cleared when that field is not an integer; a file shorter than two rows raises `StopIteration`, an empty first row `IndexError` |
| LogManager.NewParser | python/log_manager.py:69-71 | the constructor runs `begin`: the parser stands past the two header rows, and its board id is `int` of the first field with `has_new_data` set, or -1 with it cleared |
| LogManager.ToFloats | python/log_manager.py:101 | a row converts exactly when every field converts, field by field |
| LogManager.ReadRows | python/log_manager.py:97-104 | at most `n` consecutive rows from the cursor, in file order; `has_new_data` is cleared only when the read asks for more rows than remain; a row that does not convert, or a closed file, raises `ValueError` |
| LogManager.ReadData | python/log_manager.py:97-109 | the rows read form an array exactly when they all have the same length; otherwise the result is `None` |
| LogManager.EndOfDataOnlyWhenHit | python/log_manager.py:100-104 | consuming exactly the remaining rows leaves `has_new_data` as it was; only asking for more clears it |
| LogManager.CloseParser | python/log_manager.py:111 | the parser is closed and nothing else changes |
| LogManager.LoadMetadata | python/log_manager.py:73-83 | the second row of `metadata.csv` when the folder holds one, `None` otherwise; a metadata file shorter than two rows raises `StopIteration` |
| LogManager.NameIn | python/log_manager.py:74-76 | a path names a file of the folder exactly when it is the folder, a separator, and the file name |
| LogManager.AfterWrite | python/log_manager.py:75-76 | a write adds its file to the folder listing exactly when the path lies in the folder, and never removes a name |
| LogManager.SaveMetadataAsWritten | python/log_manager.py:21-26 | writes the header row and the metadata row to a path outside the session folder |
| LogManager.SaveMetadata | python/log_manager.py:21-26 | writes the header row and the metadata row to `metadata.csv` inside the session folder |
| LogManager.MetadataLostAsWritten | python/log_manager.py:21-26 | after the as-written save into a folder without metadata, `load_metadata` still finds none |
| LogManager.MetadataRoundTrip | python/log_manager.py:21-26 | after the corrected save, `load_metadata` returns exactly the metadata row that was saved |
| Sources.NewSource | python/data_source.py:2-3 | a new source is not streaming |
| Sources.StartSource | python/data_source.py:5-6 | `start` leaves the source streaming whatever its state |
| Sources.StopSource | python/data_source.py:8-9 | `stop` leaves the source stopped whatever its state |
| Sources.IsStreaming | python/data_source.py:14-15 | the query reports the flag |
| Sources.SourceFlagMachine | python/data_source.py:1-15 | repeating `start` or `stop` is harmless, a stop undoes a start, and a start after a stop streams |
| Sources.NewManager | python/playback.py:6-10 | a new manager is not streaming, has no board id yet, and its parser has consumed the two header rows |
| Sources.StartAsWritten | python/playback.py:12-16 | a streaming manager is left alone; a stopped one always raises, `TypeError` once `begin` succeeds |
| Sources.Start | python/playback.py:12-16 | a streaming manager is left alone; a stopped one is rewound by `begin`, takes its id as board id, and streams |
| Sources.NewPlaybackStart | python/playback.py:14-16 | a freshly opened recording cannot be started as written, but starts under the corrected `start` |
| Sources.Stop | python/playback.py:18-21 | afterwards the manager is stopped; a stopped manager is left alone; a streaming one closes its parser |
| Sources.StopTwice | python/playback.py:18-21 | the parser is closed at most once: a second `stop` changes nothing |
| Sources.RestartRewinds | python/playback.py:12-21 | a start after a stop reopens the same file just past its header rows |
| Sources.Read | python/playback.py:23-24 | the read is the parser's `read_data(n)`, and only the parser changes |
| Sources.ReadAtMost | python/playback.py:23-24 | a read returns at most `n` rows, the next ones of the file in order, and the cursor moves past exactly those |
| Sources.IsFinished | python/playback.py:26-27 | finished exactly when the parser has no new data |
| Sources.FinishedOnlyAtEnd | python/playback.py:26-27 | after a read the playback is finished exactly when it already was or the read asked for more rows than were left |
| Sources.Rewind | python/data_processing.py:32 | rewinding reopens the same file after its header rows, re-reads the board id and keeps the streaming flag |
| Sources.RewindForgetsPosition | python/data_processing.py:32 | two managers over the same file rewind to the same state, however far each had read |
| Plots.EmptyFunction | python/graph.py:6-12 | `Function()` has empty x and y |
| Plots.Scale | python/graph.py:55 | each y value is multiplied by the scale |
| Plots.Pad | python/graph.py:52-54 | the padded list is as long as the longer of the data and the widget, starts with the data, and ends with empty `Function`s |
| Plots.Refresh | python/graph.py:51-55 | the caller's list becomes `Pad(data, len(plots))`: it grows to `max(len(data), len(plots))` with empty `Function`s, its original entries unchanged; plot `i` takes `data[i].x` and `data[i].y` times the scale, and nothing else about it changes |
| Plots.Slot | python/graph.py:35 | `plots[index - 1]` exists exactly when `-len < index <= len`, counting from the end for non-positive indices |
| Plots.SetShown | python/graph.py:33-39 | indices above `len(plots)` are ignored; others toggle exactly the curve `plots[index - 1]` denotes, or raise `IndexError` |
| Plots.HidePlot | python/graph.py:33-35 | for `1 <= index <= len` the result is the widget with only curve `index` taken off, its colour and data unchanged; a larger index is a no-op; an index at or below `-len` raises `IndexError` |
| Plots.ShowPlot | python/graph.py:37-39 | for `1 <= index <= len` the result is the widget with only curve `index` put back, its colour and data unchanged; a larger index is a no-op; an index at or below `-len` raises `IndexError` |
| Plots.ShowUndoesHide | python/graph.py:33-39 | hiding a visible curve and showing it again restores the widget |
| Plots.AddPlot | python/graph.py:41-45 | exactly one empty, visible curve in the given colour is appended |
| Plots.Clear | python/graph.py:47-49 | no curve remains |
| Plots.AddAfterClear | python/graph.py:41-49 | after a clear and any number of `addPlot` calls, the curves are exactly one empty, visible curve per call, in its colour and in call order |
| Plots.AddAllExtends | python/graph.py:41-45 | any number of `addPlot` calls keep the existing curves and append one empty, visible curve per colour, in order |
| Processing.Init | python/data_processing.py:15-22 | speed 1, no source, no window, no previous tick |
| Processing.StartSession | python/data_processing.py:24-28 | the session takes the source, the SDK's sampling rate for its board, and a window of `rate * 4` rows; the previous tick is forgotten and the window itself is kept; a missing or unknown board id raises |
| Processing.StartSessionTwice | python/data_processing.py:24-28 | starting the same source again gives the same state |
| Processing.StartSessionForgetsPast | python/data_processing.py:24-28 | two pipelines started on the same source get the same session and no previous tick, whatever they held before |
| Processing.Impedance | python/data_processing.py:109-114 | the result is never negative; it is `sqrt2*sd*1e-6/drive_amps - base_impedance_ohms` when that is non-negative, and 0 otherwise |
| Processing.ImpedanceMonotonic | python/data_processing.py:109-114 | a larger standard deviation never gives a lower impedance |
| Processing.PsdInput | python/data_processing.py:78 | the spectrum input is the samples from `len-nfft-1` up to but excluding the last one |
| Processing.PsdInputLength | python/data_processing.py:76-78 | that input has `nfft` samples once the window holds more than `nfft`, and is all but the last sample before that |
| Processing.ProcessChannels | python/data_processing.py:54-63 | one impedance, wave and fft per EXG channel, in channel order; the impedance comes from the raw column and the wave and fft from the filtered one; a channel past the window's width raises `IndexError` |
| Processing.ReadSource | python/data_processing.py:41-43 | a live read returns the board's rows; a playback read returns exactly the rows the manager's `read_data(n)` returned, at most `n`, with the manager advanced; its errors pass through, and a ragged read raises `TypeError` at `len` |
| Processing.Forward | python/data_processing.py:36-63 | with no source nothing changes; a zero rate or speed raises `ZeroDivisionError`; otherwise exactly the pacing count is requested from the source and the advanced source is kept; an empty read records the tick and leaves the window alone; a non-empty one is an update whose batch is the rows read, whose window is the seed plus the batch clipped, and whose output is the per-channel processing of that window over the board's EXG channels; ragged windows raise `ValueError`, an unknown board raises, and a channel past the width raises `IndexError`; impedances are non-negative, waves have `num_points` points, and a full window stays full |
| Processing.ExgOf | python/data_processing.py:55 | the EXG channels the SDK reports for the source's board, or none when the board id is missing or rejected |
| Processing.ForwardConsumesRecording | python/data_processing.py:40-48 | on a playback an update's batch is the next rows of the recording, converted, in file order; the cursor moves past exactly those rows; and there are no more than the pacing count |
| Processing.FirstTickIsIdle | python/data_processing.py:88-91 | the first tick after a session (re)starts reads nothing from a playback, records the time, and leaves the window alone |
| Processing.ForwardExtendsRun | python/data_processing.py:45-48 | the window after ticks that read a list of batches is the append-then-clip run of those batches over the zero seed |
| Processing.WindowAfterRun | python/data_processing.py:45-48 | that window has exactly `num_points` rows: the newest rows of the zeros followed by every batch, with no zero row left once `num_points` real rows have arrived |
| Processing.ResetAsWritten | python/data_processing.py:30-34 | for a playback session `reset` raises `AttributeError`; any other state is left alone |
| Processing.Reset | python/data_processing.py:30-34 | only a playback session is affected; it is rewound, the window is dropped, and the previous tick is forgotten |
| Processing.ResetOfPlayback | python/data_processing.py:32 | resetting a playback always fails as written, and succeeds under the corrected reset whenever the file reopens and its board is known |
| Processing.ResetReplays | python/data_processing.py:30-34 | after a reset the next tick is idle and the window starts afresh |
| Processing.GetExgChannelsAsWritten | python/data_processing.py:99-103 | with no data source the `AttributeError` escapes; otherwise the lookup with fallback |
| Processing.GetExgChannels | python/data_processing.py:99-103 | the SDK's EXG channels when the lookup succeeds, and channels 1 to 16 otherwise |
| Processing.ExgChannelsWithoutSource | python/data_processing.py:99-103 | before any session the query raises as written, and answers 1 to 16 when corrected |
| Processing.GetEcgChannels | python/data_processing.py:105-106 | channels 9, 10 and 11 |
| Board.NewBoard | python/board.py:16-33 | the board keeps its id and takes the SDK's EXG channels and sampling rate, with a window of four seconds of samples; a failed SDK lookup raises |
| Board.Connect | python/board.py:35-55 | the window is seeded with `num_points` zero rows of 32 columns; the id, channels, rate and window length are kept; live mode starts an empty log; replay skips the file's header row and notes the time; an empty file raises `StopIteration` |
| Board.ClipData | python/board.py:84-89 | the last `num_points` rows when the input is longer, otherwise the input unchanged |
| Board.TakeRows | python/board.py:74-78 | the rows read are the converted next rows of the file; a complete read returns all `k` of them; a failed one stops at the end of the file or just past the row that failed to convert |
| Board.TakeRowsCompletes | python/board.py:74-78 | the replay loop completes exactly when the next `k` rows exist and all convert |
| Board.TimeAxis | python/board.py:96 | `range(-n, 0)`: `n` points from `-n` to `-1` |
| Board.ParseData | python/board.py:91-100 | one wave and one fft per EXG channel, in order; each wave is the channel's column over `range(-n, 0)`, with x as long as y; a channel past the width raises `IndexError` |
| Board.ClipAndParse | python/board.py:80-82 | the window is clipped and then parsed: the result is Ok exactly when the clipped window is rectangular and every EXG channel fits its width; the frames are the parse of the clipped window, which is kept, and nothing else changes; a ragged window raises `ValueError` |
| Board.ReplayTick | python/board.py:68-82 | a failed replay read returns `(None, None)`, keeps the rows read before the failure, and does not clip; a complete one appends, clips and returns the parse of the clipped window; the rest of the file and the time are noted either way |
| Board.ReadData | python/board.py:59-82 | before `connect` it raises; a live read appends the batch to the log and the window, clips, and returns the parse of the clipped window, Ok exactly when that window is rectangular and wide enough; a replay read takes the paced rows and returns `(None, None)` with the partial rows kept when the file runs out or a row fails, and the parse of the clipped window otherwise; either way the tick's time becomes the reference for the next replay tick |
| Board.LiveSavesWhatItPlots | python/board.py:61-66 | a live read saves exactly the batch, and the window ends with that same batch |
| Board.LiveWindowStaysFull | python/board.py:59-66 | a live window of `num_points` rows keeps exactly that many after every read |
| Board.FirstLiveRead | python/board.py:35-66 | the first live read after `connect` logs exactly the batch and leaves the zero seed plus the batch, clipped to `num_points` rows |
| Board.ReplayPacing | python/board.py:68-71 | replay asks for `k` rows with `k*1000 <= elapsed*rate < (k+1)*1000`, the whole sample periods elapsed, with no speed factor |
| Board.ChannelColor | python/board.py:119-120 | the colour is one of the eight, picked by `(ch - 1) mod 8` |
| Board.SameColorIff | python/board.py:119-120 | two channels share a colour exactly when they are a multiple of eight apart |
| Board.ColorRepeatsEveryEight | python/board.py:119-120 | channels eight apart share a colour |
| MainWindow.SplitWaves | python/main.py:170-178 | wave `i` goes to the ECG list exactly when channel `i + 1` is an ECG channel, and to the EEG list otherwise, in order |
| MainWindow.SplitPartitions | python/main.py:170-178 | the two lists together are as long as the input, and each holds the waves at its channel positions, in order |
| MainWindow.SplitSixteenChannels | python/main.py:170-178 | with ECG channels 9 to 11 and sixteen waves, the ECG list is waves 9 to 11 and the EEG list is the other thirteen |
| MainWindow.CheckChannels | python/main.py:350-354 | afterwards every named box equals `checked` and every other box is unchanged; the boxes set are exactly the named ones that differed, each set once; a missing box raises `AttributeError` |
| MainWindow.CalculateUpdateSpeed | python/main.py:140-141 | the speed is a quarter of the slider position |
| MainWindow.PlayPause | python/main.py:109-119 | starting reads the speed from the slider and forgets the previous tick, leaving the session and window alone; stopping only stops the timer |
| MainWindow.Plan | python/main.py:156-168 | in EEG/ECG mode the wave and fft widgets get the EEG channels and the ECG widget the ECG waves, and the single plots run over `wave` with 1e-3 for ECG channels and 1e-6 otherwise; outside that mode both widgets get everything and the single plots run over `wave` as the wave widget's `refresh` padded it, all at 1e-6 |
| MainWindow.UpdateAsWritten | python/main.py:144-154 | a finished playback stops without ticking; a tick with no update raises `ValueError` at the three-value unpacking |
| MainWindow.Update | python/main.py:144-168 | a finished playback stops the timer and disables play without ticking; otherwise it fails exactly when `forward` does; a tick with no update skips the refresh; an update is refreshed with the plan of its curves on the current wave widget |
| MainWindow.FirstTickAfterPlay | python/main.py:109-116 | after play the first tick on an open, unfinished playback is skipped with the window untouched, and raises as written |

## Left out

- The BrainFlow SDK is uninterpreted. This covers board sessions, `get_board_data`, the channel and sampling-rate lookups, the five in-place filters of `filter_channel` (one function, `filterChain`), `calc_stddev`, `get_nearest_power_of_two`, `get_psd` and `get_psd_welch`. The mean subtraction in `psd` is folded into the Welch call.
- `CytonDaisyBoard.filter_data`: the live batch reaches `Board.ReadData` already filtered and transposed to rows.
- The live board that `main.py` builds as a data source is not part of this model. Its `read_data(n)` is the `liveRead` parameter of `Processing.Forward`.
- `drive_amps` and `base_impedance_ohms` are not defined in the board code shown. They are positive parameters (`Common.Env`).
- Floating point is exact real arithmetic. `math.sqrt(2)` is its decimal double value, and `linspace` is exact.
- File system, CSV tokenising and the clock are parameters. A folder listing is a list of names, a file is its tokenised rows, and a field conversion is `Common.Codec`. A path is a string; only `metadata.csv` and a folder listing after one write are modelled. Creating folders and the timestamped file names are not modelled.
- An `Err` carries no state, but Python has already changed some state before it raises. These changes are lost in the model:
  - `forward` extends and clips `total_data` (data_processing.py:46-48) before the transposition and the channel lookup (lines 53-55) can raise. `Processing.Forward` returns the error and the window as it was.
  - `get_unprocessed_samples` sets `prev_time` (data_processing.py:95) before the division at lines 96-97 can raise `ZeroDivisionError`.
  - `LogParser.read_data`: `next(reader)` consumes a row before its float conversion raises. `LogManager.ReadRows` returns only the error.
  - `PlaybackManager.start`: `begin` has already reopened the file and reset the flag before the `TypeError`. `Sources.StartAsWritten` returns only the error.
- The SDK functions never fail in the model: `filterChain`, `stddev`, `nearestPowerOfTwo`, `psdWelch` and `psd` are total. Only the sampling-rate and channel lookups can fail. This is why `Processing.ProcessChannels` and `Board.ParseData` are Ok exactly when every channel is within the window's width.
- PyQt and pyqtgraph rendering, themes, layouts, dialogs and the QTimer are out of scope. `Plots.Plot` keeps only a curve's colour, data and visibility.
- `main.py` builds `DataProcessing(data_source)` and calls `data_processing.start()`. The `DataProcessing` shown defines neither, so `MainWindow.PlayPause` leaves out that call.
- `main.py`'s `exg_channels` and `ecg_channels` globals are not defined in the files shown. The ECG list is a parameter of `MainWindow.Update` and `MainWindow.SplitWaves`.
- MainWindow.Update: indexing `singleWaves[i]` is not modelled. `MainWindow.Plan` pairs each listed wave with its scale, so a list longer than the single-plot widgets, for example one that the wave widget padded, would raise `IndexError` in Python but goes unnoticed here.
- MainWindow.CheckChannels: when a box is missing, the boxes set before it remain set in the GUI. The model returns only the error.
- Processing.FirstTickIsIdle: stated for playback sources only. A live source answers `read_data(0)` with whatever the board returns.
- Processing.GetExgChannels: a source without a board id is treated like a BrainFlow failure and falls back to 1..16.
- Board.ReadData: reading before `connect` is taken to raise inside the SDK, because the board session was never prepared.
- Three behaviours of the code that a reader might not expect, modelled as written:
  - Pacing drops the fractional remainder of each tick instead of carrying it over (`Pacing.DispensedDrift`, `Pacing.RemainderIsDropped`).
  - A recorded row that fails to convert is not end of data. `read_data` catches only `StopIteration`, so such a row raises `ValueError` (`LogManager.ReadRows`).
  - The spectrum input is the slice `[-nfft-1:-1]`. It leaves out the newest sample and is not skipped when the window is short (`Processing.PsdInputLength`).

## Findings

| source | as written | input that shows it | evidently intended | confidence | as-written member | corrected member |
|---|---|---|---|---|---|---|
| python/main.py:152 | `_, wave, fft = forward()` unpacks three values, but `forward` returns two (`None, None`) when nothing was read | the first tick after play on a playback: pacing yields 0 rows, so `forward` returns `(None, None)` and the unpacking raises `ValueError` (`MainWindow.FirstTickAfterPlay`) | skip the refresh when `forward` has no update, as line 153 tries to do | high, not executed | MainWindow.UpdateAsWritten | MainWindow.Update |
| python/playback.py:15 | `int(info[0])`, where `info` is the `int` that `begin` returns | starting any stopped manager over a well-formed recording raises `TypeError` (`Sources.NewPlaybackStart`) | keep `begin`'s result as the board id | high, not executed | Sources.StartAsWritten | Sources.Start |
| python/data_processing.py:32 | `self.data_source.reset()` on a `PlaybackManager`, which defines no `reset` | any reset of a playback session raises `AttributeError` (`Processing.ResetOfPlayback`) | rewind the recording with `begin` | medium, not executed | Processing.ResetAsWritten | Processing.Reset |
| python/data_processing.py:102 | `except BrainFlowError or AttributeError` evaluates to `except BrainFlowError` | `get_exg_channels` before any session raises `AttributeError` (`Processing.ExgChannelsWithoutSource`) | catch both exceptions and fall back to 1..16 | high, not executed | Processing.GetExgChannelsAsWritten | Processing.GetExgChannels |
| python/log_manager.py:22 | `open(self.output_folder + "metadata.csv", 'w')` joins the folder and the file name with no separator | saving metadata into a fresh session folder `out/10-11-2026_12-00-00` writes `out/10-11-2026_12-00-00metadata.csv`, beside the folder, so `load_metadata` on a record of that folder returns `None` (`LogManager.MetadataLostAsWritten`) | write `metadata.csv` inside the session folder, where `load_metadata` (line 77) and `create_new_record` (line 32) look for it | high, not executed | LogManager.SaveMetadataAsWritten | LogManager.SaveMetadata |
