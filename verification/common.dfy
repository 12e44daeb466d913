/** Shared vocabulary of the model: optional and failing results, the Python
    exceptions the pipeline can raise, sample rows, Python's integer
    truncation and slicing, NumPy's transposition and `linspace`, and the
    opaque BrainFlow calls the pipeline depends on. */
module Common {

  datatype Option<+T> = None | Some(value: T)

  /** The exceptions that escape from the modelled code.  `SdkError` stands
      for any failure raised inside a BrainFlow call; the model does not
      distinguish them. */
  datatype Error =
    | ValueError
    | TypeError
    | IndexError
    | AttributeError
    | StopIteration
    | ZeroDivisionError
    | SdkError

  /** A call that either returns a value or raises one of the errors above. */
  datatype Result<+T> = Ok(value: T) | Err(error: Error) {

    predicate IsFailure() {
      Err?
    }

    function PropagateFailure<U>(): Result<U>
      requires Err?
    {
      Err(error)
    }

    function Extract(): T
      requires Ok?
    {
      value
    }
  }

  /** One sample: the readings of every board channel at one instant. */
  type Row = seq<real>

  /** A CSV record as the reader tokenises it. */
  type CsvRow = seq<string>

  function Min(a: int, b: int): int {
    if a <= b then a else b
  }

  function Max(a: int, b: int): int {
    if a >= b then a else b
  }

  /** Python's `int(x)` on a float: truncation toward zero. */
  function Trunc(x: real): (r: int)
    ensures x >= 0.0 ==> r >= 0 && r as real <= x < r as real + 1.0
    ensures x < 0.0 ==> r <= 0 && r as real - 1.0 < x <= r as real
  {
    if x >= 0.0 then x.Floor else -((-x).Floor)
  }

  /** The index a Python slice bound denotes in a sequence of length `len`. */
  function SliceBound(i: int, len: nat): (r: nat)
    ensures r <= len
    ensures 0 <= i <= len ==> r == i
    ensures -(len as int) <= i < 0 ==> r == len + i
  {
    if i < 0 then Max(0, i + len) else Min(i, len)
  }

  /** Python's `s[start:stop]`, negative bounds counting from the end. */
  function PySlice<T>(s: seq<T>, start: int, stop: int): (r: seq<T>)
    ensures |r| <= |s|
  {
    var a := SliceBound(start, |s|);
    var b := SliceBound(stop, |s|);
    if a < b then s[a..b] else []
  }

  /** `np.zeros(shape=(n, w))` as a list of rows. */
  function Zeros(n: nat, w: nat): (r: seq<Row>)
    ensures |r| == n
    ensures forall i :: 0 <= i < n ==> |r[i]| == w
    ensures forall i, j :: 0 <= i < n && 0 <= j < w ==> r[i][j] == 0.0
  {
    seq(n, _ => seq(w, _ => 0.0))
  }

  /** The number of columns NumPy sees in a list of rows. */
  function Width(rows: seq<Row>): nat {
    if |rows| == 0 then 0 else |rows[0]|
  }

  /** True when NumPy can turn `rows` into a two-dimensional array, i.e.
      every row has the same length. */
  predicate Rectangular(rows: seq<Row>) {
    forall i :: 0 <= i < |rows| ==> |rows[i]| == Width(rows)
  }

  /** Row `c` of `np.transpose(rows)`: the series of channel `c`. */
  function Column(rows: seq<Row>, c: nat): (r: seq<real>)
    requires Rectangular(rows) && c < Width(rows)
    ensures |r| == |rows|
    ensures forall i :: 0 <= i < |rows| ==> r[i] == rows[i][c]
  {
    seq(|rows|, i requires 0 <= i < |rows| => rows[i][c])
  }

  /** `np.linspace(lo, hi, n)`: `n` evenly spaced points from `lo` to `hi`
      inclusive (in exact arithmetic). */
  function Linspace(lo: real, hi: real, n: nat): (r: seq<real>)
    ensures |r| == n
    ensures n > 0 ==> r[0] == lo
    ensures n > 1 ==> r[n - 1] == hi
  {
    if n == 0 then []
    else if n == 1 then [lo]
    else seq(n, i => lo + (hi - lo) * (i as real) / ((n - 1) as real))
  }

  /** The BrainFlow calls the pipeline makes, as uninterpreted functions.
      A `None` from a lookup means the SDK raised. */
  datatype Sdk = Sdk(
    samplingRate: int -> Option<nat>,             // BoardShim.get_sampling_rate
    exgChannels: int -> Option<seq<nat>>,         // BoardShim.get_exg_channels
    filterChain: (seq<real>, nat) -> seq<real>,   // detrend, band-pass, two band-stops, noise removal
    stddev: seq<real> -> real,                    // DataFilter.calc_stddev
    nearestPowerOfTwo: nat -> int,                // DataFilter.get_nearest_power_of_two
    psdWelch: (seq<real>, int, int, nat) -> (seq<real>, seq<real>),  // mean removal + get_psd_welch
    psd: (seq<real>, nat) -> (seq<real>, seq<real>)                  // DataFilter.get_psd
  )

  /** CSV field conversions, left abstract: Python's `int(s)` and `float(s)`;
      `None` means the conversion raised `ValueError`. */
  datatype Codec = Codec(toInt: string -> Option<int>, toFloat: string -> Option<real>)

  type PosReal = x: real | x > 0.0 witness 1.0

  /** Everything fixed for the lifetime of the program: the SDK, the CSV
      conversions and the amplifier's impedance-check constants. */
  datatype Env = Env(sdk: Sdk, codec: Codec, driveAmps: PosReal, baseImpedanceOhms: PosReal)
}
