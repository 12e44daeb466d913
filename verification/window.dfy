/** The sliding window: a bounded history of rows that keeps only the newest
    `numPoints` of them, oldest first. */
module Window {

  /** True when `w` is a suffix of `s`. */
  ghost predicate IsSuffix<T>(w: seq<T>, s: seq<T>) {
    |w| <= |s| && s[|s| - |w|..] == w
  }

  /** `clip_data`: drop the oldest rows until at most `numPoints` remain. */
  function Clip<T>(data: seq<T>, numPoints: nat): (r: seq<T>)
    ensures |r| == if |data| > numPoints then numPoints else |data|
    ensures IsSuffix(r, data)
  {
    if |data| > numPoints then data[|data| - numPoints..] else data
  }

  /** Clipping a window that already fits leaves it unchanged. */
  lemma ClipFits<T>(data: seq<T>, numPoints: nat)
    requires |data| <= numPoints
    ensures Clip(data, numPoints) == data
  {
  }

  /** Clipping before appending does not change what the next clip keeps:
      the rows dropped early would have been dropped anyway. */
  lemma ClipAppend<T>(a: seq<T>, b: seq<T>, numPoints: nat)
    ensures Clip(Clip(a, numPoints) + b, numPoints) == Clip(a + b, numPoints)
  {
    var ca := Clip(a, numPoints);
    if |a| > numPoints {
      var k := |a| - numPoints;
      assert ca + b == (a + b)[k..];
      assert Clip(a + b, numPoints) == (a + b)[|a + b| - numPoints..];
    }
  }

  /** All batches concatenated in read order. */
  function Flatten<T>(batches: seq<seq<T>>): (r: seq<T>)
  {
    if |batches| == 0 then [] else Flatten(batches[..|batches| - 1]) + batches[|batches| - 1]
  }

  /** The window after ingesting `batches` one at a time, clipping after
      each append, starting from `seed`. */
  function Fill<T>(seed: seq<T>, batches: seq<seq<T>>, numPoints: nat): seq<T>
  {
    if |batches| == 0 then seed
    else Clip(Fill(seed, batches[..|batches| - 1], numPoints) + batches[|batches| - 1], numPoints)
  }

  /** Chronological order: after any run of appends, each followed by a clip,
      the window is exactly the newest `numPoints` rows of the seed followed
      by every batch in read order. */
  lemma {:induction false} FillKeepsNewest<T>(seed: seq<T>, batches: seq<seq<T>>, numPoints: nat)
    requires |batches| > 0
    ensures Fill(seed, batches, numPoints) == Clip(seed + Flatten(batches), numPoints)
  {
    var init := batches[..|batches| - 1];
    var last := batches[|batches| - 1];
    if |init| == 0 {
      assert Flatten(batches) == Flatten(init) + last;
    } else {
      FillKeepsNewest(seed, init, numPoints);
      ClipAppend(seed + Flatten(init), last, numPoints);
      assert seed + Flatten(init) + last == seed + Flatten(batches);
    }
  }

  /** Window bound: a window filled from a seed of at most `numPoints` rows
      never holds more than `numPoints` rows, and once it has received at
      least `numPoints` rows in all it is exactly the newest `numPoints`
      rows received. */
  lemma {:induction false} FillBound<T>(seed: seq<T>, batches: seq<seq<T>>, numPoints: nat)
    requires |seed| <= numPoints
    ensures |Fill(seed, batches, numPoints)| <= numPoints
    ensures |seed| + |Flatten(batches)| >= numPoints ==>
      |Fill(seed, batches, numPoints)| == numPoints
  {
    if |batches| > 0 {
      FillKeepsNewest(seed, batches, numPoints);
    }
  }
}
