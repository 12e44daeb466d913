/** Plot bookkeeping of the `Graph` widget: which data each curve holds and
    whether it is on screen.  Drawing itself is outside the model. */
module Plots {
  import opened Common

  /** `Function`: a curve's x and y samples. */
  datatype Function = Function(x: seq<real>, y: seq<real>)

  /** `Function()`: both axes default to empty lists. */
  function EmptyFunction(): (f: Function)
    ensures |f.x| == 0 && |f.y| == 0
  {
    Function([], [])
  }

  /** An RGB pen colour. */
  type Color = (int, int, int)

  /** One curve of a widget: its pen colour, the data last given to it, and
      whether it is currently added to the widget. */
  datatype Plot = Plot(color: Color, x: seq<real>, y: seq<real>, shown: bool)

  /** `Graph`: the curves in the order they were added. */
  datatype Graph = Graph(plots: seq<Plot>)

  /** `np.multiply(y, scale)`. */
  function Scale(y: seq<real>, k: real): (r: seq<real>)
    ensures |r| == |y|
    ensures forall i :: 0 <= i < |y| ==> r[i] == y[i] * k
  {
    seq(|y|, i requires 0 <= i < |y| => y[i] * k)
  }

  /** The caller's list after `refresh` on a widget of `count` curves:
      extended with empty `Function`s until it is as long as the widget. */
  function Pad(data: seq<Function>, count: nat): (r: seq<Function>)
    ensures |r| == Max(|data|, count)
    ensures r[..|data|] == data
    ensures forall i :: |data| <= i < |r| ==> r[i] == EmptyFunction()
  {
    data + seq(Max(|data|, count) - |data|, _ => EmptyFunction())
  }

  /** `refresh(data, scale)`: every curve `i` takes `data[i]`, its y values
      scaled; when `data` runs out an empty `Function` is appended to the
      caller's list first.  Returns the widget and the caller's list. */
  method Refresh(g: Graph, data: seq<Function>, scale: real) returns (h: Graph, padded: seq<Function>)
    ensures |padded| == Max(|data|, |g.plots|)
    ensures padded[..|data|] == data
    ensures forall i :: |data| <= i < |padded| ==> padded[i] == EmptyFunction()
    ensures padded == Pad(data, |g.plots|)
    ensures |h.plots| == |g.plots|
    ensures forall i :: 0 <= i < |g.plots| ==>
      h.plots[i] == g.plots[i].(x := padded[i].x, y := Scale(padded[i].y, scale))
  {
    padded := data;
    var plots := g.plots;
    var i := 0;
    while i < |g.plots|
      invariant 0 <= i <= |g.plots|
      invariant |padded| == Max(|data|, i)
      invariant padded[..|data|] == data
      invariant forall j :: |data| <= j < |padded| ==> padded[j] == EmptyFunction()
      invariant |plots| == |g.plots|
      invariant forall j :: 0 <= j < i ==>
        plots[j] == g.plots[j].(x := padded[j].x, y := Scale(padded[j].y, scale))
      invariant forall j :: i <= j < |g.plots| ==> plots[j] == g.plots[j]
    {
      if i == |padded| {
        padded := padded + [EmptyFunction()];
      }
      plots := plots[i := g.plots[i].(x := padded[i].x, y := Scale(padded[i].y, scale))];
      i := i + 1;
    }
    PadUnique(data, |g.plots|, padded);
    h := Graph(plots);
  }

  /** A list that extends `data` with empty `Function`s up to `count`
      entries is the padded list. */
  lemma PadUnique(data: seq<Function>, count: nat, padded: seq<Function>)
    requires |padded| == Max(|data|, count)
    requires padded[..|data|] == data
    requires forall i :: |data| <= i < |padded| ==> padded[i] == EmptyFunction()
    ensures padded == Pad(data, count)
  {
    var p := Pad(data, count);
    forall i | 0 <= i < |padded| ensures padded[i] == p[i] {
      if i < |data| {
        assert padded[i] == padded[..|data|][i] && p[i] == p[..|data|][i];
      }
    }
  }

  /** The curve Python's `plots[index - 1]` denotes, counting from the end
      for a negative position; `None` when the subscript raises
      `IndexError`. */
  function Slot(index: int, count: nat): (r: Option<nat>)
    ensures r.Some? <==> -(count as int) < index <= count
    ensures r.Some? ==> r.value < count
    ensures 1 <= index <= count ==> r == Some(index - 1)
  {
    var k := index - 1;
    if 0 <= k < count then Some(k)
    else if k < 0 && -(count as int) <= k then Some(count + k)
    else None
  }

  /** Add or remove curve `index` (1-based) when `index <= len(plots)`;
      a larger index is ignored and an index that is too negative raises
      `IndexError`. */
  function SetShown(g: Graph, index: int, shown: bool): (r: Result<Graph>)
    ensures index > |g.plots| ==> r == Ok(g)
    ensures index <= |g.plots| ==> (r.Err? <==> Slot(index, |g.plots|).None?)
    ensures r.Err? ==> r.error == IndexError
    ensures index <= |g.plots| && r.Ok? ==>
      var k := Slot(index, |g.plots|).value;
      r.value.plots == g.plots[k := g.plots[k].(shown := shown)]
  {
    if index <= |g.plots| then
      match Slot(index, |g.plots|)
      case None => Err(IndexError)
      case Some(k) => Ok(Graph(g.plots[k := g.plots[k].(shown := shown)]))
    else Ok(g)
  }

  /** `hidePlot(index)`: takes curve `index` off the widget. */
  function HidePlot(g: Graph, index: int): (r: Result<Graph>)
    ensures index > |g.plots| ==> r == Ok(g)
    ensures 1 <= index <= |g.plots| ==>
      r == Ok(Graph(g.plots[index - 1 := g.plots[index - 1].(shown := false)]))
    ensures index <= -|g.plots| ==> r == Err(IndexError)
  {
    SetShown(g, index, false)
  }

  /** `showPlot(index)`: puts curve `index` back on the widget. */
  function ShowPlot(g: Graph, index: int): (r: Result<Graph>)
    ensures index > |g.plots| ==> r == Ok(g)
    ensures 1 <= index <= |g.plots| ==>
      r == Ok(Graph(g.plots[index - 1 := g.plots[index - 1].(shown := true)]))
    ensures index <= -|g.plots| ==> r == Err(IndexError)
  {
    SetShown(g, index, true)
  }

  /** Hiding a curve that is on screen and showing it again restores the
      widget; only the curve named is ever touched. */
  lemma ShowUndoesHide(g: Graph, index: int)
    requires Slot(index, |g.plots|).Some?
    requires g.plots[Slot(index, |g.plots|).value].shown
    ensures HidePlot(g, index).Ok?
    ensures ShowPlot(HidePlot(g, index).value, index) == Ok(g)
  {
    var k := Slot(index, |g.plots|).value;
    var hidden := g.plots[k := g.plots[k].(shown := false)];
    assert HidePlot(g, index) == Ok(Graph(hidden));
    assert hidden[k := hidden[k].(shown := true)] == g.plots;
  }

  /** `addPlot(color)`: one new, empty, visible curve at the end. */
  function AddPlot(g: Graph, color: Color): (r: Graph)
    ensures |r.plots| == |g.plots| + 1
    ensures r.plots[..|g.plots|] == g.plots
    ensures r.plots[|g.plots|] == Plot(color, [], [], true)
  {
    Graph(g.plots + [Plot(color, [], [], true)])
  }

  /** `clear()`: every curve is dropped. */
  function Clear(g: Graph): (r: Graph)
    ensures |r.plots| == 0
  {
    Graph([])
  }

  /** `addPlot` called once per colour, in order. */
  function AddAll(g: Graph, colors: seq<Color>): Graph
  {
    if |colors| == 0 then g else AddPlot(AddAll(g, colors[..|colors| - 1]), colors[|colors| - 1])
  }

  /** A widget built by `clear` followed by any number of `addPlot` calls
      holds exactly one empty, visible curve per call, in its colour and in
      call order. */
  lemma {:induction false} AddAfterClear(g: Graph, colors: seq<Color>)
    ensures AddAll(Clear(g), colors).plots == seq(|colors|, i requires 0 <= i < |colors| => Plot(colors[i], [], [], true))
  {
    if |colors| > 0 {
      var init := colors[..|colors| - 1];
      AddAfterClear(g, init);
      var before := AddAll(Clear(g), init).plots;
      var after := AddAll(Clear(g), colors).plots;
      assert after == before + [Plot(colors[|colors| - 1], [], [], true)];
    }
  }

  /** Adding curves never disturbs the ones already there: the widget's
      curves are followed by one new curve per colour. */
  lemma {:induction false} AddAllExtends(g: Graph, colors: seq<Color>)
    ensures |AddAll(g, colors).plots| == |g.plots| + |colors|
    ensures AddAll(g, colors).plots[..|g.plots|] == g.plots
    ensures forall i :: 0 <= i < |colors| ==> AddAll(g, colors).plots[|g.plots| + i] == Plot(colors[i], [], [], true)
  {
    if |colors| > 0 {
      var init := colors[..|colors| - 1];
      AddAllExtends(g, init);
      var before := AddAll(g, init).plots;
      assert AddAll(g, colors).plots == before + [Plot(colors[|colors| - 1], [], [], true)];
    }
  }
}
