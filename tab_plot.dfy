/** The plotting tab (gui/tab_plot.py): four plots in a 2×2 grid whose x
    axes are linked where their x labels agree, and a play/pause button
    that switches live plotting.  A plot is represented by its two axis
    labels; a link is the pair of positions, in the flattened plot list,
    of the plots linked. */
module TabPlot {
  import opened Outcomes
  import opened Text

  datatype Axes = Axes(xLabel: string, yLabel: string)

  const TvV: Axes := Axes("Voltage (V)", "Temperature (K)")
  const CvT: Axes := Axes("Temperature (K)", "Voltage (V)")
  const Tvt: Axes := Axes("Time", "Temperature (K)")
  const Cvt: Axes := Axes("Time", "Counts")

  /** Lines 32-33 */
  const DefaultPlots: seq<seq<Axes>> := [[TvV, Tvt], [CvT, Cvt]]

  /** Line 37: the rows one after another. */
  function Flatten(plots: seq<seq<Axes>>): (r: seq<Axes>)
  {
    if plots == [] then [] else plots[0] + Flatten(plots[1..])
  }

  /** Labels compared case-insensitively (lines 42, 45). */
  predicate SameLabel(a: string, b: string) {
    Lower(a) == Lower(b)
  }

  /** Row-major order on pairs of positions. */
  predicate Before(p: (nat, nat), q: (nat, nat)) {
    p.0 < q.0 || (p.0 == q.0 && p.1 < q.1)
  }

  predicate Ascending(ps: seq<(nat, nat)>) {
    forall i, j :: 0 <= i < j < |ps| ==> Before(ps[i], ps[j])
  }

  /** Whether the source links the axes of the plots at positions p.0 < p.1. */
  predicate Linked(plots: seq<Axes>, on: bool, x: bool, p: (nat, nat)) {
    on && p.0 < p.1 < |plots|
    && (if x then SameLabel(plots[p.0].xLabel, plots[p.1].xLabel)
        else SameLabel(plots[p.0].yLabel, plots[p.1].yLabel))
  }

  /** Lines 36-46: every ordered pair of distinct positions is visited once,
      in row-major order; the x axes are linked when `linkX` holds and the
      x labels agree, the y axes likewise. */
  method LinkAxes(plots: seq<Axes>, linkX: bool, linkY: bool)
    returns (xLinks: seq<(nat, nat)>, yLinks: seq<(nat, nat)>)
    ensures forall p: (nat, nat) :: p in xLinks <==> Linked(plots, linkX, true, p)
    ensures forall p: (nat, nat) :: p in yLinks <==> Linked(plots, linkY, false, p)
    ensures Ascending(xLinks) && Ascending(yLinks)
    ensures !linkX ==> xLinks == []
    ensures !linkY ==> yLinks == []
  {
    xLinks, yLinks := [], [];
    if linkX || linkY {
      var n := |plots|;
      for ii := 0 to n
        invariant forall p: (nat, nat) :: p in xLinks <==> Linked(plots, linkX, true, p) && p.0 < ii
        invariant forall p: (nat, nat) :: p in yLinks <==> Linked(plots, linkY, false, p) && p.0 < ii
        invariant Ascending(xLinks) && Ascending(yLinks)
        invariant !linkX ==> xLinks == []
        invariant !linkY ==> yLinks == []
      {
        for jj := 0 to n
          invariant forall p: (nat, nat) :: p in xLinks <==> Linked(plots, linkX, true, p) && Before(p, (ii, jj))
          invariant forall p: (nat, nat) :: p in yLinks <==> Linked(plots, linkY, false, p) && Before(p, (ii, jj))
          invariant Ascending(xLinks) && Ascending(yLinks)
          invariant !linkX ==> xLinks == []
          invariant !linkY ==> yLinks == []
        {
          if ii < jj {
            if linkX && SameLabel(plots[ii].xLabel, plots[jj].xLabel) {
              xLinks := xLinks + [(ii, jj)];
            }
            if linkY && SameLabel(plots[ii].yLabel, plots[jj].yLabel) {
              yLinks := yLinks + [(ii, jj)];
            }
          }
        }
      }
    }
  }

  /** A plot placed in the grid layout at (row, col). */
  datatype Cell = Cell(plot: Axes, row: nat, col: nat)

  /** Lines 49-51: each plot goes to the cell given by its row and its
      position in the row, row after row. */
  method PlaceAll(plots: seq<seq<Axes>>) returns (cells: seq<Cell>)
    ensures forall c :: c in cells ==> c.row < |plots| && c.col < |plots[c.row]| && c.plot == plots[c.row][c.col]
    ensures forall ii, jj :: 0 <= ii < |plots| && 0 <= jj < |plots[ii]| ==> Cell(plots[ii][jj], ii, jj) in cells
    ensures forall i, j :: 0 <= i < j < |cells| ==> Before((cells[i].row, cells[i].col), (cells[j].row, cells[j].col))
  {
    cells := [];
    for ii := 0 to |plots|
      invariant forall c :: c in cells ==> c.row < ii && c.col < |plots[c.row]| && c.plot == plots[c.row][c.col]
      invariant forall a, b :: 0 <= a < ii && 0 <= b < |plots[a]| ==> Cell(plots[a][b], a, b) in cells
      invariant forall i, j :: 0 <= i < j < |cells| ==> Before((cells[i].row, cells[i].col), (cells[j].row, cells[j].col))
    {
      var row := plots[ii];
      for jj := 0 to |row|
        invariant forall c :: c in cells ==>
                    Before((c.row, c.col), (ii, jj)) && c.row <= ii && c.col < |plots[c.row]| && c.plot == plots[c.row][c.col]
        invariant forall a, b :: 0 <= a < ii && 0 <= b < |plots[a]| ==> Cell(plots[a][b], a, b) in cells
        invariant forall b :: 0 <= b < jj ==> Cell(plots[ii][b], ii, b) in cells
        invariant forall i, j :: 0 <= i < j < |cells| ==> Before((cells[i].row, cells[i].col), (cells[j].row, cells[j].col))
      {
        cells := cells + [Cell(row[jj], ii, jj)];
      }
    }
  }

  // ------------------------------------------------------------ defaults

  lemma DefaultFlattened()
    ensures Flatten(DefaultPlots) == [TvV, Tvt, CvT, Cvt]
  {
    assert Flatten(DefaultPlots[1..][1..]) == [];
    assert Flatten(DefaultPlots[1..]) == [CvT, Cvt];
  }

  lemma DifferentLengths(a: string, b: string)
    requires |a| != |b|
    ensures !SameLabel(a, b)
  {
  }

  /** Among the default plots only the two time plots (positions 1 and 3)
      share an x label, and only the two temperature plots (0 and 1) a y label. */
  lemma DefaultLabelMatches(i: nat, j: nat)
    requires i < j < 4
    ensures SameLabel([TvV, Tvt, CvT, Cvt][i].xLabel, [TvV, Tvt, CvT, Cvt][j].xLabel) <==> (i, j) == (1, 3)
    ensures SameLabel([TvV, Tvt, CvT, Cvt][i].yLabel, [TvV, Tvt, CvT, Cvt][j].yLabel) <==> (i, j) == (0, 1)
  {
    var ps := [TvV, Tvt, CvT, Cvt];
    if (i, j) != (1, 3) {
      DifferentLengths(ps[i].xLabel, ps[j].xLabel);
    }
    if (i, j) != (0, 1) {
      DifferentLengths(ps[i].yLabel, ps[j].yLabel);
    }
  }

  /** An ascending list holding exactly one pair is that pair alone. */
  lemma OnlyPair(ps: seq<(nat, nat)>, p: (nat, nat))
    requires Ascending(ps)
    requires forall q: (nat, nat) :: q in ps <==> q == p
    ensures ps == [p]
  {
    assert p in ps;
    assert ps[0] in ps && ps[|ps| - 1] in ps;
    assert !Before(ps[0], ps[|ps| - 1]);
  }

  /** With the default arguments (link_x on, link_y off, line 10) the only
      link is between the x axes of the two time plots. */
  method DefaultLinks() returns (xLinks: seq<(nat, nat)>, yLinks: seq<(nat, nat)>)
    ensures xLinks == [(1, 3)] && yLinks == []
  {
    DefaultFlattened();
    var plots := Flatten(DefaultPlots);
    xLinks, yLinks := LinkAxes(plots, true, false);
    forall p: (nat, nat) ensures p in xLinks <==> p == (1, 3) {
      if p.0 < p.1 < 4 {
        DefaultLabelMatches(p.0, p.1);
      }
    }
    OnlyPair(xLinks, (1, 3));
  }

  // ------------------------------------------------------------ the tab

  const LiveTip: string := "Live Plotting"
  const PausedTip: string := "Click to turn on Live Plotting"

  class PlotTab {
    var livePlotting: bool
    var filename: Option<string>
    var updateEnabled: bool
    var playPauseTip: string

    /** The update button is usable exactly when live plotting is off, and
        the play/pause tool tip names the current mode. */
    predicate Valid()
      reads this
    {
      updateEnabled == !livePlotting && playPauseTip == (if livePlotting then LiveTip else PausedTip)
    }

    /** Lines 15-19 and 61: live plotting starts on, no file is shown.  The
        plots of lines 25-29 lack their pen argument and raise TypeError, so
        this is the state the constructor would build if they did not. */
    constructor()
      ensures Valid() && livePlotting && filename.None?
    {
      livePlotting := true;
      filename := None;
      updateEnabled := false;
      playPauseTip := LiveTip;
    }

    /** initialize_plots (lines 74-75) */
    method InitializePlots(name: string)
      modifies this`filename
      ensures filename == Some(name)
    {
      filename := Some(name);
    }

    /** set_live_plotting (lines 78-86) */
    method SetLivePlotting(on: bool)
      modifies this`livePlotting, this`updateEnabled, this`playPauseTip
      ensures livePlotting == on && Valid()
    {
      livePlotting := on;
      updateEnabled := !on;
      if on {
        playPauseTip := LiveTip;
      } else {
        playPauseTip := PausedTip;
      }
    }

    /** swap_live (lines 89-90) */
    method SwapLive()
      modifies this`livePlotting, this`updateEnabled, this`playPauseTip
      ensures livePlotting == !old(livePlotting) && Valid()
    {
      SetLivePlotting(!livePlotting);
    }
  }
}
