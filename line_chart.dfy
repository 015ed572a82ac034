/**
  The line chart component: one line series per dataset, stroked from a
  palette built for the number of datasets, and the layout choices that
  depend on its props. The palette builder is a parameter.
 */
module LineChart {
  import opened Wrappers
  import opened InconvoTypes
  import opened ChartCommon

  const FallbackStroke: string := "var(--chart-series-primary)"

  /** `resolvedTheme === "dark"` */
  predicate IsDarkMode(resolvedTheme: Option<string>) {
    resolvedTheme == Some("dark")
  }

  /** `palette[index] ?? "var(--chart-series-primary)"` */
  function Stroke(palette: seq<string>, index: nat): (stroke: string)
    ensures index < |palette| ==> stroke == palette[index]
    ensures |palette| <= index ==> stroke == FallbackStroke
  {
    if index < |palette| then palette[index] else FallbackStroke
  }

  /** The attributes of one `<Line>` element. */
  datatype LineSeries = LineSeries(dataKey: string, stroke: string)

  /** The palette requested from `buildPalette` with one entry per dataset,
      and `data.datasets.map(...)` over it. */
  function Lines(data: ChartData, resolvedTheme: Option<string>, buildPalette: (nat, bool) -> seq<string>): (lines: seq<LineSeries>)
    ensures |lines| == |data.datasets|
    ensures forall i :: 0 <= i < |lines| ==> lines[i].dataKey == data.datasets[i].name
    ensures forall i :: 0 <= i < |lines| ==>
              lines[i].stroke == Stroke(buildPalette(|data.datasets|, IsDarkMode(resolvedTheme)), i)
  {
    var palette := buildPalette(|data.datasets|, IsDarkMode(resolvedTheme));
    seq(|data.datasets|, i requires 0 <= i < |data.datasets| => LineSeries(data.datasets[i].name, Stroke(palette, i)))
  }

  /** A builder that honours the requested count leaves no line on the
      fallback stroke. */
  lemma FullPaletteNoFallback(data: ChartData, resolvedTheme: Option<string>, buildPalette: (nat, bool) -> seq<string>)
    requires forall n: nat, dark: bool :: |buildPalette(n, dark)| == n
    ensures forall i :: 0 <= i < |data.datasets| ==>
              Lines(data, resolvedTheme, buildPalette)[i].stroke
                == buildPalette(|data.datasets|, IsDarkMode(resolvedTheme))[i]
  {
  }

  /** A short palette leaves exactly the lines past its end on the fallback. */
  lemma ShortPaletteFallsBack(data: ChartData, resolvedTheme: Option<string>, buildPalette: (nat, bool) -> seq<string>, i: nat)
    requires |buildPalette(|data.datasets|, IsDarkMode(resolvedTheme))| <= i < |data.datasets|
    ensures Lines(data, resolvedTheme, buildPalette)[i].stroke == FallbackStroke
  {
  }

  /** The layout choices of the line chart; it has no title heading. */
  datatype LineLayout = LineLayout(
    showXLabel: bool,
    showYLabel: bool,
    bottomMargin: nat,
    interval: TickInterval)

  /** The axis labels are drawn only for truthy props; the extra bottom margin
      is reserved exactly when the x-axis label is drawn, and ticks are thinned
      only past twelve labels. */
  function Layout(data: ChartData, xLabel: Option<string>, yLabel: Option<string>): (l: LineLayout)
    ensures l.showXLabel <==> Present(xLabel)
    ensures l.showYLabel <==> Present(yLabel)
    ensures l.bottomMargin == if l.showXLabel then 80 else 40
    ensures l.interval == EveryTick <==> |data.labels| <= 12
  {
    LineLayout(Present(xLabel), Present(yLabel), BottomMargin(xLabel), Interval(|data.labels|))
  }
}
