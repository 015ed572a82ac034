/**
  The bar chart component: one bar series per dataset, coloured from a fixed
  five-colour palette, and the layout choices that depend on its props.
 */
module BarChart {
  import opened Wrappers
  import opened InconvoTypes
  import opened ChartCommon

  const Palette: seq<string> :=
    ["var(--chart-1)", "var(--chart-2)", "var(--chart-3)", "var(--chart-4)", "var(--chart-5)"]

  /** `palette[index % palette.length]`: always an entry of the palette. */
  function Fill(index: nat): (colour: string)
    ensures colour in Palette
    ensures index < |Palette| ==> colour == Palette[index]
  {
    Palette[index % |Palette|]
  }

  /** Series `index` reuses the colour of series `index + 5`. */
  lemma FillCycles(index: nat)
    ensures Fill(index + 5) == Fill(index)
  {
  }

  /** Any five consecutive series get five different colours. */
  lemma NearbyFillsDiffer(i: nat, j: nat)
    requires i < j < i + |Palette|
    ensures Fill(i) != Fill(j)
  {
  }

  /** The attributes of one `<Bar>` element. */
  datatype BarSeries = BarSeries(dataKey: string, fill: string)

  /** `data.datasets.map(...)`: one bar series per dataset, in dataset order,
      keyed by the dataset's name. */
  function Bars(data: ChartData): (bars: seq<BarSeries>)
    ensures |bars| == |data.datasets|
    ensures forall i :: 0 <= i < |bars| ==> bars[i].dataKey == data.datasets[i].name
    ensures forall i :: 0 <= i < |bars| ==> bars[i].fill in Palette && bars[i].fill == Fill(i)
  {
    seq(|data.datasets|, i requires 0 <= i < |data.datasets| => BarSeries(data.datasets[i].name, Fill(i)))
  }

  /** The layout choices of the bar chart. */
  datatype BarLayout = BarLayout(
    showTitle: bool,
    showXLabel: bool,
    showYLabel: bool,
    bottomMargin: nat,
    interval: TickInterval)

  /** The heading and the axis labels are drawn only for truthy props; the
      extra bottom margin is reserved exactly when the x-axis label is drawn,
      and ticks are thinned only past twelve labels. */
  function Layout(data: ChartData, title: Option<string>, xLabel: Option<string>, yLabel: Option<string>): (l: BarLayout)
    ensures l.showTitle <==> Present(title)
    ensures l.showXLabel <==> Present(xLabel)
    ensures l.showYLabel <==> Present(yLabel)
    ensures l.bottomMargin == if l.showXLabel then 80 else 40
    ensures l.interval == EveryTick <==> |data.labels| <= 12
  {
    BarLayout(Present(title), Present(xLabel), Present(yLabel), BottomMargin(xLabel), Interval(|data.labels|))
  }
}
