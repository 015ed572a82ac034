/**
  What the bar chart and the line chart components share, word for word: the
  pivot of column-oriented chart data into one row record per label, the
  bottom margin and the x-axis tick interval.
 */
module ChartCommon {
  import opened Wrappers
  import opened InconvoTypes

  /** A value in a pivoted row: the label, a dataset value, or `undefined`. */
  datatype Cell = Label(text: string) | Value(n: real) | Missing

  /** Assigning a non-object to `row["__proto__"]` goes to the prototype
      setter, which ignores it: no own property is created. */
  const ProtoKey: string := "__proto__"

  /** `values[index]`, which is `undefined` past the end. */
  function ValueAt(values: seq<real>, index: nat): Cell {
    if index < |values| then Value(values[index]) else Missing
  }

  /** The row for `caption` at position `index`, after the datasets `ds` have
      been written into it one after another. */
  function Row(caption: string, ds: seq<Dataset>, index: nat): map<string, Cell>
    decreases |ds|
  {
    if ds == [] then map["name" := Label(caption)]
    else
      var row := Row(caption, ds[..|ds| - 1], index);
      var last := ds[|ds| - 1];
      if last.name == ProtoKey then row else row[last.name := ValueAt(last.values, index)]
  }

  /** The `chartData` memo: `labels.map` with a `datasets.forEach` writing
      into each row. */
  method Pivot(data: ChartData) returns (rows: seq<map<string, Cell>>)
    ensures |rows| == |data.labels|
    ensures forall i :: 0 <= i < |rows| ==> rows[i] == Row(data.labels[i], data.datasets, i)
  {
    rows := [];
    var index := 0;
    while index < |data.labels|
      invariant 0 <= index <= |data.labels|
      invariant |rows| == index
      invariant forall i :: 0 <= i < index ==> rows[i] == Row(data.labels[i], data.datasets, i)
    {
      var row := map["name" := Label(data.labels[index])];
      var k := 0;
      while k < |data.datasets|
        invariant 0 <= k <= |data.datasets|
        invariant row == Row(data.labels[index], data.datasets[..k], index)
      {
        var dataset := data.datasets[k];
        if dataset.name != ProtoKey {
          row := row[dataset.name := ValueAt(dataset.values, index)];
        }
        k := k + 1;
        assert data.datasets[..k][..k - 1] == data.datasets[..k - 1];
      }
      assert data.datasets[..k] == data.datasets;
      rows := rows + [row];
      index := index + 1;
    }
  }

  /** A row's keys are `name` and the name of every dataset, except the
      prototype key. */
  lemma {:induction false} RowKeys(caption: string, ds: seq<Dataset>, index: nat)
    ensures Row(caption, ds, index).Keys
              == {"name"} + (set j | 0 <= j < |ds| && ds[j].name != ProtoKey :: ds[j].name)
  {
    if ds != [] {
      var init := ds[..|ds| - 1];
      RowKeys(caption, init, index);
      var s := set j | 0 <= j < |ds| && ds[j].name != ProtoKey :: ds[j].name;
      var t := set j | 0 <= j < |init| && init[j].name != ProtoKey :: init[j].name;
      assert forall j :: 0 <= j < |init| ==> init[j] == ds[j];
      if ds[|ds| - 1].name == ProtoKey {
        assert s == t;
      } else {
        assert s == t + {ds[|ds| - 1].name};
      }
    }
  }

  /** At a dataset's name a row holds that dataset's value at the row's index
      (`undefined` when `values` is too short), provided no later dataset has
      the same name: the last dataset of a name wins. */
  lemma {:induction false} RowLastWins(caption: string, ds: seq<Dataset>, index: nat, j: nat)
    requires j < |ds| && ds[j].name != ProtoKey
    requires forall k :: j < k < |ds| ==> ds[k].name != ds[j].name
    ensures ds[j].name in Row(caption, ds, index)
    ensures Row(caption, ds, index)[ds[j].name] == ValueAt(ds[j].values, index)
  {
    if j < |ds| - 1 {
      var init := ds[..|ds| - 1];
      assert init[j] == ds[j];
      RowLastWins(caption, init, index, j);
    }
  }

  /** A row's `name` is its label unless some dataset is itself called `name`. */
  lemma {:induction false} RowNameIsLabel(caption: string, ds: seq<Dataset>, index: nat)
    requires forall k :: 0 <= k < |ds| ==> ds[k].name != "name"
    ensures "name" in Row(caption, ds, index) && Row(caption, ds, index)["name"] == Label(caption)
  {
    if ds != [] {
      var init := ds[..|ds| - 1];
      assert forall k :: 0 <= k < |init| ==> init[k] == ds[k];
      RowNameIsLabel(caption, init, index);
    }
  }

  /** JavaScript truthiness of an optional string property. */
  predicate Present(text: Option<string>) {
    text.Some? && text.value != ""
  }

  /** The x-axis `interval`: `"preserveStartEnd"` thins the ticks, `0` draws
      every one. */
  datatype TickInterval = PreserveStartEnd | EveryTick

  /** `xLabel ? 80 : 40` */
  function BottomMargin(xLabel: Option<string>): (margin: nat)
    ensures margin == 80 || margin == 40
    ensures margin == 80 <==> Present(xLabel)
  {
    if Present(xLabel) then 80 else 40
  }

  /** `labels.length > 12 ? "preserveStartEnd" : 0` */
  function Interval(labelCount: nat): (interval: TickInterval)
    ensures interval == EveryTick <==> labelCount <= 12
  {
    if labelCount > 12 then PreserveStartEnd else EveryTick
  }
}
