/**
  The Inconvo response validator and normaliser: the structural shape
  predicates, the repair of the legacy flattened chart shape, and
  `parseInconvoResponse`, which combines them. A typed view of accepted
  responses (`Response`) and an encoding of typed values back into JSON state
  what the predicates accept.
 */
module InconvoTypes {
  import opened Wrappers
  import opened JsValues

  // ---------------------------------------------------------------------------
  // Shape predicates
  // ---------------------------------------------------------------------------

  /** `Array.isArray(v) && v.every(item => typeof item === "string")` */
  predicate IsStringArray(v: Json) {
    v.Arr? && forall i :: 0 <= i < |v.elems| ==> v.elems[i].Str?
  }

  /** `Array.isArray(v) && v.every(item => typeof item === "number")` */
  predicate IsNumberArray(v: Json) {
    v.Arr? && forall i :: 0 <= i < |v.elems| ==> v.elems[i].Num?
  }

  /** A dataset: an object with a string `name` and a number array `values`. */
  predicate IsDataset(v: Json) {
    IsObject(v) && Get(v, "name").Str? && IsNumberArray(Get(v, "values"))
  }

  /** Chart data: string `labels` and an array `datasets` of datasets. */
  predicate IsChartData(v: Json) {
    && IsObject(v)
    && IsStringArray(Get(v, "labels"))
    && Get(v, "datasets").Arr?
    && forall i :: 0 <= i < |Get(v, "datasets").elems| ==> IsDataset(Get(v, "datasets").elems[i])
  }

  /** A chart spec is any non-null object; arrays count as objects. */
  predicate IsSpec(v: Json) {
    IsObject(v)
  }

  /** `type === "bar" || type === "line" || typeof type === "undefined"` */
  predicate IsChartType(t: Json) {
    t == Str("bar") || t == Str("line") || t == Undefined
  }

  predicate IsChart(v: Json) {
    && IsObject(v)
    && IsChartType(Get(v, "type"))
    && (IsChartData(Get(v, "data")) || IsSpec(Get(v, "spec")))
  }

  predicate IsTable(v: Json) {
    && IsObject(v)
    && IsStringArray(Get(v, "head"))
    && Get(v, "body").Arr?
    && forall i :: 0 <= i < |Get(v, "body").elems| ==> IsStringArray(Get(v, "body").elems[i])
  }

  predicate IsResponseType(t: Json) {
    t == Str("text") || t == Str("chart") || t == Str("table")
  }

  /** The top-level validator, with its early returns in source order. */
  predicate IsInconvoResponse(v: Json) {
    if !IsObject(v) then false
    else if !Get(v, "message").Str? then false
    else if !IsResponseType(Get(v, "type")) then false
    else if Get(v, "type") == Str("chart") && !IsChart(Get(v, "chart")) then false
    else if Get(v, "type") == Str("table") && !IsTable(Get(v, "table")) then false
    else true
  }

  // ---------------------------------------------------------------------------
  // Typed view of accepted values, and its encoding back into JSON
  // ---------------------------------------------------------------------------

  datatype ChartKind = Bar | Line
  datatype Dataset = Dataset(name: string, values: seq<real>)
  datatype ChartData = ChartData(labels: seq<string>, datasets: seq<Dataset>)

  /** A spec is only known to be an object. */
  type Spec = v: Json | IsObject(v) witness Obj(map[])

  /** The validator does not look at `title`, `xLabel` or `yLabel`; the typed
      view keeps them when they are strings. */
  datatype Chart = Chart(
    kind: Option<ChartKind>,
    data: Option<ChartData>,
    spec: Option<Spec>,
    title: Option<string>,
    xLabel: Option<string>,
    yLabel: Option<string>)

  datatype Table = Table(head: seq<string>, body: seq<seq<string>>)

  datatype Body = TextBody | ChartBody(chart: Chart) | TableBody(table: Table)

  /** An accepted response. `id` and `conversationId` are never validated, so
      the typed view does not carry them. */
  datatype Response = Response(message: string, body: Body)

  /** A chart carries valid data, a spec, or both. */
  predicate ValidChart(c: Chart) {
    c.data.Some? || c.spec.Some?
  }

  predicate ValidResponse(r: Response) {
    r.body.ChartBody? ==> ValidChart(r.body.chart)
  }

  function TypeName(b: Body): string {
    match b
    case TextBody => "text"
    case ChartBody(_) => "chart"
    case TableBody(_) => "table"
  }

  function EncodeStrings(xs: seq<string>): Json {
    Arr(seq(|xs|, i requires 0 <= i < |xs| => Str(xs[i])))
  }

  function EncodeNumbers(xs: seq<real>): Json {
    Arr(seq(|xs|, i requires 0 <= i < |xs| => Num(xs[i])))
  }

  function EncodeDataset(d: Dataset): Json {
    Obj(map["name" := Str(d.name), "values" := EncodeNumbers(d.values)])
  }

  function EncodeChartData(d: ChartData): Json {
    Obj(map[
      "labels" := EncodeStrings(d.labels),
      "datasets" := Arr(seq(|d.datasets|, i requires 0 <= i < |d.datasets| => EncodeDataset(d.datasets[i])))])
  }

  function EncodeKind(k: ChartKind): Json {
    match k
    case Bar => Str("bar")
    case Line => Str("line")
  }

  /** Adds `key` to an object's fields only when the typed field is present. */
  function PutIf(m: map<string, Json>, key: string, present: bool, v: Json): map<string, Json> {
    if present then m[key := v] else m
  }

  function EncodeChart(c: Chart): Json {
    var m0 := map[];
    var m1 := PutIf(m0, "type", c.kind.Some?, if c.kind.Some? then EncodeKind(c.kind.value) else Undefined);
    var m2 := PutIf(m1, "data", c.data.Some?, if c.data.Some? then EncodeChartData(c.data.value) else Undefined);
    var m3 := PutIf(m2, "spec", c.spec.Some?, if c.spec.Some? then c.spec.value else Undefined);
    var m4 := PutIf(m3, "title", c.title.Some?, if c.title.Some? then Str(c.title.value) else Undefined);
    var m5 := PutIf(m4, "xLabel", c.xLabel.Some?, if c.xLabel.Some? then Str(c.xLabel.value) else Undefined);
    var m6 := PutIf(m5, "yLabel", c.yLabel.Some?, if c.yLabel.Some? then Str(c.yLabel.value) else Undefined);
    Obj(m6)
  }

  function EncodeTable(t: Table): Json {
    Obj(map[
      "head" := EncodeStrings(t.head),
      "body" := Arr(seq(|t.body|, i requires 0 <= i < |t.body| => EncodeStrings(t.body[i])))])
  }

  function EncodeResponse(r: Response): Json {
    var base := map["message" := Str(r.message), "type" := Str(TypeName(r.body))];
    match r.body
    case TextBody => Obj(base)
    case ChartBody(c) => Obj(base["chart" := EncodeChart(c)])
    case TableBody(t) => Obj(base["table" := EncodeTable(t)])
  }

  /** Reads a string array; it succeeds exactly on the encodings of string lists. */
  function DecodeStrings(v: Json): (r: Option<seq<string>>)
    ensures r.Some? <==> IsStringArray(v)
    ensures r.Some? ==> v == EncodeStrings(r.value)
  {
    if IsStringArray(v) then
      var xs := seq(|v.elems|, i requires 0 <= i < |v.elems| => v.elems[i].s);
      assert v.elems == EncodeStrings(xs).elems;
      Some(xs)
    else None
  }

  /** Reads a number array; it succeeds exactly on the encodings of number lists. */
  function DecodeNumbers(v: Json): (r: Option<seq<real>>)
    ensures r.Some? <==> IsNumberArray(v)
    ensures r.Some? ==> v == EncodeNumbers(r.value)
  {
    if IsNumberArray(v) then
      var xs := seq(|v.elems|, i requires 0 <= i < |v.elems| => v.elems[i].n);
      assert v.elems == EncodeNumbers(xs).elems;
      Some(xs)
    else None
  }

  function DecodeDataset(v: Json): (r: Option<Dataset>)
    ensures r.Some? <==> IsDataset(v)
    ensures r.Some? ==> Get(v, "name") == Str(r.value.name) && Get(v, "values") == EncodeNumbers(r.value.values)
  {
    if IsDataset(v) then Some(Dataset(Get(v, "name").s, DecodeNumbers(Get(v, "values")).value)) else None
  }

  function DecodeChartData(v: Json): (r: Option<ChartData>)
    ensures r.Some? <==> IsChartData(v)
    ensures r.Some? ==> Get(v, "labels") == EncodeStrings(r.value.labels)
    ensures r.Some? ==> |Get(v, "datasets").elems| == |r.value.datasets|
    ensures r.Some? ==> forall i :: 0 <= i < |r.value.datasets| ==>
                           DecodeDataset(Get(v, "datasets").elems[i]) == Some(r.value.datasets[i])
  {
    if IsChartData(v) then
      var ds := Get(v, "datasets").elems;
      Some(ChartData(
        DecodeStrings(Get(v, "labels")).value,
        seq(|ds|, i requires 0 <= i < |ds| => DecodeDataset(ds[i]).value)))
    else None
  }

  function DecodeKind(t: Json): (r: Option<ChartKind>)
    requires IsChartType(t)
    ensures r.None? <==> t == Undefined
    ensures r.Some? ==> EncodeKind(r.value) == t
  {
    if t == Str("bar") then Some(Bar) else if t == Str("line") then Some(Line) else None
  }

  /** Reads an optional string field: present exactly when it is a string. */
  function DecodeText(t: Json): (r: Option<string>)
    ensures r.Some? <==> t.Str?
    ensures r.Some? ==> t == Str(r.value)
  {
    if t.Str? then Some(t.s) else None
  }

  function DecodeChart(v: Json): (r: Option<Chart>)
    ensures r.Some? <==> IsChart(v)
    ensures r.Some? ==> ValidChart(r.value)
    ensures r.Some? ==> (r.value.data.Some? <==> IsChartData(Get(v, "data")))
    ensures r.Some? ==> (r.value.spec.Some? <==> IsSpec(Get(v, "spec")))
    ensures r.Some? && r.value.spec.Some? ==> r.value.spec.value == Get(v, "spec")
    ensures r.Some? && r.value.kind.Some? ==> Get(v, "type") == EncodeKind(r.value.kind.value)
    ensures r.Some? ==> IsChartType(Get(v, "type")) && r.value.kind == DecodeKind(Get(v, "type"))
    ensures r.Some? ==> r.value.data == DecodeChartData(Get(v, "data"))
    ensures r.Some? ==> r.value.title == DecodeText(Get(v, "title"))
    ensures r.Some? ==> r.value.xLabel == DecodeText(Get(v, "xLabel"))
    ensures r.Some? ==> r.value.yLabel == DecodeText(Get(v, "yLabel"))
  {
    if IsChart(v) then
      var data := Get(v, "data");
      var spec := Get(v, "spec");
      Some(Chart(
        DecodeKind(Get(v, "type")),
        DecodeChartData(data),
        if IsSpec(spec) then Some(spec) else None,
        DecodeText(Get(v, "title")),
        DecodeText(Get(v, "xLabel")),
        DecodeText(Get(v, "yLabel"))))
    else None
  }

  function DecodeTable(v: Json): (r: Option<Table>)
    ensures r.Some? <==> IsTable(v)
    ensures r.Some? ==> Get(v, "head") == EncodeStrings(r.value.head)
    ensures r.Some? ==> |Get(v, "body").elems| == |r.value.body|
    ensures r.Some? ==> forall i :: 0 <= i < |r.value.body| ==>
                           Get(v, "body").elems[i] == EncodeStrings(r.value.body[i])
  {
    if IsTable(v) then
      var rows := Get(v, "body").elems;
      Some(Table(
        DecodeStrings(Get(v, "head")).value,
        seq(|rows|, i requires 0 <= i < |rows| => DecodeStrings(rows[i]).value)))
    else None
  }

  /** The refinement of an accepted value into the typed sum type: it succeeds
      exactly when the validator accepts, and the typed value agrees with
      every field the validator inspected. */
  function DecodeResponse(v: Json): (r: Option<Response>)
    ensures r.Some? <==> IsInconvoResponse(v)
    ensures r.Some? ==> ValidResponse(r.value)
    ensures r.Some? ==> Get(v, "message") == Str(r.value.message)
    ensures r.Some? ==> Get(v, "type") == Str(TypeName(r.value.body))
    ensures r.Some? && r.value.body.ChartBody? ==> DecodeChart(Get(v, "chart")) == Some(r.value.body.chart)
    ensures r.Some? && r.value.body.TableBody? ==> DecodeTable(Get(v, "table")) == Some(r.value.body.table)
  {
    if IsInconvoResponse(v) then
      var message := Get(v, "message").s;
      var t := Get(v, "type");
      if t == Str("chart") then Some(Response(message, ChartBody(DecodeChart(Get(v, "chart")).value)))
      else if t == Str("table") then Some(Response(message, TableBody(DecodeTable(Get(v, "table")).value)))
      else Some(Response(message, TextBody))
    else None
  }

  // ---------------------------------------------------------------------------
  // Legacy repair and parseInconvoResponse
  // ---------------------------------------------------------------------------

  /** The guard of the legacy repair: a `"chart"` response whose `chart` is
      falsy while `spec` or `data` is truthy. */
  predicate NeedsLegacyRepair(p: Json) {
    && IsObject(p)
    && Get(p, "type") == Str("chart")
    && !Truthy(Get(p, "chart"))
    && (Truthy(Get(p, "spec")) || Truthy(Get(p, "data")))
  }

  function KeepIf(ok: bool, v: Json): Json {
    if ok then v else Undefined
  }

  /** The keys of the nested chart object built from a flattened payload. */
  const LegacyKeys: set<string> := {"spec", "data", "type", "title", "xLabel", "yLabel"}

  /** Field `key` of that object: `undefined` unless the top-level value passes
      the field's own check. */
  function LegacyField(p: Json, key: string): Json
    requires IsObject(p)
  {
    if key == "spec" then KeepIf(IsSpec(Get(p, "spec")), Get(p, "spec"))
    else if key == "data" then KeepIf(IsChartData(Get(p, "data")), Get(p, "data"))
    else if key == "type" then
      var chartType := Get(p, "chartType");
      KeepIf(Get(p, "type") == Str("chart") && (chartType == Str("bar") || chartType == Str("line")), chartType)
    else KeepIf(Get(p, key).Str?, Get(p, key))
  }

  /** The nested chart object built from a flattened payload. Every field is
      present; each holds the top-level value of the same name (`chartType`
      for `type`) when that value passes its own check, and `undefined`
      otherwise. */
  function LegacyChart(p: Json): (c: Json)
    requires IsObject(p)
    ensures c.Obj? && Truthy(c) && c.fields.Keys == LegacyKeys
    ensures Get(c, "spec") == KeepIf(IsSpec(Get(p, "spec")), Get(p, "spec"))
    ensures Get(c, "data") == KeepIf(IsChartData(Get(p, "data")), Get(p, "data"))
    ensures Get(p, "type") == Str("chart") ==>
              Get(c, "type") == KeepIf(Get(p, "chartType") == Str("bar") || Get(p, "chartType") == Str("line"), Get(p, "chartType"))
    ensures Get(c, "title") == KeepIf(Get(p, "title").Str?, Get(p, "title"))
    ensures Get(c, "xLabel") == KeepIf(Get(p, "xLabel").Str?, Get(p, "xLabel"))
    ensures Get(c, "yLabel") == KeepIf(Get(p, "yLabel").Str?, Get(p, "yLabel"))
  {
    Obj(map k | k in LegacyKeys :: LegacyField(p, k))
  }

  /** The parsed value after the in-place legacy repair: `chart` is inserted
      when the guard holds, and nothing else changes. */
  function Repair(p: Json): (r: Json)
    ensures !NeedsLegacyRepair(p) ==> r == p
    ensures NeedsLegacyRepair(p) ==>
              && p.Obj? && r.Obj?
              && r.fields.Keys == p.fields.Keys + {"chart"}
              && Get(r, "chart") == LegacyChart(p)
              && forall k :: k in p.fields && k != "chart" ==> r.fields[k] == p.fields[k]
  {
    if NeedsLegacyRepair(p) then Obj(p.fields["chart" := LegacyChart(p)]) else p
  }

  /** The value after `typeof value === "string" ? JSON.parse(value) : value`;
      `None` stands for `JSON.parse` throwing. */
  function Parsed(parse: string -> Option<Json>, value: Json): Option<Json> {
    if value.Str? then parse(value.s) else Some(value)
  }

  /** What a call returns, and what the caller's argument is afterwards. */
  datatype Outcome = Outcome(response: Option<Json>, argument: Json)

  /** `parseInconvoResponse(value)`. `JSON.parse` is the parameter `parse`.
      A string argument is left as it was; any other argument is the very
      object that is repaired in place, so the caller sees the repair whether
      or not the result is null, and a non-null result is that object. */
  function ParseInconvoResponse(parse: string -> Option<Json>, value: Json): (o: Outcome)
    ensures value.Str? && parse(value.s).None? ==> o.response.None?
    ensures o.response.Some? ==> DecodeResponse(o.response.value).Some?
    ensures o.response.Some? ==> Parsed(parse, value).Some? && o.response.value == Repair(Parsed(parse, value).value)
    ensures value.Str? ==> o.argument == value
    ensures !value.Str? ==> o.argument == Repair(value)
    ensures !value.Str? && o.response.Some? ==> o.response.value == o.argument
  {
    match Parsed(parse, value)
    case None => Outcome(None, value)
    case Some(parsed) =>
      var candidate := Repair(parsed);
      var response := if IsInconvoResponse(candidate) then Some(candidate) else None;
      Outcome(response, if value.Str? then value else candidate)
  }

  // ---------------------------------------------------------------------------
  // Properties
  // ---------------------------------------------------------------------------

  lemma {:induction false} DecodeEncodeStrings(xs: seq<string>)
    ensures DecodeStrings(EncodeStrings(xs)) == Some(xs)
  {
    var r := DecodeStrings(EncodeStrings(xs));
    assert IsStringArray(EncodeStrings(xs));
    assert |r.value| == |xs|;
    forall i | 0 <= i < |xs| ensures r.value[i] == xs[i] {
      assert EncodeStrings(r.value).elems[i] == EncodeStrings(xs).elems[i];
    }
    assert r.value == xs;
  }

  lemma {:induction false} DecodeEncodeNumbers(xs: seq<real>)
    ensures DecodeNumbers(EncodeNumbers(xs)) == Some(xs)
  {
    var r := DecodeNumbers(EncodeNumbers(xs));
    assert IsNumberArray(EncodeNumbers(xs));
    assert |r.value| == |xs|;
    forall i | 0 <= i < |xs| ensures r.value[i] == xs[i] {
      assert EncodeNumbers(r.value).elems[i] == EncodeNumbers(xs).elems[i];
    }
    assert r.value == xs;
  }

  lemma DecodeEncodeDataset(d: Dataset)
    ensures DecodeDataset(EncodeDataset(d)) == Some(d)
  {
    DecodeEncodeNumbers(d.values);
  }

  lemma DecodeEncodeChartData(d: ChartData)
    ensures DecodeChartData(EncodeChartData(d)) == Some(d)
  {
    var v := EncodeChartData(d);
    DecodeEncodeStrings(d.labels);
    forall i | 0 <= i < |d.datasets| ensures DecodeDataset(Get(v, "datasets").elems[i]) == Some(d.datasets[i]) {
      DecodeEncodeDataset(d.datasets[i]);
    }
    assert IsChartData(v);
    var r := DecodeChartData(v).value;
    assert r.datasets == d.datasets;
  }

  lemma DecodeEncodeChart(c: Chart)
    requires ValidChart(c)
    ensures DecodeChart(EncodeChart(c)) == Some(c)
  {
    var v := EncodeChart(c);
    if c.data.Some? {
      DecodeEncodeChartData(c.data.value);
    }
    assert Get(v, "data") == if c.data.Some? then EncodeChartData(c.data.value) else Undefined;
    assert Get(v, "spec") == if c.spec.Some? then c.spec.value else Undefined;
    assert IsChart(v);
  }

  lemma DecodeEncodeTable(t: Table)
    ensures DecodeTable(EncodeTable(t)) == Some(t)
  {
    var v := EncodeTable(t);
    DecodeEncodeStrings(t.head);
    forall i | 0 <= i < |t.body| ensures DecodeStrings(Get(v, "body").elems[i]) == Some(t.body[i]) {
      DecodeEncodeStrings(t.body[i]);
    }
    assert IsTable(v);
    var r := DecodeTable(v).value;
    assert r.body == t.body;
  }

  /** Every well-formed typed response is accepted, and reads back as itself. */
  lemma DecodeEncodeResponse(r: Response)
    requires ValidResponse(r)
    ensures DecodeResponse(EncodeResponse(r)) == Some(r)
  {
    match r.body
    case TextBody =>
    case ChartBody(c) => DecodeEncodeChart(c);
    case TableBody(t) => DecodeEncodeTable(t);
  }

  /** One malformed dataset rejects the whole chart data. */
  lemma BadDatasetRejectsChartData(v: Json, i: nat)
    requires IsObject(v) && Get(v, "datasets").Arr?
    requires i < |Get(v, "datasets").elems| && !IsDataset(Get(v, "datasets").elems[i])
    ensures !IsChartData(v)
  {
  }

  /** Dataset lengths are never compared with the number of labels. */
  lemma ChartDataIgnoresLengths()
    ensures IsChartData(Obj(map[
              "labels" := Arr([Str("a"), Str("b")]),
              "datasets" := Arr([Obj(map["name" := Str("s"), "values" := Arr([Num(1.0)])])])]))
  {
  }

  /** Table rows may differ in width from each other and from the head. */
  lemma TableRowsMayDiffer()
    ensures IsTable(Obj(map[
              "head" := Arr([Str("a")]),
              "body" := Arr([Arr([]), Arr([Str("1"), Str("2")])])]))
  {
  }

  /** An array is accepted as a spec. */
  lemma ArraySpecAccepted()
    ensures IsChart(Obj(map["spec" := Arr([])]))
  {
  }

  /** A `"text"` response is accepted whatever its `chart` and `table` hold. */
  lemma TextIgnoresPayload(fields: map<string, Json>, chart: Json, table: Json)
    requires "message" in fields && fields["message"].Str?
    requires "type" in fields && fields["type"] == Str("text")
    ensures IsInconvoResponse(Obj(fields["chart" := chart]["table" := table]))
  {
  }

  /** The chart built from a flattened payload is valid exactly when its
      `spec` or its `data` passes its own check. */
  lemma LegacyChartValidity(p: Json)
    requires NeedsLegacyRepair(p)
    ensures IsChart(LegacyChart(p)) <==> IsSpec(Get(p, "spec")) || IsChartData(Get(p, "data"))
  {
  }

  /** A repaired payload is accepted exactly when its `message` is a string and
      its `spec` or `data` is valid; in particular it is rejected when both fail. */
  lemma LegacyAcceptance(parse: string -> Option<Json>, value: Json, p: Json)
    requires Parsed(parse, value) == Some(p) && NeedsLegacyRepair(p)
    ensures ParseInconvoResponse(parse, value).response.Some? <==>
              (Get(p, "message").Str? && (IsSpec(Get(p, "spec")) || IsChartData(Get(p, "data"))))
  {
  }

  /** Without the legacy guard the parsed value is validated as it is. */
  lemma NoRepairValidatesAsIs(parse: string -> Option<Json>, value: Json, p: Json)
    requires Parsed(parse, value) == Some(p) && !NeedsLegacyRepair(p)
    ensures ParseInconvoResponse(parse, value).response == if IsInconvoResponse(p) then Some(p) else None
  {
  }

  /** An existing truthy `chart` is never replaced. */
  lemma TruthyChartKept(p: Json)
    requires IsObject(p) && Truthy(Get(p, "chart"))
    ensures Repair(p) == p
  {
  }

  /** Feeding a result back in returns it unchanged and leaves it unchanged. */
  lemma Idempotent(parse: string -> Option<Json>, value: Json, r: Json)
    requires ParseInconvoResponse(parse, value).response == Some(r)
    ensures ParseInconvoResponse(parse, r) == Outcome(Some(r), r)
  {
  }

  /** A string argument is judged as the value it parses to, unless that value
      is itself a string: a JSON string literal is not parsed a second time and
      is rejected. */
  lemma StringInputAsParsed(parse: string -> Option<Json>, s: string, p: Json)
    requires parse(s) == Some(p)
    ensures p.Str? ==> ParseInconvoResponse(parse, Str(s)).response.None?
    ensures !p.Str? ==> ParseInconvoResponse(parse, Str(s)).response == ParseInconvoResponse(parse, p).response
  {
  }

  // Worked examples

  lemma TextExample(parse: string -> Option<Json>)
    ensures ParseInconvoResponse(parse, Obj(map["message" := Str("hi"), "type" := Str("text")])).response
              == Some(Obj(map["message" := Str("hi"), "type" := Str("text")]))
  {
  }

  lemma UnknownTypeExample(parse: string -> Option<Json>)
    ensures ParseInconvoResponse(parse, Obj(map["message" := Str("x"), "type" := Str("bogus")])).response.None?
  {
  }

  lemma BareChartExample(parse: string -> Option<Json>)
    ensures ParseInconvoResponse(parse, Obj(map["message" := Str("x"), "type" := Str("chart")])).response.None?
  {
  }

  lemma LegacySpecExample(parse: string -> Option<Json>)
    ensures
      var spec := Obj(map["foo" := Num(1.0)]);
      var input := Obj(map["type" := Str("chart"), "message" := Str("m"), "spec" := spec]);
      var o := ParseInconvoResponse(parse, input);
      && o.response.Some?
      && Get(o.response.value, "chart") == Obj(map[
           "spec" := spec, "data" := Undefined, "type" := Undefined,
           "title" := Undefined, "xLabel" := Undefined, "yLabel" := Undefined])
  {
    var spec := Obj(map["foo" := Num(1.0)]);
    var input := Obj(map["type" := Str("chart"), "message" := Str("m"), "spec" := spec]);
    assert NeedsLegacyRepair(input);
    LegacyAcceptance(parse, input, input);
  }
}
