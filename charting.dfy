/** Chart generation requested by the model through function calling: the
    validation of the call's arguments, the choice of data layout, and the
    tool declaration advertised to the model. Drawing itself is an input. */
module Charting {
  import opened Wrappers
  import opened Text
  import opened Json
  import Validation

  const CHART_TOOL_NAME: string := "generate_chart"
  const FAILURE_PREFIX: string := "Failed to generate chart: "
  const VALID_TYPES: set<string> := {"line", "bar", "pie", "scatter"}
  /** The `enum` of the declaration's `chart_type` property, in its order. */
  const CHART_TYPE_ENUM: seq<string> := ["line", "bar", "pie", "scatter"]

  datatype ChartType = Line | Bar | Pie | Scatter

  function TypeName(t: ChartType): string {
    match t
    case Line => "line"
    case Bar => "bar"
    case Pie => "pie"
    case Scatter => "scatter"
  }

  /** The chart type named by an already lower-cased string. */
  function ParseChartType(s: string): (r: Option<ChartType>)
    ensures r.Some? <==> s in VALID_TYPES
    ensures r.Some? ==> TypeName(r.value) == s
  {
    if s == "line" then Some(Line)
    else if s == "bar" then Some(Bar)
    else if s == "pie" then Some(Pie)
    else if s == "scatter" then Some(Scatter)
    else None
  }

  /** Which fields of `data` the drawing uses. */
  datatype Layout =
    | BarSeries       // grouped bars, one per entry of `series`
    | BarLabels       // `labels` against `values`
    | LineSeries      // one line per entry of `series`
    | LineXY          // `x` against `y`
    | LineLabels      // `labels` against `values`
    | PieLabels       // `values` as slices named by `labels`
    | ScatterSeries   // one point cloud per entry of `series`
    | ScatterXY       // `x` against `y`

  /** The layout branch for a chart type and a data dictionary. */
  function SelectLayout(t: ChartType, data: map<string, Json>): (l: Layout)
    ensures ("series" in data && t != Pie) <==> l in {BarSeries, LineSeries, ScatterSeries}
    ensures t == Pie <==> l == PieLabels
    ensures l == LineXY <==> t == Line && "series" !in data && "x" in data && "y" in data
    ensures t == Bar <==> l in {BarSeries, BarLabels}
    ensures t == Scatter <==> l in {ScatterSeries, ScatterXY}
  {
    match t
    case Bar => if "series" in data then BarSeries else BarLabels
    case Line =>
      if "series" in data then LineSeries
      else if "x" in data && "y" in data then LineXY
      else LineLabels
    case Pie => PieLabels
    case Scatter => if "series" in data then ScatterSeries else ScatterXY
  }

  /** The failures raised before drawing starts. */
  datatype ChartFailure =
    | NotADictionary                 // the arguments are not a dictionary
    | MissingField(field: string)    // "chart_type" or "data" absent
    | ChartTypeNotText(value: Json)  // `.lower()` on a non-string
    | InvalidChartType(given: string)
    | DataNotDictionary              // `data` has no `.get` / `[]` by key
    | NoLength(value: Json)          // `len(labels)` or `len(series)` on a non-sized value
    | EmptySeries                    // `0.8 / len(series)` with no series

  /** The exception text for a failure. */
  function Describe(f: ChartFailure): string {
    match f
    case NotADictionary => "Chart data must be a dictionary"
    case MissingField(field) => "Missing required field: " + field
    case ChartTypeNotText(value) => "'" + PyTypeName(value) + "' object has no attribute 'lower'"
    case InvalidChartType(given) => "Invalid chart_type: " + given + ". Must be one of {'line', 'bar', 'pie', 'scatter'}"
    case DataNotDictionary => "data is not a dictionary"
    case NoLength(value) => "object of type '" + PyTypeName(value) + "' has no len()"
    case EmptySeries => "float division by zero"
  }

  /** The Python type name of a decoded argument; numbers in function-call
      arguments arrive as floats. */
  function PyTypeName(v: Json): string {
    match v
    case JNull => "NoneType"
    case JBool(_) => "bool"
    case JNum(_) => "float"
    case JStr(_) => "str"
    case JArr(_) => "list"
    case JObj(_) => "dict"
  }

  /** Everything the drawing needs, as read from the arguments. The axis
      labels are present only when truthy, as the axes get one only then. */
  datatype ChartSpec = ChartSpec(
    chartType: ChartType,
    title: Json,
    xLabel: Option<Json>,
    yLabel: Option<Json>,
    layout: Layout,
    grid: bool)

  function TruthyOrNone(v: Json): (r: Option<Json>)
    ensures r.Some? <==> Truthy(v)
    ensures r.Some? ==> r.value == v
  {
    if Truthy(v) then Some(v) else None
  }

  /** The checks and reads `generate_chart` performs before drawing. */
  function PrepareChart(chartData: Json): (r: Result<ChartSpec, ChartFailure>)
    // the checks come in this order
    ensures !chartData.JObj? ==> r == Err(NotADictionary)
    ensures chartData.JObj? && "chart_type" !in chartData.fields ==> r == Err(MissingField("chart_type"))
    ensures chartData.JObj? && "chart_type" in chartData.fields && "data" !in chartData.fields ==> r == Err(MissingField("data"))
    // an accepted chart has a known (lower-cased but unstripped) type and a dictionary of data
    ensures r.Ok? ==>
              && chartData.JObj? && "chart_type" in chartData.fields && "data" in chartData.fields
              && chartData.fields["chart_type"].JStr?
              && TypeName(r.value.chartType) == Lower(chartData.fields["chart_type"].s)
              && chartData.fields["data"].JObj?
              && r.value.layout == SelectLayout(r.value.chartType, chartData.fields["data"].fields)
    ensures r.Ok? ==> r.value.title == Get(chartData.fields, "title", JStr("Chart"))
    ensures r.Ok? ==> r.value.xLabel == TruthyOrNone(Get(chartData.fields, "x_label", JStr("")))
    ensures r.Ok? ==> r.value.yLabel == TruthyOrNone(Get(chartData.fields, "y_label", JStr("")))
    ensures r.Ok? ==> (r.value.grid <==> r.value.chartType != Pie)
    // grouped bars take the number of labels, then divide by the number of series
    ensures r.Ok? && r.value.layout == BarSeries ==>
              && Length(Get(chartData.fields["data"].fields, "labels", JArr([]))).Some?
              && var n := Length(chartData.fields["data"].fields["series"]);
                 n.Some? && n.value > 0
  {
    if !chartData.JObj? then Err(NotADictionary)
    else
      var fields := chartData.fields;
      if "chart_type" !in fields then Err(MissingField("chart_type"))
      else if "data" !in fields then Err(MissingField("data"))
      else if !fields["chart_type"].JStr? then Err(ChartTypeNotText(fields["chart_type"]))
      else
        var typeText := Lower(fields["chart_type"].s);
        match ParseChartType(typeText)
        case None => Err(InvalidChartType(typeText))
        case Some(t) =>
          var data := fields["data"];
          if !data.JObj? then Err(DataNotDictionary)
          else
            var layout := SelectLayout(t, data.fields);
            var labels := Get(data.fields, "labels", JArr([]));
            if layout == BarSeries && Length(labels).None? then Err(NoLength(labels))
            else if layout == BarSeries && Length(data.fields["series"]).None? then Err(NoLength(data.fields["series"]))
            else if layout == BarSeries && Length(data.fields["series"]).value == 0 then Err(EmptySeries)
            else
              Ok(ChartSpec(t, Get(fields, "title", JStr("Chart")),
                           TruthyOrNone(Get(fields, "x_label", JStr(""))),
                           TruthyOrNone(Get(fields, "y_label", JStr(""))),
                           layout, t != Pie))
  }

  /** `generate_chart`: `draw` is what drawing and encoding the PNG gives,
      the base64 text or the message of the exception raised. Every failure
      comes back as one message with the same prefix. */
  function GenerateChart(chartData: Json, draw: Result<string, string>): (r: Result<string, string>)
    ensures r.Err? ==> StartsWith(r.error, FAILURE_PREFIX)
    ensures r.Ok? <==> PrepareChart(chartData).Ok? && draw.Ok?
    ensures r.Ok? ==> r == draw
    ensures PrepareChart(chartData).Err? ==> r == Err(FAILURE_PREFIX + Describe(PrepareChart(chartData).error))
  {
    match PrepareChart(chartData)
    case Err(f) => Err(FAILURE_PREFIX + Describe(f))
    case Ok(_) =>
      match draw
      case Ok(image) => Ok(image)
      case Err(reason) => Err(FAILURE_PREFIX + reason)
  }

  /** Every chart type `generate_chart` accepts is also accepted by the
      stand-alone validator, with the same normalised name. */
  lemma AcceptedTypeValidates(chartData: Json)
    requires PrepareChart(chartData).Ok?
    ensures Validation.ValidateChartType(chartData.fields["chart_type"].s)
            == Ok(TypeName(PrepareChart(chartData).value.chartType))
  {
    var raw := chartData.fields["chart_type"].s;
    var t := TypeName(PrepareChart(chartData).value.chartType);
    assert Lower(raw) == t;
    assert t != [] && !IsSpace(t[0]) && !IsSpace(t[|t| - 1]);
    StripUnchanged(t);
  }

  /** The converse fails: `generate_chart` lower-cases without stripping,
      so a padded type the validator accepts is refused here. */
  lemma PaddedTypeRefused()
    ensures Validation.ValidateChartType(" bar") == Ok("bar")
    ensures PrepareChart(JObj(map["chart_type" := JStr(" bar"), "data" := JObj(map[])]))
            == Err(InvalidChartType(" bar"))
  {
    assert Lower(" bar") == " bar";
    assert LeadingSpaces(" bar") == 1;
    assert StripLeft(" bar") == "bar";
    StripUnchanged("bar");
  }

  /** Grouped bars with sized labels and an empty `series` list fail with
      a division by zero. */
  lemma EmptyBarSeriesFails(fields: map<string, Json>, data: map<string, Json>)
    requires fields.Keys == {"chart_type", "data"} && fields["chart_type"] == JStr("bar")
    requires fields["data"] == JObj(data) && "series" in data && data["series"] == JArr([])
    requires "labels" !in data || Length(data["labels"]).Some?
    ensures GenerateChart(JObj(fields), Ok("png")) == Err(FAILURE_PREFIX + "float division by zero")
  {
    assert Lower("bar") == "bar";
  }

  /** Grouped bars take `len(labels)` before looking at the series: labels
      without a length fail first, whatever the series. */
  lemma UnsizedLabelsFail(fields: map<string, Json>, data: map<string, Json>)
    requires "chart_type" in fields && fields["chart_type"] == JStr("bar")
    requires "data" in fields && fields["data"] == JObj(data) && "series" in data
    requires "labels" in data && Length(data["labels"]).None?
    ensures GenerateChart(JObj(fields), Ok("png"))
            == Err(FAILURE_PREFIX + ("object of type '" + PyTypeName(data["labels"]) + "' has no len()"))
  {
    assert Lower("bar") == "bar";
    assert SelectLayout(Bar, data) == BarSeries;
    assert PrepareChart(JObj(fields)) == Err(NoLength(data["labels"]));
  }

  /** A `null` label list next to an empty series list: the labels fail
      first, so the division by zero is never reached. */
  lemma NullLabelsBeforeEmptySeries(fields: map<string, Json>, data: map<string, Json>)
    requires "chart_type" in fields && fields["chart_type"] == JStr("bar")
    requires "data" in fields && fields["data"] == JObj(data)
    requires "series" in data && data["series"] == JArr([])
    requires "labels" in data && data["labels"] == JNull
    ensures GenerateChart(JObj(fields), Ok("png")) == Err(FAILURE_PREFIX + Describe(NoLength(JNull)))
  {
    UnsizedLabelsFail(fields, data);
  }

  /** The text Python gives for `len(None)`. */
  lemma NullHasNoLength()
    ensures Describe(NoLength(JNull)) == "object of type 'NoneType' has no len()"
  {
  }


  /** Schema pieces of the function declaration sent with every chat
      request. */
  const STRING_SCHEMA: Json := JObj(map["type" := JStr("string")])
  const NUMBERS_SCHEMA: Json := JObj(map["type" := JStr("array"), "items" := JObj(map["type" := JStr("number")])])
  const TOOL_DESCRIPTION: string := "Generate a chart/graph to visualize data. Use this when the user asks to plot, chart, graph, or visualize data."
  const REQUIRED_FIELDS: seq<string> := ["chart_type", "title", "data"]

  function Numbers(description: string): Json {
    JObj(NUMBERS_SCHEMA.fields["description" := JStr(description)])
  }

  function Described(t: string, description: string): Json {
    JObj(map["type" := JStr(t), "description" := JStr(description)])
  }

  function ChartTypeParameter(): (p: Json)
    ensures p.JObj? && "enum" in p.fields && p.fields["enum"] == StrArray(CHART_TYPE_ENUM)
  {
    JObj(map["type" := JStr("string"), "enum" := StrArray(CHART_TYPE_ENUM),
             "description" := JStr("Type of chart to generate")])
  }

  function SeriesParameter(): Json {
    JObj(map[
      "type" := JStr("array"),
      "description" := JStr("Multiple data series"),
      "items" := JObj(map[
        "type" := JStr("object"),
        "properties" := JObj(map[
          "name" := STRING_SCHEMA,
          "values" := NUMBERS_SCHEMA,
          "x" := Numbers("X coordinates for this series (scatter/line)"),
          "y" := Numbers("Y coordinates for this series (scatter/line)")])])])
  }

  function DataParameter(): Json {
    JObj(map[
      "type" := JStr("object"),
      "description" := JStr("Chart data with labels and values"),
      "properties" := JObj(map[
        "labels" := JObj(map["type" := JStr("array"), "items" := STRING_SCHEMA,
                             "description" := JStr("Data labels (for bar/line/pie)")]),
        "values" := Numbers("Data values (for single series)"),
        "x" := Numbers("X coordinates (for scatter/line)"),
        "y" := Numbers("Y coordinates (for scatter/line)"),
        "series" := SeriesParameter()])])
  }

  function Properties(): (p: map<string, Json>)
    ensures "chart_type" in p && p["chart_type"] == ChartTypeParameter()
  {
    map[
      "chart_type" := ChartTypeParameter(),
      "title" := Described("string", "Chart title"),
      "x_label" := Described("string", "X-axis label (optional)"),
      "y_label" := Described("string", "Y-axis label (optional)"),
      "data" := DataParameter()]
  }

  /** The declared parameters: their properties and the required fields. */
  function DeclaredParameters(): (p: map<string, Json>)
    ensures "properties" in p && p["properties"] == JObj(Properties())
    ensures "required" in p && p["required"] == StrArray(REQUIRED_FIELDS)
  {
    map["type" := JStr("object"), "properties" := JObj(Properties()), "required" := StrArray(REQUIRED_FIELDS)]
  }

  /** The function declaration sent with every chat request. */
  function ToolDeclaration(): (d: Json)
    ensures d.JObj? && "name" in d.fields && d.fields["name"] == JStr(CHART_TOOL_NAME)
    ensures "parameters" in d.fields && d.fields["parameters"] == JObj(DeclaredParameters())
  {
    JObj(map[
      "name" := JStr(CHART_TOOL_NAME),
      "description" := JStr(TOOL_DESCRIPTION),
      "parameters" := JObj(DeclaredParameters())])
  }

  /** The declaration asks for exactly the four chart types the generator
      accepts, and requires the fields the generator checks first. */
  lemma DeclarationMatchesGenerator()
    ensures ToolDeclaration().fields["parameters"].fields["properties"].fields["chart_type"].fields["enum"] == StrArray(CHART_TYPE_ENUM)
    ensures (set k | 0 <= k < |CHART_TYPE_ENUM| :: CHART_TYPE_ENUM[k]) == VALID_TYPES
    ensures ToolDeclaration().fields["parameters"].fields["required"] == StrArray(["chart_type", "title", "data"])
    ensures forall k :: 0 <= k < |CHART_TYPE_ENUM| ==> ParseChartType(Lower(CHART_TYPE_ENUM[k])).Some?
  {
    var s := set k | 0 <= k < |CHART_TYPE_ENUM| :: CHART_TYPE_ENUM[k];
    assert CHART_TYPE_ENUM[0] in s && CHART_TYPE_ENUM[1] in s && CHART_TYPE_ENUM[2] in s && CHART_TYPE_ENUM[3] in s;
    forall k | 0 <= k < |CHART_TYPE_ENUM| ensures Lower(CHART_TYPE_ENUM[k]) == CHART_TYPE_ENUM[k] {
      LowerIsIdentityOnLowerCase(CHART_TYPE_ENUM[k]);
    }
  }

  lemma LowerIsIdentityOnLowerCase(s: string)
    requires forall k :: 0 <= k < |s| ==> !('A' <= s[k] <= 'Z')
    ensures Lower(s) == s
  {
  }

  /** A chart with a declared type and a dictionary of data, and no
      grouped bars, got from the model always reaches drawing. */
  lemma DeclaredTypesPrepare(k: nat, data: map<string, Json>)
    requires k < |CHART_TYPE_ENUM| && "series" !in data
    ensures PrepareChart(JObj(map["chart_type" := JStr(CHART_TYPE_ENUM[k]), "data" := JObj(data)])).Ok?
  {
    var t := CHART_TYPE_ENUM[k];
    LowerIsIdentityOnLowerCase(t);
    assert t in VALID_TYPES;
    assert ParseChartType(Lower(t)).Some?;
  }
}
