/**
 * Choosing what a chart plots. A Plotly figure is reduced to the record of its
 * kind, its two series and its title; the series and title are the JSON values
 * the builder hands to Plotly, untouched.
 */
module Charts {
  import opened Json

  datatype ChartKind = Bar | Line | Pie | Scatter

  /** For Bar and Line `xs`/`ys` are x and y; for Pie they are the slice names and values. */
  datatype Chart = Chart(kind: ChartKind, xs: Json, ys: Json, title: Json)

  /**
   * The chart-type names offered to the user. Each is also its builder's
   * default title (`data.get('title', 'Bar Chart')` and so on).
   */
  function KindName(kind: ChartKind): string {
    match kind
    case Bar => "Bar Chart"
    case Line => "Line Chart"
    case Pie => "Pie Chart"
    case Scatter => "Scatter Plot"
  }

  /** The if/elif dispatch on the chart type: an unknown name goes to the bar builder. */
  function KindOf(chartType: string): (r: ChartKind)
    ensures KindName(r) == chartType || r == Bar
    ensures forall k :: KindName(k) == chartType ==> r == k
  {
    if chartType == "Bar Chart" then Bar
    else if chartType == "Line Chart" then Line
    else if chartType == "Pie Chart" then Pie
    else if chartType == "Scatter Plot" then Scatter
    else Bar
  }

  /** The dict keys a builder reads its two series from. */
  function SeriesKeys(kind: ChartKind): (string, string) {
    match kind
    case Bar => ("labels", "values")
    case Pie => ("labels", "values")
    case Line => ("x", "y")
    case Scatter => ("x", "y")
  }

  function Strings(ss: seq<string>): seq<Json> {
    seq(|ss|, i requires 0 <= i < |ss| => JString(ss[i]))
  }

  function Ints(ns: seq<int>): seq<Json> {
    seq(|ns|, i requires 0 <= i < |ns| => JInt(ns[i]))
  }

  /** The fixed chart a builder draws when the data lacks its keys. */
  function ExampleChart(kind: ChartKind): Chart {
    match kind
    case Bar => Chart(Bar, JArray(Strings(["A", "B", "C"])), JArray(Ints([1, 2, 3])),
                      JString("Example Bar Chart (Data format was incorrect)"))
    case Line => Chart(Line, JArray(Ints([1, 2, 3])), JArray(Ints([1, 4, 2])),
                       JString("Example Line Chart (Data format was incorrect)"))
    case Pie => Chart(Pie, JArray(Strings(["A", "B", "C"])), JArray(Ints([1, 2, 3])),
                      JString("Example Pie Chart (Data format was incorrect)"))
    case Scatter => Chart(Scatter, JArray(Ints([1, 2, 3])), JArray(Ints([1, 4, 2])),
                          JString("Example Scatter Plot (Data format was incorrect)"))
  }

  /**
   * `create_bar_chart`, `create_line_chart`, `create_pie_chart` and
   * `create_scatter_plot`: plot the data's own series when the data is a dict
   * holding both keys of the kind, with its title or the kind's default
   * title; otherwise the kind's example chart. Only the presence of the keys
   * is checked, not their types or lengths.
   */
  function CreateChart(kind: ChartKind, data: Json): (c: Chart)
    ensures c.kind == kind
    ensures HasKeys(data, SeriesKeys(kind).0, SeriesKeys(kind).1) ==>
      c.xs == data.fields[SeriesKeys(kind).0] && c.ys == data.fields[SeriesKeys(kind).1]
      && ("title" in data.fields ==> c.title == data.fields["title"])
      && ("title" !in data.fields ==> c.title == JString(KindName(kind)))
    ensures !HasKeys(data, SeriesKeys(kind).0, SeriesKeys(kind).1) ==> c == ExampleChart(kind)
  {
    var (xKey, yKey) := SeriesKeys(kind);
    if HasKeys(data, xKey, yKey) then
      Chart(kind, data.fields[xKey], data.fields[yKey], Get(data, "title", JString(KindName(kind))))
    else ExampleChart(kind)
  }

  /** The chart `scrape_and_visualize` draws for a chart-type name. */
  function BuildChart(chartType: string, data: Json): Chart {
    CreateChart(KindOf(chartType), data)
  }

  /** Every offered name selects its own builder; every other name selects the bar builder. */
  lemma DispatchByName(chartType: string, data: Json)
    ensures forall k :: chartType == KindName(k) ==> BuildChart(chartType, data) == CreateChart(k, data)
    ensures (forall k :: chartType != KindName(k)) ==> BuildChart(chartType, data) == CreateChart(Bar, data)
  {
  }

  /**
   * Data in the labels/values shape the prompt asks for is drawn by the bar
   * and pie builders, but the line and scatter builders, which read `x`/`y`,
   * draw their example chart instead.
   */
  lemma PromptedShapeOnlyFitsBarAndPie(data: Json, kind: ChartKind)
    requires data.JObject? && forall key :: key in data.fields ==> key in {"labels", "values", "title"}
    requires "labels" in data.fields && "values" in data.fields
    ensures kind in {Bar, Pie} ==> CreateChart(kind, data).xs == data.fields["labels"]
    ensures kind in {Line, Scatter} ==> CreateChart(kind, data) == ExampleChart(kind)
  {
    if kind in {Line, Scatter} {
      assert "x" !in data.fields;
    }
  }

  /** With well-formed data a categorical chart has one bar or slice per label. */
  lemma SeriesLengthMatchesLabels(kind: ChartKind, labels: seq<Json>, values: seq<Json>, title: Json)
    requires kind in {Bar, Pie}
    ensures var c := CreateChart(kind, JObject(map["labels" := JArray(labels), "values" := JArray(values), "title" := title]));
      c.xs == JArray(labels) && c.ys == JArray(values) && c.title == title
  {
  }
}
