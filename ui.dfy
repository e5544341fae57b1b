/** The discrete rules inside the renderer (src/ui.rs): the colour that stands for a
    site's newest outcome on the live tab, and the slots and levels of the history
    chart. Drawing itself (frames, widgets, styles) is not modelled. */
module Ui {
  import opened Status
  import opened Sites
  import opened Tabs
  import opened AppState

  /** The terminal colours the live tab uses. */
  datatype Color = Gray | Green | Yellow | Red | DarkGray | Black

  /** The colour for a site's newest history entry: gray before the first probe, green
      for status 200, yellow for any other status, red for a failed probe. */
  function StatusColor(newest: StatusCode): (c: Color)
    ensures c == Gray <==> newest.None?
    ensures c == Green <==> newest == Some(Ok(200))
    ensures c == Yellow <==> newest.Some? && newest.value.Ok? && newest.value.code != 200
    ensures c == Red <==> newest == Some(Err)
    ensures c != DarkGray && c != Black
  {
    if newest.None? then Gray
    else
      match newest.value
      case Ok(code) => if code == 200 then Green else Yellow
      case Err => Red
  }

  /** The foreground of a line in the `Line` format. */
  function Foreground(background: Color): Color
  {
    if background == DarkGray then DarkGray else Black
  }

  /** One list item of the live tab: a coloured marker before the name (`Bullet`), or
      the name on a coloured bar in bold (`Line`). */
  datatype ListLine =
    | BulletLine(marker: string, markerColor: Color, name: string)
    | BarLine(text: string, bg: Color, fg: Color)

  /** The list item for a site named `name` whose newest entry is `newest`. */
  function SiteLine(name: string, newest: StatusCode, fmt: OutputFmt): (l: ListLine)
    ensures l.BulletLine? <==> fmt == Bullet
    ensures l.BulletLine? ==> l.name == name && l.markerColor == StatusColor(newest)
    ensures l.BarLine? ==> l.text == " " + name && l.bg == StatusColor(newest)
    ensures l.BarLine? ==> l.fg == Black
  {
    var color := StatusColor(newest);
    match fmt
    case Bullet => BulletLine(" ■ ", color, name)
    case Line => BarLine(" " + name, color, Foreground(color))
  }

  /** `render_tab_live`: one list item per site, in registry order. Indexing entry 0
      of each history is safe because every history holds `MAX_STATUSES` entries. */
  method RenderTabLive(app: App) returns (items: seq<ListLine>)
    requires app.HistoriesFull()
    ensures |items| == |app.sites|
    ensures forall i :: 0 <= i < |items| ==>
      items[i] == SiteLine(app.sites[i].name, app.sites[i].statusCodes[0], app.outputFmt)
  {
    var sites := app.sites;
    items := [];
    for i := 0 to |sites|
      invariant |items| == i
      invariant forall k :: 0 <= k < i ==>
        items[k] == SiteLine(sites[k].name, sites[k].statusCodes[0], app.outputFmt)
    {
      var codes := sites[i].GetStatusCodes();
      items := items + [SiteLine(sites[i].name, codes[0], app.outputFmt)];
    }
  }

  /** Number of chart slots (`LEN`, the history capacity). */
  const LEN: nat := MAX_STATUSES

  /** The height of a chart point: `f64::MIN` (no point shown) before the first probe,
      0 for a failed probe, 1 for status 200 and 0.5 for any other status. */
  datatype Level = Missing | Zero | Half | One

  function LevelOf(s: StatusCode): (l: Level)
    ensures l == Missing <==> s.None?
    ensures l == Zero <==> s == Some(Err)
    ensures l == One <==> s == Some(Ok(200))
    ensures l == Half <==> s.Some? && s.value.Ok? && s.value.code != 200
  {
    match s
    case None => Missing
    case Some(Err) => Zero
    case Some(Ok(code)) => if code == 200 then One else Half
  }

  /** A slot of the chart array: untouched (`(f64::MIN, f64::MIN)`), or the point at
      `x` with height `y`. */
  datatype ChartPoint = Blank | Plotted(x: nat, y: Level)

  /** The slot of history position `idx`: `LEN - idx - 1`. */
  function Slot(idx: nat): nat
    requires idx < LEN
  {
    LEN - idx - 1
  }

  /** Slots stay in the array, reverse the order of the history (newest last) and
      map back to the position they came from. */
  lemma SlotReverses(i: nat, j: nat)
    requires i < LEN && j < LEN
    ensures Slot(i) < LEN && Slot(Slot(i)) == i
    ensures i < j ==> Slot(j) < Slot(i)
    ensures i == 0 ==> Slot(i) == LEN - 1
  {
  }

  /** The chart data for a history: the first `LEN` entries, each at its reversed slot,
      every other slot untouched. */
  function ChartOf(statuses: seq<StatusCode>): (r: seq<ChartPoint>)
    ensures |r| == LEN
    ensures forall idx :: 0 <= idx < |statuses| && idx < LEN ==>
      r[Slot(idx)] == Plotted(Slot(idx), LevelOf(statuses[idx]))
    ensures forall j :: 0 <= j < LEN && |statuses| <= LEN - 1 - j ==> r[j] == Blank
    ensures |statuses| > 0 ==> r[LEN - 1] == Plotted(LEN - 1, LevelOf(statuses[0]))
  {
    seq(LEN, j requires 0 <= j < LEN =>
      if LEN - 1 - j < |statuses| then Plotted(j, LevelOf(statuses[LEN - 1 - j])) else Blank)
  }

  /** The loop of `render_tab_chart`: a fixed array of `LEN` blank slots, filled from
      the first `LEN` history entries. */
  method ChartData(statuses: seq<StatusCode>) returns (data: seq<ChartPoint>)
    ensures data == ChartOf(statuses)
  {
    var a := new ChartPoint[LEN](_ => Blank);
    var idx := 0;
    while idx < |statuses| && idx < LEN
      invariant 0 <= idx <= LEN
      invariant idx <= |statuses|
      invariant forall j :: 0 <= j < LEN ==>
        a[j] == if LEN - 1 - j < idx then Plotted(j, LevelOf(statuses[LEN - 1 - j])) else Blank
    {
      var slot := LEN - idx - 1;
      a[slot] := Plotted(slot, LevelOf(statuses[idx]));
      idx := idx + 1;
    }
    data := a[..];
    assert forall j :: 0 <= j < LEN ==> data[j] == ChartOf(statuses)[j];
  }

  /** `render_tab_chart` as written: the chart always shows site 0's history, whatever
      chart site is selected; an empty registry panics on `[0]`. */
  method RenderTabChart(app: App) returns (data: seq<ChartPoint>)
    requires |app.sites| >= 1
    ensures data == ChartOf(app.sites[0].statusCodes)
  {
    var statuses := app.sites[0].GetStatusCodes();
    data := ChartData(statuses);
  }

  /** Selecting a chart site other than site 0 does not change the chart drawn as
      written: with site 0 never probed and site 1 just answered 200, the chart for
      "site 1 selected" is still site 0's, which differs from site 1's. */
  lemma ChartIgnoresSelectedSite()
    ensures ChartOf(Unprobed()) != ChartOf(Push(Unprobed(), Some(Ok(200))))
  {
  }

  /** The chart for the selected chart site, as the selection commands intend. */
  method RenderSelectedChart(app: App) returns (data: seq<ChartPoint>)
    requires app.Valid()
    ensures data == ChartOf(app.sites[app.GetSelectedChartSiteIdx()].statusCodes)
  {
    var statuses := app.sites[app.GetSelectedChartSiteIdx()].GetStatusCodes();
    data := ChartData(statuses);
  }

  /** What one redraw shows. */
  datatype View = LiveView(items: seq<ListLine>) | ChartView(data: seq<ChartPoint>)

  /** `ui`: the live list or the chart, according to the selected tab. As written, the
      chart tab draws site 0 whatever chart site is selected. */
  method Render(app: App) returns (view: View)
    requires app.Valid() && app.HistoriesFull()
    ensures view.LiveView? <==> app.selectedTab == SelectedTab.Live
    ensures view.LiveView? ==> |view.items| == |app.sites|
    ensures view.LiveView? ==> forall i :: 0 <= i < |view.items| ==>
      view.items[i] == SiteLine(app.sites[i].name, app.sites[i].statusCodes[0], app.outputFmt)
    ensures view.ChartView? ==> view.data == ChartOf(app.sites[0].statusCodes)
  {
    match app.selectedTab
    case Live =>
      var items := RenderTabLive(app);
      view := LiveView(items);
    case Chart =>
      var data := RenderTabChart(app);
      view := ChartView(data);
  }

  /** `ui` with the corrected chart tab: the chart of the selected site. */
  method RenderCorrected(app: App) returns (view: View)
    requires app.Valid() && app.HistoriesFull()
    ensures view.LiveView? <==> app.selectedTab == SelectedTab.Live
    ensures view.LiveView? ==> |view.items| == |app.sites|
    ensures view.LiveView? ==> forall i :: 0 <= i < |view.items| ==>
      view.items[i] == SiteLine(app.sites[i].name, app.sites[i].statusCodes[0], app.outputFmt)
    ensures view.ChartView? ==>
      view.data == ChartOf(app.sites[app.GetSelectedChartSiteIdx()].statusCodes)
  {
    match app.selectedTab
    case Live =>
      var items := RenderTabLive(app);
      view := LiveView(items);
    case Chart =>
      var data := RenderSelectedChart(app);
      view := ChartView(data);
  }
}
