/** The application selection state (`App` in src/app/mod.rs): the selected tab, the
    selected chart-site index and the site registry, plus the output format chosen on
    the command line. */
module AppState {
  import opened Status
  import opened Sites
  import opened Tabs

  /** The two ways the live tab can show a site (`cli::OutputFmt`). */
  datatype OutputFmt = Bullet | Line

  /** The output format as `App::generate` computes it from the `--output-fmt` value:
      `get_one(..).unwrap()` panics when the flag was not given, and `unreachable!()`
      panics on any value other than "bullet" and "line". A panic is `None`. */
  function OutputFmtAsWritten(arg: Option<string>): (r: Option<OutputFmt>)
    ensures r == Some(Bullet) <==> arg == Some("bullet")
    ensures r == Some(Line) <==> arg == Some("line")
  {
    match arg
    case None => None
    case Some(s) =>
      if s == "bullet" then Some(Bullet)
      else if s == "line" then Some(Line)
      else None
  }

  /** Without the flag, the format as written is a panic, though the flag's help text
      announces "bullet" as the default. */
  lemma OutputFmtPanicsWithoutFlag()
    ensures OutputFmtAsWritten(None) == None
  {
  }

  /** The output format with the documented default: "bullet" when the flag is absent. */
  function OutputFmtFromArg(arg: Option<string>): (r: Option<OutputFmt>)
    ensures arg == None ==> r == Some(Bullet)
    ensures arg != None ==> r == OutputFmtAsWritten(arg)
    ensures r.None? <==> arg.Some? && arg.value != "bullet" && arg.value != "line"
  {
    if arg.None? then Some(Bullet) else OutputFmtAsWritten(arg)
  }

  /** `next_chart_site` on index `idx` in a registry of `len` sites: one on, unless the
      index is already `len - 1`. `len - 1` underflows on an empty registry, hence the
      precondition. */
  function NextIndex(idx: nat, len: nat): (r: nat)
    requires len >= 1
    ensures r == idx <==> idx == len - 1
    ensures r != idx ==> r == idx + 1
    ensures idx < len ==> r < len
  {
    if idx != len - 1 then idx + 1 else idx
  }

  /** `prev_chart_site`: one back, saturating at 0. */
  function PrevIndex(idx: nat): (r: nat)
    ensures r == idx <==> idx == 0
    ensures r != idx ==> r == idx - 1
  {
    SaturatingSub(idx, 1)
  }

  /** The chart-site commands of the input handler. */
  datatype ChartCommand = NextSite | PrevSite

  /** The selected index after running `cmds` in order on a registry of `len` sites. */
  function RunChartCommands(idx: nat, len: nat, cmds: seq<ChartCommand>): nat
    requires len >= 1
    decreases |cmds|
  {
    if cmds == [] then idx
    else
      var next := match cmds[0]
        case NextSite => NextIndex(idx, len)
        case PrevSite => PrevIndex(idx);
      RunChartCommands(next, len, cmds[1..])
  }

  /** An index that starts inside the registry stays inside it, whatever commands run. */
  lemma {:induction false} ChartIndexStaysInRange(idx: nat, len: nat, cmds: seq<ChartCommand>)
    requires len >= 1 && idx < len
    ensures RunChartCommands(idx, len, cmds) < len
    decreases |cmds|
  {
    if cmds != [] {
      var next := match cmds[0]
        case NextSite => NextIndex(idx, len)
        case PrevSite => PrevIndex(idx);
      ChartIndexStaysInRange(next, len, cmds[1..]);
    }
  }

  /** At a boundary, repeating the command that pushes against it changes nothing. */
  lemma {:induction false} ChartIndexSaturates(len: nat, k: nat)
    requires len >= 1
    ensures RunChartCommands(len - 1, len, seq(k, _ => NextSite)) == len - 1
    ensures RunChartCommands(0, len, seq(k, _ => PrevSite)) == 0
    decreases k
  {
    if k > 0 {
      ChartIndexSaturates(len, k - 1);
      assert seq(k, _ => NextSite)[1..] == seq(k - 1, _ => NextSite);
      assert seq(k, _ => PrevSite)[1..] == seq(k - 1, _ => PrevSite);
    }
  }

  /** The application state. The registry (shared behind a mutex in the source) is a
      fixed sequence of sites; its length never changes after start-up. */
  class App {
    const sites: seq<Site>
    const outputFmt: OutputFmt
    var selectedTab: SelectedTab
    var selectedChartSiteIdx: nat

    /** The selection invariant: the chart-site index names a site. */
    predicate Valid()
      reads this
    {
      selectedChartSiteIdx < |sites|
    }

    /** Every site's history is full. */
    ghost predicate HistoriesFull()
      reads this, sites
    {
      forall i :: 0 <= i < |sites| ==> sites[i].Valid()
    }

    /** `App::generate`: the three configured sites in order, the live tab, site 0.
        `fmtArg` is the `--output-fmt` value, mapped as written: the flag must be
        present and be "bullet" or "line", or the program panics. */
    constructor Generate(fmtArg: Option<string>)
      requires OutputFmtAsWritten(fmtArg).Some?
      ensures Valid() && HistoriesFull()
      ensures |sites| == 3
      ensures sites[0].name == "GitHub" && sites[0].url == "https://github.com"
      ensures sites[1].name == "Google" && sites[1].url == "https://google.com"
      ensures sites[2].name == "Steam" && sites[2].url == "https://steampowered.com"
      ensures forall i :: 0 <= i < |sites| ==> fresh(sites[i]) && sites[i].statusCodes == Unprobed()
      ensures outputFmt == OutputFmtAsWritten(fmtArg).value
      ensures selectedTab == SelectedTab.Live && selectedChartSiteIdx == 0
    {
      var github := new Site("GitHub", "https://github.com");
      var google := new Site("Google", "https://google.com");
      var steam := new Site("Steam", "https://steampowered.com");
      sites := [github, google, steam];
      outputFmt := OutputFmtAsWritten(fmtArg).value;
      selectedTab := SelectedTab.Live;
      selectedChartSiteIdx := 0;
    }

    /** `next_tab`. */
    method NextTab()
      modifies this`selectedTab
      ensures selectedTab == Next(old(selectedTab))
      ensures selectedChartSiteIdx == old(selectedChartSiteIdx)
    {
      selectedTab := Next(selectedTab);
    }

    /** `prev_tab`. */
    method PrevTab()
      modifies this`selectedTab
      ensures selectedTab == Prev(old(selectedTab))
      ensures selectedChartSiteIdx == old(selectedChartSiteIdx)
    {
      selectedTab := Prev(selectedTab);
    }

    /** `get_selected_chart_site_idx`: the selected index, a valid site position. */
    function GetSelectedChartSiteIdx(): (idx: nat)
      reads this
      requires Valid()
      ensures idx < |sites|
    {
      selectedChartSiteIdx
    }

    /** `next_chart_site`: needs a non-empty registry (`len() - 1` underflows otherwise). */
    method NextChartSite()
      requires |sites| >= 1
      modifies this`selectedChartSiteIdx
      ensures selectedChartSiteIdx == NextIndex(old(selectedChartSiteIdx), |sites|)
      ensures old(Valid()) ==> Valid()
      ensures selectedTab == old(selectedTab)
    {
      if selectedChartSiteIdx != |sites| - 1 {
        selectedChartSiteIdx := selectedChartSiteIdx + 1;
      }
    }

    /** `prev_chart_site`. */
    method PrevChartSite()
      modifies this`selectedChartSiteIdx
      ensures selectedChartSiteIdx == PrevIndex(old(selectedChartSiteIdx))
      ensures old(Valid()) ==> Valid()
      ensures selectedTab == old(selectedTab)
    {
      selectedChartSiteIdx := PrevIndex(selectedChartSiteIdx);
    }
  }
}
