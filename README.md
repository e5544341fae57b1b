# lanturn: site-status history, tab and selection state

A Dafny model of the sequential core of lanturn, a terminal monitor that probes a fixed
list of web sites and shows their reachability. It covers the following parts:

- **Status entries.** Each entry is `Option<Result<u16, ()>>`. `None` means not yet probed, `Some(Ok(code))` is a response and `Some(Err)` is a failed probe. This is module `Status`.
- **Per-site history.** Each site keeps a bounded, newest-first deque of `MAX_STATUSES = 50` entries. A new site starts with 50 `None` entries. A push drops the back entry when the history is full, then adds the new entry at the front. The `Site` class (module `Sites`) holds this history as a `seq` field, and the method that changes it is specified by the pure function `Sites.Push`. The lemmas cover one push, many pushes (the sliding window) and the length bound.
- **Tab state machine.** `SelectedTab` has two variants, `Live` and `Chart`. Its `next` and `prev` work by `usize` saturating arithmetic on the ordinal, then `from_repr(..).unwrap_or(self)`. Its `title` adds two spaces on each side of the name. This is module `Tabs`.
- **Application state.** The `App` class (module `AppState`) holds the registry as a fixed `seq<Site>`, the output format, the selected tab and the selected chart-site index. It has the tab and chart-site commands and the initial state built by `App::generate`. The commands are specified by the pure functions `NextIndex` and `PrevIndex`, and a lemma shows the index stays in range for any command sequence.
- **Renderer rules.** Module `Ui` covers the discrete rules in `src/ui.rs`:
  - the colour that stands for a site's newest entry, and the list item built from it;
  - the loop that builds one item per site;
  - the chart loop, which writes history position `idx` into slot `LEN - idx - 1` of a fixed array, with a level for each entry.

`src/app/mod.rs` declares its own copies of `Site`, `MAX_STATUSES` and `SelectedTab`. These copies behave the same as `src/app/site.rs` and `src/app/selected_tab.rs`. The only difference is that the address field is named `addr` there and `url` here. Each is modelled once, and the table cites the `site.rs` / `selected_tab.rs` lines.

## Model

| member | source | states |
|---|---|---|
| `Sites.Unprobed` | src/app/site.rs:13-19 | a new history has exactly `MAX_STATUSES` entries, all `None` |
| `Sites.Push` | src/app/site.rs:21-27 | after a push, entry 0 is the new code. The rest is the old history without its back entry when the history was full, and the whole old history otherwise. The length stays `MAX_STATUSES` when full and grows by one otherwise |
| `Sites.PushLength` | src/app/site.rs:22-26 | a full history stays full. A shorter one grows by one with the old entries shifted right by one. Length ≤ `MAX_STATUSES` is preserved |
| `Sites.PushEvictsOldest` | src/app/site.rs:22-26 | on a full history, the result is `[code] + old[..MAX_STATUSES-1]`, so only the oldest entry is evicted |
| `Sites.PushAllBounded` | src/app/site.rs:17-27 | after any number of pushes the length is still ≤ `MAX_STATUSES`. It stays exactly `MAX_STATUSES` when it started there |
| `Sites.PushAllWindow` | src/app/site.rs:21-27 | pushing codes into a full history gives those codes newest-first followed by the old history, cut to `MAX_STATUSES` |
| `Sites.PushIntoUnprobed` | src/app/site.rs:13-27 | after k ≤ `MAX_STATUSES` pushes into a new site, positions 0..k-1 hold the codes newest-first and every later position holds `None` |
| `Sites.PushAllEvictsFifo` | src/app/site.rs:21-27 | after `MAX_STATUSES` or more pushes, exactly the last `MAX_STATUSES` codes remain, newest first, and the oldest are evicted first |
| `Sites.Site.constructor` | src/app/site.rs:13-19 | `Site::new` stores the name and the address and starts with an unprobed history, so the history is full (`Valid`) |
| `Sites.Site.PushStatusCode` | src/app/site.rs:21-27 | the history becomes `Push(old history, code)`. A bounded history stays bounded, and a full one stays full (`Valid`). Name and address are immutable fields, so they do not change |
| `Sites.Site.GetStatusCodes` | src/app/site.rs:29-31 | returns a value equal to the current history and changes nothing |
| `Tabs.FromRepr` | src/app/selected_tab.rs:4-10 | strum `from_repr` gives a variant exactly for ordinals 0 and 1, and that variant has the given ordinal |
| `Tabs.SaturatingAdd` | src/app/selected_tab.rs:15 | `usize::saturating_add`: the exact sum, or `usize::MAX` when the sum would overflow |
| `Tabs.SaturatingSub` | src/app/selected_tab.rs:21 | `usize::saturating_sub`: the exact difference, or 0 when it would go below zero |
| `Tabs.Next` | src/app/selected_tab.rs:13-17 | `next` never lowers the ordinal and raises it by at most one. It leaves the tab unchanged exactly at `Chart` |
| `Tabs.Prev` | src/app/selected_tab.rs:19-23 | `prev` never raises the ordinal and lowers it by at most one. It leaves the tab unchanged exactly at `Live` |
| `Tabs.Title` | src/app/selected_tab.rs:25-27 | the title is two spaces, then the display name ("Live" / "Chart"), then two spaces |
| `Tabs.Transitions` | src/app/selected_tab.rs:13-23 | `next(Live) = Chart`, `next(Chart) = Chart`, `prev(Chart) = Live`, `prev(Live) = Live`, `prev(next(Live)) = Live`, `next(prev(Chart)) = Chart` |
| `Tabs.SaturatingAtBoundaries` | src/app/selected_tab.rs:13-23 | `next` and `prev` are idempotent, so repeated calls past a boundary change nothing |
| `Tabs.TitleInjective` | src/app/selected_tab.rs:25-27 | different tabs have different titles |
| `AppState.OutputFmtAsWritten` | src/app/mod.rs:83-87 | "bullet" maps to `Bullet` and "line" maps to `Line`. A missing flag or any other value is a panic |
| `AppState.OutputFmtPanicsWithoutFlag` | src/app/mod.rs:83 | the format as written panics when `--output-fmt` is not given |
| `AppState.OutputFmtFromArg` | src/app/mod.rs:83-87 | corrected: a missing flag gives `Bullet`. A given flag behaves as written, and only values other than "bullet" / "line" panic |
| `AppState.NextIndex` | src/app/mod.rs:109-113 | the index moves on by one exactly when it differs from `len - 1`, otherwise it stays. It stays below `len`. Needs `len ≥ 1` because of the `len() - 1` underflow |
| `AppState.PrevIndex` | src/app/mod.rs:115-117 | the index moves back by one, saturating at 0 |
| `AppState.ChartIndexStaysInRange` | src/app/mod.rs:109-117 | an index that starts in `[0, len)` stays there after any sequence of next/prev chart-site commands |
| `AppState.ChartIndexSaturates` | src/app/mod.rs:109-117 | any number of `next_chart_site` at the last site, or of `prev_chart_site` at site 0, leaves the index unchanged |
| `AppState.App.Generate` | src/app/mod.rs:74-95 | the initial state: sites GitHub, Google and Steam in that order with their addresses and unprobed (full) histories, the `Live` tab and chart-site index 0. The output format is mapped as written, so the flag must be present and be "bullet" or "line" |
| `AppState.App.NextTab` | src/app/mod.rs:97-99 | the tab becomes `next` of the old tab, and the chart-site index does not change |
| `AppState.App.PrevTab` | src/app/mod.rs:101-103 | the tab becomes `prev` of the old tab, and the chart-site index does not change |
| `AppState.App.GetSelectedChartSiteIdx` | src/app/mod.rs:105-107 | the selected index, which names an existing site |
| `AppState.App.NextChartSite` | src/app/mod.rs:109-113 | the index becomes `NextIndex(old, len)` and stays valid. Needs a non-empty registry. The tab and the sites do not change |
| `AppState.App.PrevChartSite` | src/app/mod.rs:115-117 | the index becomes `PrevIndex(old)` and stays valid. The tab and the sites do not change |
| `Ui.StatusColor` | src/ui.rs:25-37 | Gray exactly when not yet probed, Green exactly for `Ok(200)`, Yellow exactly for any other code, Red exactly for a failure. Never DarkGray or Black |
| `Ui.SiteLine` | src/ui.rs:39-54 | Bullet format: a marker in the status colour before the name. Line format: " " + name on the status colour with a Black foreground, since the DarkGray branch is unreachable |
| `Ui.RenderTabLive` | src/ui.rs:17-57 | exactly one list item per site, in registry order, each built from that site's newest entry. Reading entry 0 is safe because every history is full |
| `Ui.LevelOf` | src/ui.rs:71-73 | level absent (`f64::MIN`) for not probed, 0 for a failure, 1 for code 200 and 0.5 for any other code |
| `Ui.SlotReverses` | src/ui.rs:75 | slot `LEN - idx - 1` lies in `[0, LEN)`, reverses the order, is its own inverse and puts position 0 in the last slot |
| `Ui.ChartOf` | src/ui.rs:68-78 | `LEN` slots. Each of the first `LEN` history entries sits at its reversed slot with its level, every other slot stays blank, and the newest entry is in the last slot |
| `Ui.ChartData` | src/ui.rs:68-78 | the array loop produces exactly `ChartOf(history)` |
| `Ui.RenderTabChart` | src/ui.rs:65-78 | as written: the chart of site 0's history, whatever site is selected. Needs a non-empty registry |
| `Ui.ChartIgnoresSelectedSite` | src/ui.rs:66 | an unprobed site 0 and a site 1 that answered 200 give different charts, so reading site 0 shows the wrong chart when site 1 is selected |
| `Ui.RenderSelectedChart` | src/ui.rs:66 | corrected: the chart of the selected site's history |
| `Ui.Render` | src/ui.rs:10-15 | the live list exactly when the tab is `Live`. Otherwise it is the chart of site 0, whatever chart site is selected |
| `Ui.RenderCorrected` | src/ui.rs:10-15 | corrected: the live list exactly when the tab is `Live`, otherwise the chart of the selected site |

## Left out

- Locking: the `Arc<Mutex<Vec<Site>>>` and its `.lock().unwrap()` calls are not modelled. The registry is a plain sequence of `Site` objects whose length is fixed, and concurrency is outside a sequential model.
- Poller: `src/main.rs` holds only a blocking network probe, and that file does not compile. It and any background poller are not part of this model, because they are network I/O and no such poller exists in these sources.
- Event loop: the `closing` flag and quit handling do not appear in these sources, so they are not modelled.
- Command line: the clap definitions in `src/app/cli.rs` and `src/app/output_fmt.rs` are library-bound. Only the string-to-format mapping of `App::generate` is modelled.
- Drawing: all ratatui drawing is left out, including frames, rectangles, widgets, the bold modifier and axis bounds. The `f64` chart values become the `Level` enum, and an untouched slot is `Blank`.
- `LEN`: `src/ui.rs` imports `LEN`, which the shown `src/app/mod.rs` does not define. It is taken to be `MAX_STATUSES`.
- Deque storage: a site's history is a `seq` field updated by dropping the back entry and then prepending, as `pop_back`/`push_front` do on the `VecDeque`. How the deque lays out its storage is not modelled.
- Registry copy: `render_tab_live` clones the registry before reading it. In a sequential model the copy equals the original, so the model reads the sites directly.
- Corrected members: `AppState.App.Generate` and `Ui.Render` follow the code as written. The corrected `AppState.OutputFmtFromArg` and `Ui.RenderCorrected` stand beside them and are not used by the App.
- AppState.NextIndex: does not model the `usize` overflow of `+= 1` at `usize::MAX`, because the index is kept below the registry length.
- AppState.App.NextChartSite: does not model the `usize` overflow of `+= 1` at `usize::MAX`, for the same reason.

## Findings

| source | as written | input that shows it | evidently intended | confidence | as-written member | corrected member |
|---|---|---|---|---|---|---|
| src/app/mod.rs:83 | `get_one("output_fmt").unwrap()` on a flag that is optional and has no default value | starting the program without `--output-fmt`: `get_one` yields `None` and `unwrap` panics | the default "bullet" that the flag's help text announces | high, not executed | `AppState.OutputFmtAsWritten` (`AppState.OutputFmtPanicsWithoutFlag`) | `AppState.OutputFmtFromArg` |
| src/ui.rs:66 | the chart always reads `sites[0]` | select site 1 with `next_chart_site` after site 1 answered 200 while site 0 is unprobed: the chart still shows site 0 | chart the selected site (`get_selected_chart_site_idx` exists and is never read) | medium, not executed | `Ui.RenderTabChart` (`Ui.ChartIgnoresSelectedSite`, `Ui.Render`) | `Ui.RenderSelectedChart` (`Ui.RenderCorrected`) |
