# Dark-matter event classification: a verified model of its data logic

The repository is a dark-matter detector demo. A Python script simulates detector
events and labels them as nuclear or electronic recoils. A Streamlit dashboard
prepares classified data. A plotting script loads it and summarises it. A React
website shows a dashboard of mock events and a data-generator page.

This project models the logic behind those pieces in Dafny:

- **Events** (`events.dfy`): the event record shared by the React views, with a
  closed two-value classification.
- **Dashboard** (`dashboard.dfy`):
  - the mock-data generator: 200 events, ids `EV00001`…`EV00200`, and one flag
    that decides classification, true label and reasoning together;
  - the search and classification filter;
  - the view state, as a class whose methods are the React state setters.
- **ScatterPlot** (`scatter_plot.dfy`): the split into the nuclear and electronic
  groups, the tooltip, and the click hand-off.
- **DataGenerator** (`data_generator.dfy`):
  - the progress animation as a state machine, with a reset and a tick;
  - a class holding the view's state variables;
  - the download action.
- **Simulate** (`simulate.dfy`), for `generate_dataset`:
  - the signal/background split;
  - the two emission loops;
  - the in-place clamp of negative samples;
  - a Fisher–Yates shuffle on an array;
  - positional event ids.
- **ClassifiedData** (`classified_data.dfy`), for `prepare_classified_data` and
  `generate_reasoning`:
  - the required-column check;
  - the derived columns, each filled only when absent;
  - the sort by event id;
  - the four-part reasoning text.
- **GenPlot** (`gen_plot.py` → `gen_plot.dfy`): loading by file suffix, with
  `pathlib`'s suffix rule, and the summary counts.
- **Support modules**:
  - `Frames` (`frames.dfy`): a pandas DataFrame as a value;
  - `Seqs` (`seqs.dfy`): filter, count and sort, with their permutation lemmas;
  - `Strings` (`strings.dfy`): decimal digits, `padStart`, lower-casing, `includes`
    and `join`;
  - `Wrappers` (`wrappers.dfy`): `Option` and `Result`.

Random sources are parameters:

- `Math.random()` becomes one `Roll` of eight draws in [0,1) per event;
- NumPy's streams become functions `nat -> real`;
- the shuffle's picks become `nat -> nat`;
- the bivariate normal sampler becomes a function of the sample index and its moments.

`log10` and float formatting are also parameters. Numbers are Dafny reals.

## Model

| member | source | states |
|---|---|---|
| Strings.PadStart | Website/project/src/views/Dashboard.tsx:30 | `padStart` keeps the string as its suffix, fills only the front with the pad character, and reaches the width unless the string is already longer |
| Dashboard.EventId | Website/project/src/views/Dashboard.tsx:30 | the id is `EV` followed by the decimal digits of i, padded at the front with zeros to at least five characters: its length, prefix, trailing digits and zero padding |
| Dashboard.EventIdRoundTrip | Website/project/src/views/Dashboard.tsx:30 | stripping `EV` and the padding zeros from the id of event i reads back i |
| Dashboard.EventIdInjective | Website/project/src/views/Dashboard.tsx:30 | different loop indices give different ids |
| Dashboard.EventIdLength | Website/project/src/views/Dashboard.tsx:30 | every id up to index 99999 is seven characters long |
| Dashboard.MakeEvent | Website/project/src/views/Dashboard.tsx:21-44 | event i of a generation carries the id built from i |
| Dashboard.MockEventLabels | Website/project/src/views/Dashboard.tsx:21-43 | under any id, an event is nuclear exactly when its first draw exceeds 0.6; it is nuclear iff its label is WIMP iff it carries the low-ratio reasoning; the same holds for electronic, Background and the high-ratio reasoning |
| Dashboard.MockReadingRanges | Website/project/src/views/Dashboard.tsx:21-33 | under any id, for draws in [0,1): a nuclear event has S1 in [10,60) and ratio in [10,40); an electronic event has S1 in [20,120) and ratio in [50,150); S1 > 0 and the ratio is S2/S1 |
| Dashboard.MockEventRanges | Website/project/src/views/Dashboard.tsx:34-40 | under any id, for draws in [0,1): energy in [1,51), x and y in [-20,20), z in [-50,50), confidence in [0.7,1.0) |
| Dashboard.BuildMockEvents | Website/project/src/views/Dashboard.tsx:19-45 | the loop yields exactly 200 events; event k is built from index k+1 and the (k+1)-th roll |
| Dashboard.MockIdsReadBack | Website/project/src/views/Dashboard.tsx:19-30 | the ids of the 200 generated events read back as 1..200, in order |
| Dashboard.MockIdsDistinct | Website/project/src/views/Dashboard.tsx:30 | ids that read back as their positions plus one are pairwise distinct |
| Dashboard.FilteredEvents | Website/project/src/views/Dashboard.tsx:50-54 | the result is an order-preserving subsequence of the events; every kept event's lower-cased id contains the lower-cased query and has the selected class (unless `all`); every matching event is kept, every copy of it, so the length is the number of matching events |
| Dashboard.MatchesAt | Website/project/src/views/Dashboard.tsx:51-53 | an event is kept iff the lower-cased query occurs at some position of its lower-cased id and, unless the filter is `all`, its class is the selected one |
| Dashboard.ShowAllIsIdentity | Website/project/src/views/Dashboard.tsx:50-54 | an empty query with `all` returns the events unchanged |
| Dashboard.FilterPartition | Website/project/src/views/Dashboard.tsx:50-54 | for any query, the nuclear-only and electronic-only counts add up to the `all` count |
| Dashboard.DashboardView.constructor | Website/project/src/views/Dashboard.tsx:8-12 | initial state: no events, no selection, empty query, `all`, loading |
| Dashboard.DashboardView.GenerateMockData | Website/project/src/views/Dashboard.tsx:18-48 | the events become the 200 generated ones, loading is cleared, and the query, filter and selection are kept |
| Dashboard.DashboardView.SetSearchQuery | Website/project/src/views/Dashboard.tsx:80 | only the query changes |
| Dashboard.DashboardView.SetFilterType | Website/project/src/views/Dashboard.tsx:89 | only the filter changes |
| Dashboard.DashboardView.ClickPoint | Website/project/src/views/Dashboard.tsx:104 | the clicked point's event becomes the selection; it is one of the filtered events and has the group's class; nothing else changes |
| Dashboard.DashboardView.ShowingCounts | Website/project/src/views/Dashboard.tsx:116 | "Showing k of n": k is the number of visible (filtered) events, n the number of events, and k ≤ n |
| ScatterPlot.PlotGroup | Website/project/src/components/ScatterPlot.tsx:11-17 | a group's events are exactly the filter of the input by class; each point keeps its event unchanged and adds `s1Log` = log10(S1) |
| ScatterPlot.NuclearData | Website/project/src/components/ScatterPlot.tsx:11-13 | an order-preserving subsequence of the input that holds every nuclear event and nothing else; its length is the number of nuclear events |
| ScatterPlot.ElectronicData | Website/project/src/components/ScatterPlot.tsx:15-17 | an order-preserving subsequence of the input that holds every electronic event and nothing else; its length is the number of electronic events |
| ScatterPlot.LegendCountsSum | Website/project/src/components/ScatterPlot.tsx:46-50 | the two legend counts add up to the number of events, since the classification has two values |
| ScatterPlot.Tooltip | Website/project/src/components/ScatterPlot.tsx:19-37 | renders iff active and the payload is present and non-empty; then it shows the first point's id, S1, ratio and energy, and "Nuclear Recoil" iff that event is nuclear |
| ScatterPlot.ClickedEventIsDisplayed | Website/project/src/components/ScatterPlot.tsx:81-89 | the event handed to `onEventClick` is one of the plotted events and has the clicked group's class |
| DataGenerator.Reset | Website/project/src/views/DataGenerator.tsx:16-21 | generating on, generated off, progress 0, timer running; the invariant holds |
| DataGenerator.Tick | Website/project/src/views/DataGenerator.tsx:21-31 | below 100: progress +10 and nothing else changes; at 100 or above: progress pinned at 100, generating off, generated on, timer cleared; the invariant (progress in [0,100], a multiple of 10, never generating and generated together) is kept and progress never drops |
| DataGenerator.RunPreservesInv | Website/project/src/views/DataGenerator.tsx:21-31 | any number of ticks keeps the invariant and never lowers progress |
| DataGenerator.RunFromStep | Website/project/src/views/DataGenerator.tsx:29 | from 10j percent, m ticks with j+m ≤ 10 reach 10(j+m) percent, still generating |
| DataGenerator.ElevenTicksToGenerated | Website/project/src/views/DataGenerator.tsx:16-31 | after reset, k ≤ 10 ticks give progress 10k and not generated; 11 or more give the finished state |
| DataGenerator.RunSplit | Website/project/src/views/DataGenerator.tsx:21-31 | a+b ticks are a ticks followed by b ticks |
| DataGenerator.GeneratorView.constructor | Website/project/src/views/DataGenerator.tsx:6-14 | the initial slider values and an idle progress state |
| DataGenerator.GeneratorView.HandleGenerate | Website/project/src/views/DataGenerator.tsx:16-21 | (the button is disabled while generating, line 130) the state becomes the reset state, the sliders are untouched, and the invariant holds |
| DataGenerator.GeneratorView.IntervalTick | Website/project/src/views/DataGenerator.tsx:21-31 | the state advances by one tick, progress does not drop, the sliders are untouched, and the invariant holds |
| DataGenerator.HandleDownload | Website/project/src/views/DataGenerator.tsx:34-42 | the file name is `dark_matter_events.` plus the format; the MIME type is `text/csv` iff CSV and `application/json` iff JSON; the content is the same fixed text whatever the format |
| Simulate.Trunc | src/simulate.py:23 | `int()` truncates toward zero: the floor for non-negative input, within 1 above a negative input |
| Simulate.SplitCounts | src/simulate.py:23-24 | signal + background = num_events; signal = ⌊num_events × fraction⌋ for non-negative inputs, and lies in [0, num_events] for a fraction in [0,1] |
| Simulate.ClampNegatives | src/simulate.py:16 | every negative sample becomes 0, every other is kept, so all samples are ≥ 0 |
| Simulate.CorrelatedEvent | src/simulate.py:7-17 | the returned S1 and S2 are the sampler's values, clamped at 0 |
| Simulate.NrRow | src/simulate.py:31-45 | an NR record: label 'Nuclear Recoil', energy = exponential draw + 2 (≥ 2 for a non-negative draw), S1 and S2 are the sampler's pair for index k at the NR moments of that energy (means 2E and 50E), each clamped at 0, so ≥ 0 |
| Simulate.ErRow | src/simulate.py:50-64 | an ER record: label 'Electronic Recoil', energy in [2,50) for a draw in [0,1), S1 and S2 are the sampler's pair for index n_signal + k at the ER moments of that energy (means 1.5E and 200E), each clamped at 0, so ≥ 0 |
| Simulate.NrRowsAt | src/simulate.py:29-45 | the k-th signal row is built from the k-th energy draw |
| Simulate.ErRowsAt | src/simulate.py:48-64 | the k-th background row is built from the k-th uniform draw |
| Simulate.BuildRows | src/simulate.py:26-64 | the two loops emit all signal rows, then all background rows |
| Simulate.UnshuffledLayout | src/simulate.py:29-64 | n_signal + n_background rows; NR rows first, then ER rows; S1 and S2 ≥ 0; NR energy = draw + 2 (≥ 2 for draws ≥ 0); ER energy in [2,50) for draws in [0,1); each row's S1 and S2 are the clamped sampler pair for its index, at the NR moments (means 2E/50E) or the ER moments (means 1.5E/200E) of its energy |
| Simulate.UnshuffledLabelCounts | src/simulate.py:40-64 | exactly n_signal rows are 'Nuclear Recoil' and n_background rows are 'Electronic Recoil' |
| Simulate.Shuffle | src/simulate.py:68 | the shuffled array is a permutation of the original |
| Simulate.Number | src/simulate.py:68-69 | after `reset_index`, the event id of every record is its position and the rows are unchanged |
| Simulate.GenerateDataset | src/simulate.py:19-74 | fails exactly when a count is negative (a negative-count error) or when num_events is 0 (the `s2_charge` lookup on an empty frame fails); otherwise num_events records with ids 0..num_events-1, holding a permutation of the emitted rows, with n_signal NR and n_background ER labels |
| Simulate.DefaultSplit | src/simulate.py:19-24 | the default arguments, 500 events with fraction 0.2, give 100 signal and 400 background events |
| Seqs.SortBy | dashboards/app.py:277 | the result is sorted by the key and is a permutation of the input |
| ClassifiedData.MissingColumns | dashboards/app.py:256-257 | the missing names are a subsequence of the required list in its order; each is absent from the columns; every absent required name is listed |
| ClassifiedData.NoneMissing | dashboards/app.py:258-259 | the list is empty iff every required name is a column |
| ClassifiedData.S1Part | dashboards/app.py:292-297 | exactly one S1 level: low iff S1 < 10, moderate iff 10 ≤ S1 < 50, high iff S1 ≥ 50 |
| ClassifiedData.RatioPart | dashboards/app.py:299-305 | exactly one ratio level: low iff log < 1.5, moderate iff 1.5 ≤ log < 2.5, high iff log ≥ 2.5 |
| ClassifiedData.VerdictPart | dashboards/app.py:307-310 | "Nuclear Recoil" iff the classification is `nuclear_recoil`; "Electronic Recoil" for any other value |
| ClassifiedData.CheckPart | dashboards/app.py:312-315 | the match note iff classification equals the true label; otherwise the note names the true label |
| Strings.JoinFour | dashboards/app.py:317 | joining four parts gives the parts separated by the separator |
| ClassifiedData.GenerateReasoning | dashboards/app.py:284-317 | the text is the S1, ratio, verdict and check parts joined by blank lines, the ratio part taking log10(S2/S1) |
| ClassifiedData.MissingDerived | dashboards/app.py:261-275 | the derived columns the input lacks, in the order they are added |
| ClassifiedData.ReadingsPresent | dashboards/app.py:256-259 | once the required check passes, every row has numeric S1 and S2, a label and a class |
| ClassifiedData.StartProgress | dashboards/app.py:253-259 | the input itself satisfies the preparation invariant |
| ClassifiedData.AddKeepsRows | dashboards/app.py:261-275 | adding a new column keeps every input cell, the readings, and each derived column already filled |
| ClassifiedData.AddLog | dashboards/app.py:261-262 | adding the log column keeps the invariant; the new cells are log10(S2/S1) |
| ClassifiedData.ConfidenceValues | dashboards/app.py:266-270 | one numeric confidence per row: in [0.85,0.99) when the row's class matches its label, in [0.55,0.80) otherwise, for draws in [0,1) |
| ClassifiedData.AddConfidence | dashboards/app.py:265-270 | adding the confidence column keeps the invariant; a row gets [0.85,0.99) when its class matches its label, [0.55,0.80) otherwise |
| ClassifiedData.AddReasoning | dashboards/app.py:273-274 | adding the reasoning column keeps the invariant; each row gets the reasoning generated from itself |
| ClassifiedData.AddLogColumn | dashboards/app.py:261-263 | the log column is appended only when absent; an existing one is left alone; the invariant holds |
| ClassifiedData.AddConfidenceColumn | dashboards/app.py:265-271 | the confidence column is appended only when absent; the invariant holds |
| ClassifiedData.AddReasoningColumn | dashboards/app.py:273-275 | the reasoning column is appended only when absent; the invariant holds |
| ClassifiedData.AddDerivedColumns | dashboards/app.py:261-275 | the columns become the input's plus the missing derived ones, in order; every input cell is kept and every added column is filled as specified |
| ClassifiedData.SortKeepsRows | dashboards/app.py:277 | the sorted frame is well formed, its rows restricted to the input columns are a permutation of the input rows, and every row keeps its derived values |
| ClassifiedData.PrepareClassifiedData | dashboards/app.py:247-281 | a missing file fails with FileNotFound; a missing required column fails iff some is missing, naming them in order; on success: the columns are the input's plus the missing derived ones, the rows are sorted by event id, they are a permutation of the input rows on the input columns, and each derived column that was absent is filled as specified |
| GenPlot.BaseName | gen_plot.py:20 | the last path component: no `/`, empty for an empty path, and, for a path not ending in `/` or in a `.` component, the longest `/`-free tail of the path |
| GenPlot.BaseNameInDirectory | gen_plot.py:20 | the name of `dir/name` is `name` for a `/`-free name other than `.` |
| GenPlot.Suffix | gen_plot.py:20-21 | `pathlib`'s suffix: a non-empty suffix is the name's tail from its last dot, a dot followed by at least one dot-free character, shorter than the name; the suffix is empty iff the name has at most one character, no dot after its first character, or ends in a dot |
| GenPlot.SuffixOfFileName | gen_plot.py:20-21 | a name `stem.ext` with a non-empty stem and a dotless extension has suffix `.ext` |
| GenPlot.SuffixInDirectory | gen_plot.py:20-21 | the suffix of `dir/stem.ext` is `.ext`, whatever the directory |
| GenPlot.ScriptDatasetIsCsv | gen_plot.py:109-110 | the script's own data file, `.../data/classified_dataset.csv`, goes to the CSV reader |
| GenPlot.DirectoryCsvIsCsv | gen_plot.py:20-22 | any `stem.csv` below any directory goes to the CSV reader |
| GenPlot.FileKindOf | gen_plot.py:21-26 | CSV iff the suffix is `.csv`; JSON iff it is `.json` or `.jsonl`; an unsupported-type error iff it is neither |
| GenPlot.DownloadSuffix | gen_plot.py:20-21 | the suffix of a downloaded file's name is `.csv` or `.json` by format |
| GenPlot.DownloadReaderChoice | gen_plot.py:21-24 | a file saved by the website's download button is given to the reader its name selects: CSV for the CSV format, JSON for the JSON format (whose content is still the CSV text) |
| GenPlot.WithLogColumn | gen_plot.py:29-30 | the log column is appended; every input cell is kept; each row's new cell is log10(S2 charge / S1) |
| GenPlot.LoadClassifiedData | gen_plot.py:10-32 | fails with the file-type error iff the suffix is unsupported; otherwise succeeds iff the log column exists or both readings do; an existing log column leaves the frame as read; otherwise the column is added; a failed lookup names `s2_charge` first, then `s1_photons` |
| GenPlot.LabelCounts | gen_plot.py:92-93 | NR + ER ≤ total, with equality iff every label is NR or ER |
| GenPlot.PercentageBounds | gen_plot.py:90 | a count out of a positive total, as a percentage, lies in [0,100] |
| GenPlot.SynthesizeSummary | gen_plot.py:78-104 | fails iff a compared column is missing, naming the first one looked up; otherwise total = rows, correct counts class = label, NR/ER count their labels; correct ≤ total; NR + ER ≤ total, with equality iff every label is NR or ER; accuracy is undefined iff the total is 0, and otherwise equals correct / total × 100, which lies in [0,100] |
| GenPlot.SummaryIgnoresOrder | gen_plot.py:88-93 | reordering the rows leaves the summary unchanged |
| GenPlot.SummaryText | gen_plot.py:95-102 | the text reports the total, NR count, ER count, correct count and accuracy (two decimals, or `nan`) at increasing positions |

## Left out

- Randomness is an input. The distributions behind the draws are not modelled.
  - `np.random.exponential` is only an input stream.
  - The bivariate normal sampler in `generate_correlated_events` is a parameter. Its
    covariance matrix, which puts `std*2` on the diagonal rather than `std²`, is not
    modelled, nor are the standard deviations.
  - `df.sample(frac=1)` is modelled as a Fisher–Yates walk driven by caller-supplied picks.
- Floating point: numbers are reals and no rounding is modelled.
  - Simulate.SplitCounts: takes the exact real floor of `num_events * signal_fraction`. Python multiplies
    doubles first, so `int(...)` can come out one lower (`int(100 * 0.29) == 28`), which moves one event from
    the signal count to the background count.
  - `log10` is a parameter.
  - So are `toFixed`, `:.1f`, `:.2f` and `str` of a number.
  - The epsilon-guarded log column that `generate_dataset` adds last (src/simulate.py:71-72): its values are not
    modelled; its `s2_charge` lookup failing on an empty frame is.
- ScatterPlot.Tooltip: shows the numbers exactly, not rounded by `toFixed` as the source displays them.
- Strings.ToLower: lower-cases ASCII letters only. JavaScript's `toLowerCase` also folds other Unicode letters.
- I/O is left out:
  - pandas' CSV/JSON readers and `to_csv`;
  - file existence, which is an `Option` input;
  - the reader in `load_classified_data`, which is a function from file kind to frame;
  - the browser download (`Blob`, object URL, the click);
  - the console prints.
- pandas type errors are excluded by preconditions. `event_id`, `s1_photons`, `s2_photons`
  and `s2_charge` are assumed numeric wherever present, so the TypeError paths of a
  division on text, or of a sort over a column of mixed types, are not modelled.
- Simulate.GenerateDataset: Python's default arguments (500 events, fraction 0.2) are not defaults here; callers pass
  both. Simulate.DefaultSplit records what the defaults give.
- Seqs.SortBy: a stable insertion sort. pandas' default sort is not stable, so rows with
  equal event ids may come out in another order. The contract only promises a sorted
  permutation, which both satisfy.
- GenPlot.BaseName: POSIX separators only. Windows paths are not modelled.
- GenPlot.SynthesizeSummary: a NaN accuracy for an empty frame is `None`.
- The `setInterval` timing is left out. Only the tick transition is modelled; a tick fires
  only while the timer is set.
- The data-generator sliders and their setters are left out. They only set numbers that
  nothing in the modelled logic reads.
- The `Statistics` interface (Website/project/src/types/index.ts:16-21) is left out. No
  modelled operation uses it.
- The `selectedEventId` prop is left out: ScatterPlot never reads it.
- Presentation is left out: JSX layout, colours, charts, and the Streamlit and matplotlib plotting.
- Other parts of dashboards/app.py are not part of this model:
  - the commented-out duplicate block and the stray fragment at its top;
  - the directory setup;
  - `copy_visualization`;
  - the `webbrowser` and `subprocess` launch.
- src/classify.py and its API calls are not part of this model.
- The labels do not agree across files. `generate_dataset` writes `'Nuclear Recoil'` and
  `'Electronic Recoil'`, but `synthesize_summary` counts `'NR'` and `'ER'`. So on simulated
  data both of its counts are zero. `load_classified_data` divides `s2_charge`, while
  `prepare_classified_data` requires `s2_photons`. Each module keeps the names its own
  source uses.
