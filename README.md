# Institution social-media benchmarking dashboard, modelled in Dafny

The dashboard compares one university's social-media presence (YU) with five
peers. It is a set of React views over one hardcoded dataset. This project
models the logic behind those views:

- **The dataset:** six institution records, benchmark figures, precomputed
  "gap" figures and four recommendations. Lemmas check that the
  precomputed figures agree with the records.
- **The research explorer:**
  - the search and platform filter;
  - the stable sort by followers, by name or not at all;
  - the comparison selection of at most four records;
  - the comma-separated export, which is proved to read back.
- **The what-if simulator:** weekly growth rate, a six-month compounding
  projection beside a linear baseline, the total-growth figure and the
  advice banners.
- **The research terminal:** command parsing, the `analyze`, `compare`,
  `stats` and `clear` commands, and how each updates the log.
- **The admin panel:** the mock file tree, the folder listing with search,
  file icons, status badges, the sidebar and the password gate.
- **The research flowchart:** node table, edge builder, colour and shape
  lookups, selection toggle and hover.
- **The live views:**
  - the command center: radar sweep, live metrics and signal window;
  - the insight carousel: typing effect and cycling;
  - the live experiment: idle, running, complete, then reset;
  - the engagement heatmap generator with its colour buckets.
- **Grouping and summaries:** the action protocol's priority columns, and
  the visual analysis chart data and counts.

How the source's constructs are modelled:

- **State.** React state becomes Dafny classes. Each class's methods update
  its fields and state the whole new state.
- **Timers.** Each timer callback (`setInterval`, `setTimeout`) is one
  method call, made in schedule order.
- **Randomness.** Each `Math.random()` value is a parameter in [0, 1).
- **Numbers.** They are exact: `int`/`nat` for counts and `real` for rates.
  `Math.round` is `floor(x + 0.5)`.
- **Strings.** Strings are sequences of characters. `toLowerCase` folds
  ASCII letters only. `localeCompare` is plain lexicographic order.
- **Sorting.** `Array.prototype.sort` is a stable insertion sort
  (`StableSort.SortSeq`). `StableSort.SortInPlace` performs it on an array,
  as the explorer does.
- **Falsy `||`.** Written out: `x || 'N/A'` gives `N/A` for both a missing
  value and 0.

Where the code behaves surprisingly, the model follows the code:

- **Flowchart hover.** Hovering a node sets the hovered edge once per
  target, so only the edge to its last target is drawn hovered
  (`ResearchFlow.FlowView.MouseEnter`). Ids contain '-', so a key
  `${from}-${to}` could in principle name two edges; on the flowchart no id
  followed by '-' begins another, so it names exactly one
  (`ResearchFlow.FlowchartHoverMarksOneEdge`).
- **Insight dots.** Clicking the insight dot that is already current does
  not restart the typing effect, because the effect depends on a change of
  index (`EinsteinAI.Carousel.ClickDot`).
- **Heatmap draws.** The peak cell consumes no random draw, so a grid
  uses 55 draws for 56 cells (`EngagementHeatmap.DrawPos`).
- **Terminal arguments.** A missing argument reaches the `analyze` error
  text as `undefined`.
- **Terminal `clear`.** `clear` replaces the whole log, including the
  echoed command line.
- **Blank commands.** A blank command leaves the input box as it was.
- **Unknown priorities.** In the detailed action list, a recommendation
  whose priority is not one of the three has no colour entry
  (`ActionProtocol.DetailCards`: `colors` is `None`); the code would fail
  reading it, unless the priority is an inherited property name.
  None of the dataset's recommendations is in that case.
- **The `compare` winner.** In `compare`, a tie in followers names the
  second institution as the winner.

## Model

| member | source | states |
|---|---|---|
| ResearchData.MaxFollowers | src/components/ResearchTerminal.jsx:98 | the maximum bounds every record's follower count and is attained by some record |
| ResearchData.CountTikTokActive | src/sections/CommandCenter.jsx:172 | the active-platform count is at most the number of records and is zero exactly when no record is active |
| ResearchData.IdsUnique | src/data/researchData.js:11-121 | record ids are pairwise distinct; exactly one record is `yu`, and lookup by `yu` finds the first record |
| ResearchData.LeaderGapAgrees | src/data/researchData.js:222-226 | the "vs leader" gap equals YU's followers minus the maximum, and the maximum is NYU's |
| ResearchData.PercentageGapAgrees | src/data/researchData.js:225 | the percentage gap is the leader's excess over YU as a rounded percentage of YU |
| ResearchData.ClosestCompetitorAgrees | src/data/researchData.js:227-231 | Brandeis is the peer closest to YU in followers; the stored difference and rounded percentage agree with the records |
| ResearchData.TikTokCountAgrees | src/data/researchData.js:233-237 | the stored count of active competitors equals the records' active count, and YU's stored absence matches its record |
| ResearchData.TikTokAccountsConsistent | src/data/researchData.js:11-121 | inactive TikTok accounts have no handle or link; active ones have both |
| ResearchData.RecommendationsWellFormed | src/data/researchData.js:245-310 | every recommendation's priority is immediate, high or medium, and ids increase in list order |
| ResearchData.FrequencyRangesOrdered | src/data/researchData.js:123-165 | each posting-frequency range has min at most max |
| Text.Lower | src/sections/ResearchExplorer.jsx:17-18 | lower-casing keeps the length |
| Text.LowerAt | src/sections/ResearchExplorer.jsx:17-18 | each character of the lower-cased string is the lower case of the character at the same position |
| Text.LowerEach | src/components/ResearchTerminal.jsx:33-35 | a string whose characters each lower-case to the target's lower-cases to the target |
| Text.Contains | src/sections/ResearchExplorer.jsx:17-18 | `includes` holds exactly when the text occurs at some position |
| Text.Split | src/components/ResearchTerminal.jsx:172 | splitting always yields at least one piece |
| Text.SplitConcat | src/components/ResearchTerminal.jsx:172 | splitting text joined by the separator splits each side |
| Text.SplitJoin | src/sections/ResearchExplorer.jsx:51-60 | splitting a join of separator-free parts gives the parts back |
| Text.JoinFree | src/sections/ResearchExplorer.jsx:60 | joining parts free of a second character with a different separator leaves the second character out |
| Text.TrimBlank | src/components/ResearchTerminal.jsx:165-166 | a string trims to empty exactly when every character is whitespace |
| Text.TrimStartHead | src/components/ResearchTerminal.jsx:165 | a trimmed non-empty string starts with a non-space |
| Text.NatToString | src/sections/ResearchExplorer.jsx:53 | a count renders as a non-empty string of decimal digits |
| Text.ParseRendered | src/sections/ResearchExplorer.jsx:53 | reading a rendered count back gives the count |
| Text.LexCompare | src/sections/ResearchExplorer.jsx:33 | the comparison returns -1, 0 or 1 |
| Text.LexCompareAntisymmetric | src/sections/ResearchExplorer.jsx:33 | swapping the operands negates the comparison |
| Text.LexCompareZero | src/sections/ResearchExplorer.jsx:33 | the comparison is 0 exactly for equal strings |
| Text.LexCompareTransitive | src/sections/ResearchExplorer.jsx:33 | the order is transitive |
| StableSort.SortSeqPermutes | src/sections/ResearchExplorer.jsx:28-35 | the sorted sequence is a permutation of the input |
| StableSort.SortSeqSorted | src/sections/ResearchExplorer.jsx:28-35 | with an antisymmetric comparator no adjacent pair is out of order after sorting |
| StableSort.SortSeqStable | src/sections/ResearchExplorer.jsx:28-35 | elements the comparator ties keep their relative order |
| StableSort.SortSeqAllTied | src/sections/ResearchExplorer.jsx:35 | a comparator that always returns 0 leaves the order unchanged |
| StableSort.SortSeqMap | src/sections/VisualAnalysis.jsx:7-13 | sorting images under a comparator that agrees with the originals' gives the image of the sorted originals |
| StableSort.SortInPlace | src/sections/ResearchExplorer.jsx:28-35 | the in-place sort leaves the array holding the specified stable order |
| ResearchExplorer.Filter | src/sections/ResearchExplorer.jsx:16-25 | a record is kept exactly when it matches the search (name or short name, ignoring case) and the platform |
| ResearchExplorer.FilterSubsequence | src/sections/ResearchExplorer.jsx:16-25 | the filter's output is an order-preserving subsequence of the records |
| ResearchExplorer.FilterKeepsAll | src/sections/ResearchExplorer.jsx:16-25 | with an empty search and all platforms every record is kept, in order |
| ResearchExplorer.FilterIdempotent | src/sections/ResearchExplorer.jsx:16-25 | filtering twice with the same query changes nothing |
| ResearchExplorer.FilterAppend | src/sections/ResearchExplorer.jsx:16-25 | filtering a concatenation filters each part |
| ResearchExplorer.ComparatorLaws | src/sections/ResearchExplorer.jsx:28-35 | each sort key's comparator is antisymmetric and its ties are transitive |
| ResearchExplorer.FollowersDescending | src/sections/ResearchExplorer.jsx:29-30 | sorted by followers, follower counts never increase down the list |
| ResearchExplorer.NamesAscending | src/sections/ResearchExplorer.jsx:31-32 | sorted by name, names ascend throughout the list |
| ResearchExplorer.FilteredUniversities | src/sections/ResearchExplorer.jsx:15-38 | the view's list is the stable sort of the filtered records: the same records, followers non-increasing or names ascending, unchanged for the engagement key, ties in filter order |
| ResearchExplorer.RemoveIdSubsequence | src/sections/ResearchExplorer.jsx:43 | removing a selected id keeps the other selections in order |
| ResearchExplorer.RemoveIdUnique | src/sections/ResearchExplorer.jsx:43 | removal keeps ids distinct |
| ResearchExplorer.Toggled | src/sections/ResearchExplorer.jsx:41-47 | a selected record is removed; an unselected one is appended while fewer than four are selected, else nothing changes; never more than four |
| ResearchExplorer.ToggledUnique | src/sections/ResearchExplorer.jsx:41-47 | toggling never selects two records with the same id |
| ResearchExplorer.ToggledKeepsOrder | src/sections/ResearchExplorer.jsx:41-47 | a toggle only appends at the end or removes, so the selection order is otherwise kept |
| ResearchExplorer.ToggleTwice | src/sections/ResearchExplorer.jsx:41-47 | toggling a record on and off again restores the selection |
| ResearchExplorer.OrNA | src/sections/ResearchExplorer.jsx:55 | a count renders as `N/A` exactly when it is missing or 0; otherwise as digits that read back as the count |
| ResearchExplorer.ExportLines | src/sections/ResearchExplorer.jsx:50-60 | the export has a header line plus one line per record |
| ResearchExplorer.RowReadsBack | src/sections/ResearchExplorer.jsx:51-57 | a row splits back into the record's five fields: name, follower count, posts or N/A, Active or Inactive |
| ResearchExplorer.ExportReadsBack | src/sections/ResearchExplorer.jsx:50-60 | when names hold no separator, the export splits into the header and one line per record in dataset order, each splitting into that record's fields |
| ResearchExplorer.Explorer.constructor | src/sections/ResearchExplorer.jsx:6-11 | starts with empty search, all platforms, followers order, compare mode off and nothing selected |
| ResearchExplorer.Explorer.SetSearch | src/sections/ResearchExplorer.jsx:96 | sets the search text and nothing else |
| ResearchExplorer.Explorer.SetPlatform | src/sections/ResearchExplorer.jsx:113 | sets the platform and nothing else |
| ResearchExplorer.Explorer.SetSortBy | src/sections/ResearchExplorer.jsx:149 | sets the sort key and nothing else |
| ResearchExplorer.Explorer.Visible | src/sections/ResearchExplorer.jsx:15-38 | the rendered list is the sorted filter of the records for the current query |
| ResearchExplorer.Explorer.ClickCompareButton | src/sections/ResearchExplorer.jsx:182-185 | flips compare mode; switching it off empties the selection |
| ResearchExplorer.Explorer.ClearSelection | src/sections/ResearchExplorer.jsx:219 | empties the selection |
| ResearchExplorer.Explorer.ClickCard | src/sections/ResearchExplorer.jsx:298 | a card click toggles the record only in compare mode, keeping at most four distinct selections |
| WhatIfSimulator.WeeklyGrowth | src/components/WhatIfSimulator.jsx:12-17 | the weekly rate is at least the 0.5% base, and with TikTok at least the base plus 2.28% |
| WhatIfSimulator.WeeklyGrowthMonotone | src/components/WhatIfSimulator.jsx:12-17 | more posts, more reels or TikTok switched on never lower the rate |
| WhatIfSimulator.Engagement | src/components/WhatIfSimulator.jsx:27 | the engagement figure is at least 2.99 |
| WhatIfSimulator.EngagementTikTokGain | src/components/WhatIfSimulator.jsx:27 | switching TikTok on adds exactly 1.14 engagement points |
| WhatIfSimulator.MonthlyFactor | src/components/WhatIfSimulator.jsx:30 | a month of four weeks never shrinks the audience |
| WhatIfSimulator.Compounded | src/components/WhatIfSimulator.jsx:20-31 | the compounded follower count never falls below the start |
| WhatIfSimulator.CalculateGrowth | src/components/WhatIfSimulator.jsx:11-34 | seven points for months 0 to 6, each the rounded compounded count with the baseline; month 0 is the start; engagement equal throughout |
| WhatIfSimulator.ProjectionMonotone | src/components/WhatIfSimulator.jsx:22-31 | projected followers never fall from one month to a later one |
| WhatIfSimulator.StrategyMonotone | src/components/WhatIfSimulator.jsx:11-31 | a strategy posting at least as much, with TikTok if the other has it, never projects fewer followers |
| WhatIfSimulator.TikTokNeverWorse | src/components/WhatIfSimulator.jsx:15 | with the same sliders, TikTok on never projects fewer followers |
| WhatIfSimulator.BaselineLinear | src/components/WhatIfSimulator.jsx:28 | the baseline starts at the start, grows by 2% of it each month, and ignores the strategy |
| WhatIfSimulator.TotalGrowth | src/components/WhatIfSimulator.jsx:37-38 | no figure for a zero start; otherwise non-negative exactly when the target is at least the start |
| WhatIfSimulator.TotalGrowthNonNegative | src/components/WhatIfSimulator.jsx:36-38 | the projected six-month growth is never negative |
| WhatIfSimulator.Banners | src/components/WhatIfSimulator.jsx:258-277 | the post, reels and TikTok warnings each show exactly under their condition |
| WhatIfSimulator.OptimalIffNoWarning | src/components/WhatIfSimulator.jsx:258-277 | the optimal-strategy banner shows exactly when no warning does, and then alone |
| WhatIfSimulator.Simulator.constructor | src/components/WhatIfSimulator.jsx:6-8 | starts at 8 posts, 2 reels, no TikTok, showing only the TikTok warning |
| WhatIfSimulator.Simulator.SetPosts | src/components/WhatIfSimulator.jsx:89-94 | sets posts within the slider's 2 to 28 and nothing else |
| WhatIfSimulator.Simulator.SetReels | src/components/WhatIfSimulator.jsx:115-120 | sets reels within the slider's 0 to 7 and nothing else |
| WhatIfSimulator.Simulator.ToggleTikTok | src/components/WhatIfSimulator.jsx:140 | flips TikTok and nothing else |
| WhatIfSimulator.Simulator.Project | src/components/WhatIfSimulator.jsx:36-38 | the panel's projection and total growth, non-negative for a positive start |
| ResearchTerminal.FindUni | src/components/ResearchTerminal.jsx:33-36 | finds a record named by its lower-cased short name or id, nothing for a missing argument |
| ResearchTerminal.FindFirst | src/components/ResearchTerminal.jsx:34-36 | the first record a key names is the one found |
| ResearchTerminal.DatasetKeys | src/components/ResearchTerminal.jsx:39 | the suggested keys are exactly each record's id and lower-cased short name |
| ResearchTerminal.DatasetLookup | src/components/ResearchTerminal.jsx:33-36 | every record is found by its own id and by its short name in any case |
| ResearchTerminal.LoweredArg | src/components/ResearchTerminal.jsx:33 | an argument is present exactly when the position exists |
| ResearchTerminal.Analyze | src/components/ResearchTerminal.jsx:32-56 | a report for a found record, otherwise the error naming the key and suggesting the six keys |
| ResearchTerminal.Compare | src/components/ResearchTerminal.jsx:58-92 | a report exactly when both are found: difference is the absolute gap, winner the first only when strictly ahead; otherwise the usage error |
| ResearchTerminal.CompareSwapped | src/components/ResearchTerminal.jsx:58-92 | swapping the arguments keeps the difference and, unless tied, the winner |
| ResearchTerminal.Stats | src/components/ResearchTerminal.jsx:94-116 | the count; the mean is the rounded total over the count, the maximum is the largest follower count (bounding every record and attained), the active count is the number of records on TikTok; hence mean at most maximum and active at most count |
| ResearchTerminal.DatasetStats | src/components/ResearchTerminal.jsx:94-116 | on the dataset: mean 203155, maximum NYU's, three active |
| ResearchTerminal.Dispatch | src/components/ResearchTerminal.jsx:172-186 | not found exactly for an unknown lower-cased name; `clear` exactly clears |
| ResearchTerminal.AfterCommandAppends | src/components/ResearchTerminal.jsx:164-188 | apart from `clear`, the log is kept, the line echoed and exactly one entry appended, the not-found error for an unknown name; `clear` leaves exactly the two cleared lines |
| ResearchTerminal.Terminal.constructor | src/components/ResearchTerminal.jsx:5-9 | starts with the two greeting lines and an empty box |
| ResearchTerminal.Terminal.Type | src/components/ResearchTerminal.jsx:233 | typing sets the box and leaves the log |
| ResearchTerminal.Terminal.ExecuteCommand | src/components/ResearchTerminal.jsx:164-188 | blank input changes nothing; otherwise the log becomes the command's update of the trimmed line and the box is emptied |
| ResearchTerminal.Terminal.RunLine | src/components/ResearchTerminal.jsx:169-186 | echoes the line, then appends the not-found error or the result, or replaces the log for `clear`, exactly as the command's log update specifies |
| Collections.Lookup | src/sections/AdminPanel.jsx:180 | `fileSystem[id]` and the flowchart's `nodes[targetId]`: an entry under the key is found, nothing exactly when no entry has it |
| AdminPanel.ListChildren | src/sections/AdminPanel.jsx:183-189 | a child is listed exactly when it is among the ids, exists and matches the search |
| AdminPanel.ListChildrenAll | src/sections/AdminPanel.jsx:183-189 | with an empty search every child is listed, in the folder's order |
| AdminPanel.ListChildrenOrder | src/sections/AdminPanel.jsx:183-189 | for any search the listed ids are the folder's children with some left out, in the folder's order |
| AdminPanel.CurrentFiles | src/sections/AdminPanel.jsx:179-190 | nothing for a missing folder or a file; otherwise exactly the folder's matching children, in the folder's order, and all of them for an empty search |
| AdminPanel.MockTreeWellFormed | src/sections/AdminPanel.jsx:21-169 | every child listed in the mock tree is an entry of it |
| AdminPanel.ExtensionUndotted | src/sections/AdminPanel.jsx:194 | a name without a dot is its own extension, lower-cased |
| AdminPanel.ExtensionAfterLastDot | src/sections/AdminPanel.jsx:194 | only the text after the last dot decides the extension |
| AdminPanel.ExtensionIcon | src/sections/AdminPanel.jsx:195-204 | json, xlsx or csv, pdf, and png, jpg or jpeg each select their icon, and nothing else does |
| AdminPanel.FileIcon | src/sections/AdminPanel.jsx:192-205 | folders get the open folder; files are iconed by extension and never as a folder |
| AdminPanel.IconOfDottedName | src/sections/AdminPanel.jsx:192-205 | a file's icon depends only on its lower-cased last extension |
| AdminPanel.StatusBadge | src/sections/AdminPanel.jsx:208-215 | published and archived get their badges; any other status that is not an inherited property name gets the draft badge |
| AdminPanel.RootFolders | src/sections/AdminPanel.jsx:342-344 | the sidebar lists exactly the folders whose parent is the root |
| AdminPanel.SidebarMatchesRoot | src/sections/AdminPanel.jsx:342-344 | in the mock tree the sidebar equals the root folder's children, in order |
| AdminPanel.Panel.constructor | src/sections/AdminPanel.jsx:11-21 | starts locked, on the files tab, at the root folder, with empty password and search |
| AdminPanel.Panel.SetPassword | src/sections/AdminPanel.jsx:239 | sets the password; the lock, tab, folder, file and search stay as they were |
| AdminPanel.Panel.HandleLogin | src/sections/AdminPanel.jsx:172-176 | unlocks exactly for `admin123` or `research2025`, and otherwise changes nothing |
| AdminPanel.Panel.Logout | src/sections/AdminPanel.jsx:284 | locks the panel; password, tab, folder, file and search stay as they were |
| AdminPanel.Panel.SelectTab | src/sections/AdminPanel.jsx:295 | selects the tab; lock, password, folder, file and search stay as they were |
| AdminPanel.Panel.SelectFolder | src/sections/AdminPanel.jsx:347 | selects the folder; lock, password, tab, file and search stay as they were |
| AdminPanel.Panel.SetSearch | src/sections/AdminPanel.jsx:372 | sets the search; lock, password, tab, folder and file stay as they were |
| AdminPanel.Panel.SelectFile | src/sections/AdminPanel.jsx:408 | selects the file; lock, password, tab, folder and search stay as they were |
| AdminPanel.Panel.Files | src/sections/AdminPanel.jsx:393 | the pane lists the current folder's matching children |
| ResearchFlow.EdgesFrom | src/sections/ResearchFlow.jsx:170-182 | one node's edges go to exactly its listed targets that exist, never more edges than listed targets |
| ResearchFlow.AllEdgesAppend | src/sections/ResearchFlow.jsx:169-183 | edges of earlier nodes come before edges of later nodes |
| ResearchFlow.AllEdgesMembers | src/sections/ResearchFlow.jsx:169-183 | an edge is drawn exactly for a listed target that exists, carrying the source's position and colour and the target's position |
| ResearchFlow.EdgeCount | src/sections/ResearchFlow.jsx:169-183 | when every target exists, one edge is drawn per listed target |
| ResearchFlow.NodesKeyedById | src/sections/ResearchFlow.jsx:14-165 | each node sits under its own id |
| ResearchFlow.NodesTargetsExist | src/sections/ResearchFlow.jsx:14-165 | every target the flowchart lists is a node |
| ResearchFlow.FlowchartEdges | src/sections/ResearchFlow.jsx:14-184 | the flowchart draws twelve edges |
| ResearchFlow.OnlyEndIsTerminal | src/sections/ResearchFlow.jsx:14-165 | only the end node lists no target |
| ResearchFlow.BuildConnections | src/sections/ResearchFlow.jsx:168-184 | the nested loop builds exactly the specified edges, one per listed target when all exist |
| ResearchFlow.NodeColor | src/sections/ResearchFlow.jsx:186-197 | blue, pink, purple, yellow, red and green each pick their own palette; cyan and any other name that is not an inherited property name pick cyan |
| ResearchFlow.NodeShape | src/sections/ResearchFlow.jsx:199-211 | start and end are round, decisions rotated, data skewed, anything else rounded |
| ResearchFlow.HoverKeyOverlap | src/sections/ResearchFlow.jsx:278 | two `${from}-${to}` keys meet only with the same source and target, or when one source id followed by '-' begins the other |
| ResearchFlow.HoverKeyNamesOneEdge | src/sections/ResearchFlow.jsx:277-279 | in a table whose ids are distinct and never extend one another by '-', two drawn edges with the same hover key are the same edge |
| ResearchFlow.NodesHoverSafe | src/sections/ResearchFlow.jsx:14-165 | the flowchart's ids are distinct, sit under their own keys, none extends another by '-', and every target exists |
| ResearchFlow.HoverMarksOneEdge | src/sections/ResearchFlow.jsx:277-279 | in such a table, the key left by hovering a node with targets marks exactly one drawn edge as hovered |
| ResearchFlow.FlowchartHoverMarksOneEdge | src/sections/ResearchFlow.jsx:277-279 | on the flowchart, hovering any node with targets marks exactly one edge as hovered |
| ResearchFlow.FlowView.constructor | src/sections/ResearchFlow.jsx:10-11 | starts with nothing selected or hovered |
| ResearchFlow.FlowView.ClickNode | src/sections/ResearchFlow.jsx:338 | selects the node, or clears the selection when it was selected |
| ResearchFlow.FlowView.MouseEnter | src/sections/ResearchFlow.jsx:339-343 | the hovered edge becomes the one to the node's last target; no targets, no change |
| ResearchFlow.FlowView.MouseLeave | src/sections/ResearchFlow.jsx:344 | clears the hover |
| Numeric.Round | src/components/WhatIfSimulator.jsx:26 | the rounded value lies within half of the input |
| Numeric.DrawIndex | src/sections/CommandCenter.jsx:50 | a draw picks an index below the choice count, the one whose interval holds it |
| CommandCenter.Swept | src/sections/CommandCenter.jsx:26 | the radar angle stays in [0, 360) |
| CommandCenter.SweptClosedForm | src/sections/CommandCenter.jsx:26 | n ticks turn the radar by 2n degrees modulo 360 |
| CommandCenter.SweepPeriod | src/sections/CommandCenter.jsx:26 | 180 ticks bring the radar back to where it was |
| CommandCenter.TotalReach | src/sections/CommandCenter.jsx:36 | the reach lies in [1200000, 2199999] |
| CommandCenter.NewSignal | src/sections/CommandCenter.jsx:46-52 | position and strength lie in [0, 100); the type is Instagram for a draw below a third and engagement from two thirds on |
| CommandCenter.Last | src/sections/CommandCenter.jsx:54 | `slice(-n)` keeps the last n elements, or all when fewer |
| CommandCenter.NextWindow | src/sections/CommandCenter.jsx:54 | the new window is the last ten previous signals followed by the new one: at most eleven, newest last |
| CommandCenter.WindowHoldsNewest | src/sections/CommandCenter.jsx:45-57 | after any run of updates the window holds the last eleven signals received |
| CommandCenter.SignalColor | src/sections/CommandCenter.jsx:69-76 | each known type has its colour; every other type gets the green default |
| CommandCenter.GeneratedNeverDefault | src/sections/CommandCenter.jsx:50 | no generated signal is drawn in the default colour |
| CommandCenter.Center.constructor | src/sections/CommandCenter.jsx:11-19 | starts scanning at angle 0 with no signals and reach, engagement and growth all 0 |
| CommandCenter.Center.RadarTick | src/sections/CommandCenter.jsx:23-30 | advances the angle by 2 modulo 360 only while scanning; scanning, signals and the three metrics stay as they were |
| CommandCenter.Center.ToggleScanning | src/sections/CommandCenter.jsx:118 | flips scanning; angle, signals and the three metrics stay as they were |
| CommandCenter.Center.MetricsTick | src/sections/CommandCenter.jsx:33-42 | reach is floor(r1·1000000) + 1200000 in [1200000, 2199999], engagement r2·5 + 2 in [2, 7), growth r3·3 + 1 in [1, 4); angle, scanning and signals stay as they were |
| CommandCenter.Center.SignalTick | src/sections/CommandCenter.jsx:45-57 | the window becomes the last ten signals followed by the new one; angle, scanning and the three metrics stay as they were |
| EinsteinAI.NextInsight | src/components/EinsteinAI.jsx:101 | the next index stays below five, differs from the current, and wraps to 0 only after the last |
| EinsteinAI.CycleVisitsAll | src/components/EinsteinAI.jsx:101 | five steps visit all five insights and return |
| EinsteinAI.PriorityColor | src/components/EinsteinAI.jsx:111-118 | HIGH, MEDIUM and INFO get their colours; any other priority the default |
| EinsteinAI.InsightsHaveKnownPriority | src/components/EinsteinAI.jsx:11-72 | every insight is shown in a named priority colour |
| EinsteinAI.Carousel.constructor | src/components/EinsteinAI.jsx:6-9 | starts on the first insight with typing begun |
| EinsteinAI.Carousel.RestartTyping | src/components/EinsteinAI.jsx:78-79 | clears the shown text and sets typing |
| EinsteinAI.Carousel.TypingTick | src/components/EinsteinAI.jsx:84-90 | reveals one more character, keeping the shown text a prefix, until the whole text is shown; then typing stops |
| EinsteinAI.Carousel.BeginCycle | src/components/EinsteinAI.jsx:99 | marks processing |
| EinsteinAI.Carousel.EndCycle | src/components/EinsteinAI.jsx:100-103 | moves to the next insight and restarts typing |
| EinsteinAI.Carousel.ClickDot | src/components/EinsteinAI.jsx:223 | selects the dot's insight; typing restarts only if it differs from the current |
| LiveExperiment.Choose | src/components/LiveExperiment.jsx:49 | the drawn experiment is one of the three, each with five steps |
| LiveExperiment.StepProgress | src/components/LiveExperiment.jsx:60 | step progress lies in (0, 100] and reaches 100 exactly at the last step |
| LiveExperiment.StepProgressIncreases | src/components/LiveExperiment.jsx:60 | each later step shows more progress |
| LiveExperiment.StepLabel | src/components/LiveExperiment.jsx:106 | the label is always one of the experiment's steps |
| LiveExperiment.LabelAfterStep | src/components/LiveExperiment.jsx:106 | after a step the label names the following step; after the last it falls back to the first |
| LiveExperiment.LabelAtStart | src/components/LiveExperiment.jsx:106 | at zero progress the label is the first step |
| LiveExperiment.Card.constructor | src/components/LiveExperiment.jsx:6-8 | starts idle |
| LiveExperiment.Card.Start | src/components/LiveExperiment.jsx:51-54 | only from idle: running, progress 0, no result |
| LiveExperiment.Card.StepFires | src/components/LiveExperiment.jsx:58-61 | progress moves strictly forward to the step's value, reaching 100 exactly at the last step |
| LiveExperiment.Card.Completes | src/components/LiveExperiment.jsx:63-68 | only after the last step: complete with the run's result, which `onComplete` receives when given |
| LiveExperiment.Card.Reset | src/components/LiveExperiment.jsx:155-159 | back to idle with progress 0 and no result |
| EngagementHeatmap.CellValue | src/components/EngagementHeatmap.jsx:12-24 | the peak is 100; weekday evenings 70 to 95; other evenings 50 to 80; daytime 40 to 60; the rest 10 to 40 |
| EngagementHeatmap.GenerateHeatmap | src/components/EngagementHeatmap.jsx:8-29 | 56 cells in day-major order, each with its day, slot and band value from its own draw |
| EngagementHeatmap.FindSucceeds | src/components/EngagementHeatmap.jsx:81 | every (day, slot) pair occurs exactly once, so the lookup finds it |
| EngagementHeatmap.PeakIsHundred | src/components/EngagementHeatmap.jsx:14-15 | the generated Wednesday 6 pm cell is 100 |
| EngagementHeatmap.Color | src/components/EngagementHeatmap.jsx:33-40 | buckets at 90, 75, 60, 45 and 30, each taken exactly in its range |
| EngagementHeatmap.ColorMonotone | src/components/EngagementHeatmap.jsx:33-40 | a higher value never gets a cooler bucket |
| EngagementHeatmap.Opacity | src/components/EngagementHeatmap.jsx:42-44 | opacity is at most 1, exactly 1 from 100 on, and non-negative for non-negative values |
| ActionProtocol.PriorityColors | src/sections/ActionProtocol.jsx:4-8 | each of the three priorities has its colours; any other name that is not an inherited property name has none |
| ActionProtocol.Column | src/sections/ActionProtocol.jsx:20 | a column holds exactly the recommendations of its priority |
| ActionProtocol.ColumnCounts | src/sections/ActionProtocol.jsx:20 | a column has one entry per recommendation of its priority |
| ActionProtocol.ColumnAppend | src/sections/ActionProtocol.jsx:20 | columns keep dataset order |
| ActionProtocol.ColumnsPartition | src/sections/ActionProtocol.jsx:19-20 | with every priority known, the three column sizes add up to the number of recommendations |
| ActionProtocol.Matrix | src/sections/ActionProtocol.jsx:19-20 | the columns are immediate, high, medium in that order; an unknown priority appears in none |
| ActionProtocol.DatasetMatrix | src/sections/ActionProtocol.jsx:19-32 | on the dataset: the two immediate actions, then the high one, then the medium one |
| ActionProtocol.NumberedSteps | src/sections/ActionProtocol.jsx:78-80 | steps are numbered 1 to n, increasing, each beside its step |
| ActionProtocol.DetailCards | src/sections/ActionProtocol.jsx:46-47 | one card per recommendation, in order, with colours exactly for a known priority |
| ActionProtocol.DatasetCardsColored | src/sections/ActionProtocol.jsx:46-47 | every card of the dataset finds its colours |
| VisualAnalysis.ToBar | src/sections/VisualAnalysis.jsx:7-12 | a bar copies name, followers and colour; a missing post count becomes 0; only `yu` is marked |
| VisualAnalysis.ChartFollowsExplorerOrder | src/sections/VisualAnalysis.jsx:7-13 | the chart lists the records in the same order as the explorer's followers sort |
| VisualAnalysis.ChartDescending | src/sections/VisualAnalysis.jsx:13 | one bar per record, with followers non-increasing |
| VisualAnalysis.BarTotalSorted | src/sections/VisualAnalysis.jsx:71 | sorting does not change the total |
| VisualAnalysis.ChartTotal | src/sections/VisualAnalysis.jsx:71 | the displayed total equals the sum of all records' followers |
| VisualAnalysis.DatasetTotal | src/sections/VisualAnalysis.jsx:71 | on the dataset the total is 1218932 |
| VisualAnalysis.CaptionShown | src/sections/VisualAnalysis.jsx:124 | a posts caption appears exactly for a known, positive post count |
| VisualAnalysis.ToTikTok | src/sections/VisualAnalysis.jsx:24-28 | 100 for an active account, 0 otherwise; a missing follower count becomes 0 |
| VisualAnalysis.TikTokChart | src/sections/VisualAnalysis.jsx:24-28 | one entry per record, in dataset order |
| VisualAnalysis.ActiveCountAgrees | src/sections/VisualAnalysis.jsx:190 | the active count equals the records' active count |
| VisualAnalysis.DatasetActiveCount | src/sections/VisualAnalysis.jsx:190 | on the dataset: three of six |

## Left out

- Rendering: JSX markup, styling classes, animations, charts and icons.
- Browser I/O: the file download in the export (`Blob`, object URL, anchor click), external links, scrolling the terminal, focus handling.
- Timers as scheduling: interval and timeout periods. Each callback is a method call in schedule order; an unmounted component's pending callbacks are not modelled.
- Randomness: every `Math.random()` value is a parameter, and `Date.now()` (the signal id) is one too.
- Floating point: rates are exact reals. `toFixed`, `toLocaleString` and the compare command's ratio text are not modelled, and neither is the formatted text of the terminal's reports, which are structured values here.
- Radar, sweep and blip geometry (trigonometry only), and the per-institution signal counts, which are random noise.
- `localeCompare`'s locale rules: plain lexicographic character order stands in for it.
- `toLowerCase` beyond ASCII letters, and `trim` beyond the common whitespace characters.
- Object-literal lookups also answer inherited property names (`constructor`, `toString`) with `Object.prototype`'s members rather than the fallback or a failure. This holds for the terminal's `commands`, the admin panel's status badges, the flowchart's node colours and the action protocol's priority colours. Only the own keys are modelled, and every other name takes the fallback (or has no entry). The fixed data never uses such a name.
- ResearchTerminal.Stats: requires a non-empty dataset, because the mean of no records is not a number in the source.
- AdminPanel.CurrentFiles: requires that every listed child exists, as it does in the mock tree (proved), because a dangling child makes the source fail reading its name.
- The admin panel's upload tab, editing and new-file modal, whose handlers only toggle visibility flags.
- The dataset's `keyFindings`, `sources`, methodology and status text: narrative only.
- The stored "vs average" gap of -135000: it is not YU minus the mean of the six records, and nothing computes it.
- The narrative targets in the insight and experiment texts (25,000 followers, +67%): copy, not outputs of the simulator.
- The experiment card redraws its experiment on every render; the step label takes whichever experiment a render drew as a parameter, and the run keeps the one drawn when Run was clicked.
- The CSV export does no quoting of commas or quotes, and neither does the model.
- The data-lab, competitor modal, overview, statistical-insights and navigation views: display-only ratios and chrome.
